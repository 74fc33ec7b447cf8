/** extension/src/navigation-receipts.js as it runs: the store's fields, updated in place.  Each method
    leaves what the function of the same operation in NavigationReceipts says, so a sequence of calls is
    a run as NavigationRuns defines it: NavigationLifetime proves that. */
module NavigationReceiptStore {
  import opened Basics
  import opened NavigationReceipts
  import Outcomes = NavigationOutcomes
  import Spec = NavigationReceipts

  // ---- objects as maps ----

  method LeastRanked<K(==), V>(m: map<K, V>, candidates: set<K>, rank: V -> int) returns (least: K)
    requires candidates != {} && candidates <= m.Keys
    ensures least in candidates && forall k :: k in candidates ==> rank(m[least]) <= rank(m[k])
  {
    least :| least in candidates;
    var rest := candidates - {least};
    while rest != {}
      invariant least in candidates && rest <= candidates
      invariant forall k :: k in candidates && k !in rest ==> rank(m[least]) <= rank(m[k])
    {
      var k :| k in rest;
      if rank(m[k]) < rank(m[least]) { least := k; }
      rest := rest - {k};
    }
  }

  ghost predicate Evicting<K, V>(before: map<K, V>, after: map<K, V>, protected: set<K>, rank: V -> int) {
    (forall k :: k in after ==> k in before && after[k] == before[k]) &&
    forall e, k :: e in before && e !in after && k in after ==>
      (k in protected || e !in protected) &&
      ((k in protected <==> e in protected) ==> rank(before[e]) <= rank(before[k]))
  }

  lemma EvictingOne<K, V>(before: map<K, V>, kept: map<K, V>, protected: set<K>, rank: V -> int, victim: K)
    requires Evicting(before, kept, protected, rank) && victim in kept
    requires forall k :: k in kept && (k in protected <==> victim in protected) ==> rank(kept[victim]) <= rank(kept[k])
    requires victim in protected ==> kept.Keys <= protected
    ensures Evicting(before, kept - {victim}, protected, rank) && |kept - {victim}| == |kept| - 1
    ensures (kept - {victim}).Keys == kept.Keys - {victim}
  {
    assert (kept - {victim}).Keys == kept.Keys - {victim};
  }

  lemma EvictingEnough<K, V>(before: map<K, V>, after: map<K, V>, limit: nat, protected: set<K>, rank: V -> int)
    requires Evicting(before, after, protected, rank) && |after| == if |before| <= limit then |before| else limit
    ensures Evicted(before, after, limit, protected, rank)
  {
  }

  method PruneObject<K(==), V>(value: map<K, V>, limit: nat, protected: set<K>, rank: V -> int)
    returns (kept: map<K, V>)
    ensures Evicted(value, kept, limit, protected, rank)
  {
    kept := value;
    assert Evicting(value, kept, protected, rank);
    hide Evicting, Evicted;
    var unprotected := kept.Keys - protected;
    while |kept| > limit && unprotected != {}
      invariant unprotected == kept.Keys - protected
      invariant |kept| <= |value| && (|kept| >= limit || |kept| == |value|)
      invariant Evicting(value, kept, protected, rank)
    {
      var victim := LeastRanked(kept, unprotected, rank);
      EvictingOne(value, kept, protected, rank, victim);
      kept := kept - {victim};
      unprotected := unprotected - {victim};
    }
    assert |kept| > limit ==> kept.Keys <= protected by {
      assert forall k :: k in kept.Keys ==> k in protected || k in unprotected;
    }
    while |kept| > limit
      invariant |kept| <= |value| && (|kept| >= limit || |kept| == |value|)
      invariant |kept| > limit ==> kept.Keys <= protected
      invariant Evicting(value, kept, protected, rank)
      decreases |kept|
    {
      var victim := LeastRanked(kept, kept.Keys, rank);
      EvictingOne(value, kept, protected, rank, victim);
      kept := kept - {victim};
    }
    EvictingEnough(value, kept, limit, protected, rank);
  }

  method Entries<K(==), V>(m: map<K, V>) returns (entries: seq<(K, V)>)
    ensures Enumerates(entries, m)
  {
    entries := [];
    var rest := m.Keys;
    while rest != {}
      invariant rest <= m.Keys && |entries| + |rest| == |m|
      invariant forall i :: 0 <= i < |entries| ==> entries[i].0 in m && m[entries[i].0] == entries[i].1
      invariant forall k :: k in m ==> k in rest || exists i :: 0 <= i < |entries| && entries[i].0 == k
    {
      var k :| k in rest;
      ghost var before := entries;
      entries := entries + [(k, m[k])];
      rest := rest - {k};
      assert entries[|before|].0 == k && forall i :: 0 <= i < |before| ==> entries[i] == before[i];
    }
  }

  // ---- CONNECT decisions ----

  method NewestEquivalentConnectDecision(candidates: seq<ConnectDecision>) returns (selection: Selection)
    ensures selection == NewestEquivalent(candidates)
    ensures selection.NoDecision? <==> candidates == []
    ensures selection.AmbiguousDecision? <==>
              exists x, y :: x in candidates && y in candidates && !Outcomes.SameStatement(x, y)
    ensures selection.Selected? ==>
              selection.decision in candidates &&
              forall y :: y in candidates ==> Outcomes.NotNewer(y, selection.decision)
  {
    Outcomes.SelectionIs(candidates);
    hide Outcomes.SameStatement, Outcomes.NotNewer;
    if candidates == [] {
      return NoDecision;
    }
    for i := 0 to |candidates|
      invariant forall j :: 0 <= j < i ==> Spec.SameEvidence(candidates[0], candidates[j])
    {
      if !Spec.SameEvidence(candidates[0], candidates[i]) {
        return AmbiguousDecision;
      }
    }
    var newest := candidates[0];
    for i := 1 to |candidates|
      invariant newest == Newest(candidates[..i])
    {
      assert candidates[..i + 1][..i] == candidates[..i];
      newest := Newer(newest, candidates[i]);
    }
    assert candidates[..|candidates|] == candidates;
    return Selected(newest);
  }

  /** The requests after those in `seen` were compared with request id. */
  ghost function MarkedAmong(
    before: map<string, Pending>, id: string, host: string, seen: set<string>): map<string, Pending>
    requires id in before
  {
    var conflicted := exists k :: k in before && k in seen && Conflicts(before, id, host, k);
    map k | k in before ::
      if (k in seen && Conflicts(before, id, host, k)) || (k == id && conflicted) then before[k].(ambiguous := true)
      else before[k]
  }

  lemma MarkedMore(before: map<string, Pending>, id: string, host: string, seen: set<string>, k: string)
    requires id in before && k in before && seen <= before.Keys && k !in seen
    ensures var now := MarkedAmong(before, id, host, seen);
            MarkedAmong(before, id, host, seen + {k}) ==
            if Conflicts(before, id, host, k) then
              now[k := now[k].(ambiguous := true)][id := now[id].(ambiguous := true)]
            else now
  {
  }

  lemma SomePickAmong(s: Store, tab: nat, documentId: string, url: string, keys: set<string>)
    returns (pick: Option<string>)
    requires keys <= s.pending.Keys
    ensures pick.Some? ==> pick.value in keys && IsCandidate(s, tab, documentId, url, pick.value)
    ensures forall k :: k in keys && IsCandidate(s, tab, documentId, url, k) ==>
              pick.Some? && s.pending[k].sequence <= s.pending[pick.value].sequence
  {
    pick := None;
    if k :| k in keys {
      pick := SomePickAmong(s, tab, documentId, url, keys - {k});
      if IsCandidate(s, tab, documentId, url, k) &&
         (pick.None? || s.pending[pick.value].sequence < s.pending[k].sequence) {
        pick := Some(k);
      }
    }
  }

  lemma SomePick(s: Store, tab: nat, documentId: string, url: string) returns (pick: Option<string>)
    ensures IsPendingForDocument(s, tab, documentId, url, pick)
    ensures pick.Some? ==> pick.value in s.pending
  {
    pick := SomePickAmong(s, tab, documentId, url, s.pending.Keys);
  }

  lemma PickInPending(s: Store, tab: nat, documentId: string, url: string, pick: Option<string>)
    requires IsPendingForDocument(s, tab, documentId, url, pick)
    ensures pick.Some? ==> pick.value in s.pending
  {
  }

  class NavigationReceiptStore {
    const canon: Canon
    var runtime: Option<Runtime>
    var maintenanceEpoch: int
    var maintenancePending: bool
    var sequence: nat
    var lastNativeEventSequence: int
    var tabs: map<nat, Tab>
    var documents: map<string, Document>
    var urlReceipts: map<string, UrlReceipt>
    var pending: map<string, Pending>

    function View(): Store
      reads this
    {
      Store(runtime, maintenanceEpoch, maintenancePending, sequence, lastNativeEventSequence, tabs, documents,
            urlReceipts, pending)
    }

    constructor (canon: Canon, snapshot: Snapshot, now: real)
      ensures this.canon == canon
      ensures Settled(Spec.Restore(canon, snapshot, now), View())
    {
      this.canon := canon;
      runtime, maintenanceEpoch, maintenancePending, sequence, lastNativeEventSequence := None, 0, false, 0, 0;
      tabs, documents, urlReceipts, pending := map[], map[], map[], map[];
      new;
      Restore(snapshot, now);
    }

    // ---- small steps ----

    method NextSequence() returns (next: nat)
      modifies this`sequence
      ensures View() == Spec.NextSequence(old(View())) && next == sequence
    {
      sequence := if sequence < MAX_SAFE_INTEGER then sequence + 1 else 1;
      next := sequence;
    }

    method NoteNativeEvent(st: Status, now: real)
      modifies this`lastNativeEventSequence
      ensures View() == Spec.NoteNativeEvent(old(View()), st, now)
    {
      var candidate := CurrentSecurityResult(st.latest, runtime);
      if candidate.Some? {
        lastNativeEventSequence := MaxInt(lastNativeEventSequence, candidate.value.eventSequence);
      }
      if st.decisions.None? || |st.decisions.value| > MAX_NATIVE_CONNECT_DECISIONS {
        return;
      }
      var ds := st.decisions.value;
      ghost var floor := lastNativeEventSequence;
      for i := 0 to |ds|
        invariant lastNativeEventSequence == NoteDecisions(floor, ds[..i], runtime, maintenanceEpoch, now)
      {
        assert ds[..i + 1][..i] == ds[..i];
        if CurrentDecision(ds[i], runtime, Some(maintenanceEpoch), now) {
          lastNativeEventSequence := MaxInt(lastNativeEventSequence, ds[i].eventSequence);
        }
      }
      assert ds[..|ds|] == ds;
    }

    method EnsureRuntime(st: Status, now: real) returns (ok: bool)
      modifies this
      ensures var out := Spec.EnsureRuntime(old(View()), st, now); View() == out.store && ok == out.result
      ensures !ok ==> View() == old(View())
    {
      var candidate, epoch := RuntimeTuple(st.runtime), ValidEpoch(st.epoch);
      if candidate.None? || epoch.None? {
        return false;
      }
      if runtime != candidate {
        runtime, maintenanceEpoch, maintenancePending := candidate, epoch.value, false;
        sequence, lastNativeEventSequence := 0, 0;
        tabs, documents, urlReceipts, pending := map[], map[], map[], map[];
      } else if epoch.value < maintenanceEpoch {
        return false;
      } else if epoch.value > maintenanceEpoch {
        maintenanceEpoch := epoch.value;
        pending := map[];
      }
      NoteNativeEvent(st, now);
      return true;
    }

    method MarkHostConflicts(id: string, host: string)
      requires id in pending
      modifies this`pending
      ensures pending == Spec.MarkHostConflicts(old(pending), id, host)
    {
      ghost var before := pending;
      var rest := pending.Keys;
      while rest != {}
        invariant rest <= before.Keys
        invariant pending == MarkedAmong(before, id, host, before.Keys - rest)
      {
        var k :| k in rest;
        var current, other := pending[id], pending[k];
        if k != id && other.epoch == current.epoch && other.target.host == host {
          pending := pending[k := other.(ambiguous := true)][id := current.(ambiguous := true)];
        }
        MarkedMore(before, id, host, before.Keys - rest, k);
        rest := rest - {k};
        assert before.Keys - rest == before.Keys - (rest + {k}) + {k};
      }
      assert before.Keys - rest == before.Keys;
    }

    // ---- requests ----

    method BeginRequest(d: Details, st: Status, now: real) returns (ok: bool)
      modifies this
      ensures var out := Begin(canon, old(View()), d, st, now); Settled(out, View()) && ok == out.result
    {
      var ensured := EnsureRuntime(st, now);
      if !ensured || maintenancePending {
        return false;
      }
      var id, tab, target := BoundedIdentifier(d.requestId), ValidTabId(d.tabId), canon(d.url);
      if id.None? || tab.None? || target.None? || !d.mainFrameType {
        return false;
      }
      if id.value in pending {
        var existing := pending[id.value];
        pending := pending[id.value := existing.(target := target.value, verb := d.verb,
          documentId := existing.documentId.OrElse(BoundedIdentifier(d.documentId)))];
        MarkHostConflicts(id.value, target.value.host);
        return true;
      }
      var next := NextSequence();
      pending := pending[id.value := Pending(tab.value, BoundedIdentifier(d.documentId), target.value, d.verb,
        ValidBrowserTimestamp(d.timeStamp, now), lastNativeEventSequence, maintenanceEpoch, false, None, next)];
      MarkHostConflicts(id.value, target.value.host);
      PrunePending();
      return true;
    }

    method RedirectRequest(d: Details) returns (ok: bool)
      modifies this
      ensures var out := Redirect(canon, old(View()), d); Settled(out, View()) && ok == out.result
    {
      var id, target := BoundedIdentifier(d.requestId), canon(d.redirectUrl);
      if id.None? || id.value !in pending || target.None? {
        return false;
      }
      var p := pending[id.value];
      pending := pending[id.value := p.(target := target.value,
        documentId := p.documentId.OrElse(BoundedIdentifier(d.documentId)))];
      MarkHostConflicts(id.value, target.value.host);
      return true;
    }

    method FailRequest(d: Details) returns (ok: bool)
      modifies this`pending
      ensures var out := Spec.FailRequest(old(View()), d); Settled(out, View()) && ok == out.result
    {
      var id := BoundedIdentifier(d.requestId);
      if id.None? || id.value !in pending {
        return false;
      }
      pending := pending - {id.value};
      return true;
    }

    // ---- completions ----

    method CachedCompletion(p: Pending, d: Details, st: Status, now: real) returns (c: Completion)
      modifies this
      ensures var r := Cached(old(View()), p, d, st, now); View() == r.store && c == r.completion
    {
      hide CurrentConnect, CurrentResult, Spec.EnsureRuntime;
      if RuntimeTuple(st.runtime).None? || ValidEpoch(st.epoch).None? || runtime != RuntimeTuple(st.runtime) {
        var _ := EnsureRuntime(st, now);
        return Unavailable(RuntimeGenerationChanged);
      }
      var ensured := EnsureRuntime(st, now);
      if !ensured {
        return Unavailable(RuntimeGenerationUnavailable);
      }
      if maintenancePending || p.epoch != maintenanceEpoch || p.target.url !in urlReceipts ||
         urlReceipts[p.target.url].completion.epoch != Some(maintenanceEpoch) || !SafeMethod(p.verb) {
        return Unavailable(BrowserCacheReceiptUnavailable);
      }
      var cached := urlReceipts[p.target.url].completion;
      var receipt := CurrentSecurityResult(cached.receipt, runtime);
      if receipt.Some? && receipt.value.mainFrame && receipt.value.host == p.target.host &&
         receipt.value.statusCode.Some? && receipt.value.statusCode == d.statusCode {
        return Completion(receipt, None, Some(maintenanceEpoch), Some(RustHttpResponseCache), None);
      }
      var connect := CurrentConnectReceipt(cached.connect, runtime, Some(maintenanceEpoch), p.target, now);
      if connect.Some? && Some(connect.value.status) == d.statusCode {
        return Completion(None, connect, Some(maintenanceEpoch), Some(WebPkiCacheReceipt), None);
      }
      return Unavailable(BrowserCacheReceiptUnavailable);
    }

    method NetworkCompletion(p: Pending, d: Details, st: Status, now: real) returns (c: Completion)
      modifies this
      ensures var r := Network(old(View()), p, d, st, now); View() == r.store && c == r.completion
    {
      hide CurrentResult, Spec.EnsureRuntime, ConnectEvidence;
      if RuntimeTuple(st.runtime).None? || ValidEpoch(st.epoch).None? {
        return Unavailable(RuntimeGenerationUnavailable);
      }
      if runtime != RuntimeTuple(st.runtime) {
        var _ := EnsureRuntime(st, now);
        return Unavailable(RuntimeGenerationChanged);
      }
      var ensured := EnsureRuntime(st, now);
      if !ensured || maintenancePending {
        return Unavailable(HeaderMaintenanceInvalidatedNavigation);
      }
      var candidate := CurrentSecurityResult(st.latest, runtime);
      if candidate.Some? {
        lastNativeEventSequence := MaxInt(lastNativeEventSequence, candidate.value.eventSequence);
      }
      if p.epoch != maintenanceEpoch {
        return Unavailable(HeaderMaintenanceInvalidatedNavigation);
      }
      if p.ambiguous {
        return Unavailable(AmbiguousMainFrameObservation);
      }
      if !SafeMethod(p.verb) {
        return Unavailable(UnsupportedMainFrameMethod);
      }
      if MatchingResponse(candidate, p, d) {
        c := Completion(candidate, None, Some(maintenanceEpoch), Some(RustHttpResponse), None);
      } else {
        c := ConnectDecisionCompletion(p, d, st, now);
        if c.connect.None? {
          return if candidate.Some? then Unavailable(MainFrameSecurityReceiptMismatch) else c;
        }
      }
      var next := NextSequence();
      urlReceipts := urlReceipts[p.target.url := UrlReceipt(c, next)];
    }

    method ConnectDecisionCompletion(p: Pending, d: Details, st: Status, now: real) returns (c: Completion)
      ensures c == ConnectEvidence(View(), p, d, st, now)
      ensures c.receipt.None? && (c.connect.None? ==> c == Unavailable(c.reason.OrElse(Some(NoActiveBrowserTab)).value))
    {
      hide Matching, Fresh, Retained, NewestEquivalent;
      var completedAt := ValidBrowserTimestamp(d.timeStamp, now);
      if p.target.scheme != Https || p.startedAt.None? || completedAt.None? ||
         completedAt.value + MAX_COMPLETION_CLOCK_SKEW_MS < p.startedAt.value || !ValidHttpStatus(d.statusCode) ||
         st.decisions.None? || |st.decisions.value| > MAX_NATIVE_CONNECT_DECISIONS {
        return Unavailable(ConnectSecurityDecisionUnavailable);
      }
      var matches := Matching(st.decisions.value, View(), p, completedAt.value, now);
      var newest := NewestEquivalentConnectDecision(Fresh(matches, p.eventFloor, p.startedAt.value));
      if newest.AmbiguousDecision? {
        return Unavailable(AmbiguousConnectSecurityDecision);
      }
      if newest.Selected? {
        return Completion(None, Some(ConnectReceipt(newest.decision, d.statusCode.value, completedAt.value)),
                          Some(maintenanceEpoch), Some(WebPkiPassthrough), None);
      }
      var retained := NewestEquivalentConnectDecision(Retained(matches, p.startedAt.value));
      if retained.AmbiguousDecision? {
        return Unavailable(AmbiguousConnectSecurityDecision);
      }
      if retained.NoDecision? {
        return Unavailable(ConnectSecurityDecisionUnavailable);
      }
      return Completion(None, Some(ConnectReceipt(retained.decision, d.statusCode.value, completedAt.value)),
                        Some(maintenanceEpoch), Some(WebPkiConnectionReuse), None);
    }

    method BindCompletion(documentId: string, c: Completion, now: real)
      requires documentId in documents
      modifies this`documents, this`sequence
      ensures View() == Bind(old(View()), documentId, c, now)
    {
      hide CurrentConnect, CurrentResult;
      var doc := documents[documentId];
      if c.source.Some? && IsRust(c.source.value) && c.receipt.Some? && CurrentResult(c.receipt.value, runtime) &&
         c.receipt.value.host == doc.target.host {
        doc := doc.(receipt := c.receipt, connect := None, receiptEpoch := c.epoch, source := c.source, reason := None);
      } else if c.source.Some? && IsConnect(c.source.value) &&
                CurrentConnectReceipt(c.connect, runtime, c.epoch, doc.target, now).Some? {
        doc := doc.(receipt := None, connect := c.connect, receiptEpoch := c.epoch, source := c.source, reason := None);
      } else {
        doc := doc.(receipt := None, connect := None, receiptEpoch := None, source := None,
                    reason := c.reason.OrElse(Some(MainFrameSecurityReceiptUnavailable)));
      }
      var next := NextSequence();
      documents := documents[documentId := doc.(sequence := next)];
    }

    method EvidenceCompletion(p: Pending, d: Details, st: Status, now: real) returns (c: Completion)
      modifies this
      ensures var r := Evidence(old(View()), p, d, st, now); View() == r.store && c == r.completion
    {
      hide Cached, Network;
      if d.fromCache { c := CachedCompletion(p, d, st, now); } else { c := NetworkCompletion(p, d, st, now); }
    }

    /** The end of completeRequest: the completion reaches its document or waits with its request. */
    method Conclude(id: string, p: Pending, c: Completion, now: real)
      modifies this`documents, this`sequence, this`pending
      ensures View() == Concluded(old(View()), id, p, c, now)
    {
      hide Bind;
      var documentId := p.documentId.OrElse(DocumentIdForTabAndUrl(View(), p.tabId, p.target.url));
      if documentId.Some? && documentId.value in documents {
        BindCompletion(documentId.value, c, now);
        pending := pending - {id};
      } else if id in pending {
        pending := pending[id := p.(completion := Some(c))];
      }
    }

    /** completeRequest; exactly when it succeeds is said on the fields by Gives. */
    method CompleteRequest(d: Details, st: Status, now: real) returns (ok: bool)
      modifies this
      ensures var out := Complete(canon, old(View()), d, st, now); Settled(out, View()) && ok == out.result
      ensures ok <==> Outcomes.Gives(canon, old(View()), d, st, now)
    {
      hide Complete, Settled, Outcomes.Gives;
      Outcomes.CompletionResult(canon, View(), d, st, now);
      ok := SettleRequest(d, st, now);
    }

    method SettleRequest(d: Details, st: Status, now: real) returns (ok: bool)
      modifies this
      ensures var out := Complete(canon, old(View()), d, st, now); Settled(out, View()) && ok == out.result
    {
      hide Evidence, Concluded, Pruned;
      var id := BoundedIdentifier(d.requestId);
      if id.None? || id.value !in pending {
        return false;
      }
      var target := canon(d.url);
      if target.None? || ValidTabId(d.tabId) != Some(pending[id.value].tabId) {
        pending := pending - {id.value};
        return false;
      }
      var p := Completing(pending[id.value], target.value, d);
      pending := pending[id.value := p];
      var c := EvidenceCompletion(p, d, st, now);
      Conclude(id.value, p, c, now);
      Prune();
      return c.receipt.Some? || c.connect.Some?;
    }

    // ---- documents and tabs ----

    method PendingForDocument(tab: nat, documentId: string, url: string) returns (pick: Option<string>)
      ensures IsPendingForDocument(View(), tab, documentId, url, pick)
    {
      pick := None;
      var rest := pending.Keys;
      while rest != {}
        invariant rest <= pending.Keys
        invariant pick.Some? ==> IsCandidate(View(), tab, documentId, url, pick.value)
        invariant forall k :: k in pending && k !in rest && IsCandidate(View(), tab, documentId, url, k) ==>
          pick.Some? && pending[k].sequence <= pending[pick.value].sequence
      {
        var k :| k in rest;
        if IsCandidate(View(), tab, documentId, url, k) &&
           (pick.None? || pending[pick.value].sequence < pending[k].sequence) {
          pick := Some(k);
        }
        rest := rest - {k};
      }
    }

    /** `pick` is the request found for the document; where none is sought it is the one there would be. */
    method CommitDocument(d: Details, reason: Reason, now: real) returns (ok: bool, ghost pick: Option<string>)
      modifies this
      ensures pick.Some? ==> pick.value in old(pending)
      ensures canon(d.url).Some? ==>
                IsPendingForDocument(old(View()), if d.tabId < 0 then 0 else d.tabId, d.documentId,
                                     canon(d.url).value.url, pick)
      ensures var out := Commit(canon, old(View()), d, reason, pick, now); Settled(out, View()) && ok == out.result
    {
      hide Pruned, IsPendingForDocument, Spec.Recommit, Spec.CommitNew, Spec.WithoutDocument;
      var tab, id, target := ValidTabId(d.tabId), BoundedIdentifier(d.documentId), canon(d.url);
      pick := SomePick(View(), if d.tabId < 0 then 0 else d.tabId, d.documentId,
                       if target.Some? then target.value.url else "");
      if tab.None? || !d.lifecycleActive {
        return false, pick;
      }
      if id.None? || target.None? || d.frameId != 0 {
        WithoutDocument(target, tab.value, UnsupportedMainFrame);
        Prune();
        return false, pick;
      }
      if id.value in documents {
        Recommit(id.value, target.value, tab.value, d.forwardBack);
        Prune();
        return true, pick;
      }
      pick := CommitNew(id.value, target.value, tab.value, d.forwardBack, reason, now);
      Prune();
      return true, pick;
    }

    method WithoutDocument(target: Option<Target>, tab: nat, reason: Reason)
      modifies this`tabs, this`sequence
      ensures View() == Spec.WithoutDocument(old(View()), target, tab, reason)
    {
      var next := NextSequence();
      tabs := tabs[tab := Tab(None, if target.Some? then Some(target.value.url) else None, Some(reason), next)];
    }

    method NewDocument(id: string, target: Target, tab: nat, forwardBack: bool, reason: Reason)
      modifies this`tabs, this`documents, this`sequence
      ensures View() == Spec.NewDocument(old(View()), id, target, tab, forwardBack, reason)
      ensures id in documents
    {
      var next := NextSequence();
      documents := documents[id := Document(tab, target, None, None, None, None, forwardBack, Some(reason), next)];
      tabs := tabs[tab := Tab(Some(id), Some(target.url), None, next)];
    }

    method CommitNew(id: string, target: Target, tab: nat, forwardBack: bool, reason: Reason, now: real)
      returns (ghost pick: Option<string>)
      modifies this
      ensures IsPendingForDocument(old(View()), tab, id, target.url, pick) &&
              (pick.Some? ==> pick.value in old(pending))
      ensures View() == Spec.CommitNew(old(View()), id, target, tab, forwardBack, reason, pick, now)
    {
      hide Bind, IsPendingForDocument, Spec.NewDocument;
      var found := PendingForDocument(tab, id, target.url);
      PickInPending(View(), tab, id, target.url, found);
      pick := found;
      NewDocument(id, target, tab, forwardBack, if found.Some? then MainFrameSecurityPending else reason);
      if found.Some? {
        var p := pending[found.value];
        if p.completion.Some? {
          BindCompletion(id, p.completion.value, now);
          pending := pending - {found.value};
        } else {
          pending := pending[found.value := p.(documentId := Some(id))];
        }
      }
    }

    method Recommit(id: string, target: Target, tab: nat, forwardBack: bool)
      requires id in documents
      modifies this`documents, this`tabs, this`sequence
      ensures View() == Spec.Recommit(old(View()), id, target, tab, forwardBack)
    {
      var existing := documents[id];
      if existing.target.origin != target.origin {
        existing := existing.(receipt := None, connect := None, receiptEpoch := None, source := None,
                              reason := Some(HistoryOriginMismatch));
      }
      var next := NextSequence();
      documents := documents[id := existing.(tabId := tab, target := target,
                                             restored := existing.restored || forwardBack, sequence := next)];
      tabs := tabs[tab := Tab(Some(id), Some(target.url), None, next)];
    }

    method DropRequestsOf(tab: nat)
      modifies this`pending
      ensures pending == map k | k in old(pending) && old(pending)[k].tabId != tab :: old(pending)[k]
    {
      ghost var before := pending;
      var rest := pending.Keys;
      while rest != {}
        invariant rest <= pending.Keys
        invariant pending == map k | k in before && (k in rest || before[k].tabId != tab) :: before[k]
      {
        var k :| k in rest;
        rest := rest - {k};
        if pending[k].tabId == tab { pending := pending - {k}; }
      }
    }

    method FailNavigation(d: Details) returns (ok: bool)
      modifies this
      ensures var out := Spec.FailNavigation(canon, old(View()), d); Settled(out, View()) && ok == out.result
    {
      hide Pruned;
      var tab := ValidTabId(d.tabId);
      if tab.None? || d.frameId != 0 {
        return false;
      }
      DropRequestsOf(tab.value);
      WithoutDocument(canon(d.url), tab.value, MainFrameNavigationFailed);
      Prune();
      return true;
    }

    method RemoveTab(tabId: int) returns (ok: bool)
      modifies this
      ensures var out := Spec.RemoveTab(old(View()), tabId); Settled(out, View()) && ok == out.result
    {
      var valid := ValidTabId(tabId);
      if valid.None? {
        return false;
      }
      tabs := tabs - {valid.value};
      DropDocumentsOf(valid.value);
      DropRequestsOf(valid.value);
      return true;
    }

    method DropDocumentsOf(tab: nat)
      modifies this`documents
      ensures documents == map k | k in old(documents) && old(documents)[k].tabId != tab :: old(documents)[k]
    {
      ghost var before := documents;
      var rest := documents.Keys;
      while rest != {}
        invariant rest <= documents.Keys
        invariant documents == map k | k in before && (k in rest || before[k].tabId != tab) :: before[k]
      {
        var k :| k in rest;
        rest := rest - {k};
        if documents[k].tabId == tab { documents := documents - {k}; }
      }
    }

    method ReplaceTab(addedId: int, removedId: int) returns (ok: bool)
      modifies this
      ensures var out := Spec.ReplaceTab(old(View()), addedId, removedId); Settled(out, View()) && ok == out.result
    {
      hide Spec.MoveTab;
      var added, removed := ValidTabId(addedId), ValidTabId(removedId);
      if added.None? || removed.None? {
        return false;
      }
      if removed.value in tabs {
        MoveTab(added.value, removed.value);
      }
      MoveRequests(added.value, removed.value);
      return true;
    }

    method MoveTab(added: nat, removed: nat)
      requires removed in tabs
      modifies this`tabs, this`documents, this`sequence
      ensures View() == Spec.MoveTab(old(View()), added, removed)
    {
      var tab := tabs[removed];
      tabs := tabs - {removed};
      var next := NextSequence();
      tabs := tabs[added := tab.(sequence := next)];
      if tab.documentId.Some? && tab.documentId.value in documents {
        documents := documents[tab.documentId.value := documents[tab.documentId.value].(tabId := added)];
      }
    }

    method MoveRequests(added: nat, removed: nat)
      modifies this`pending
      ensures pending == map k | k in old(pending) ::
                if old(pending)[k].tabId == removed then old(pending)[k].(tabId := added) else old(pending)[k]
    {
      ghost var before := pending;
      var rest := pending.Keys;
      while rest != {}
        invariant rest <= before.Keys
        invariant pending == map k | k in before ::
          if k !in rest && before[k].tabId == removed then before[k].(tabId := added) else before[k]
      {
        var k :| k in rest;
        rest := rest - {k};
        if pending[k].tabId == removed { pending := pending[k := pending[k].(tabId := added)]; }
      }
    }

    // ---- maintenance ----

    method BeginMaintenance(st: Status, now: real) returns (ok: bool)
      modifies this
      ensures var out := Spec.BeginMaintenance(old(View()), st, now); Settled(out, View()) && ok == out.result
    {
      ok := EnsureRuntime(st, now);
      if ok {
        maintenancePending := true;
        pending := map[];
      }
    }

    method CompleteMaintenance(st: Status, nowSeconds: int, now: real) returns (ok: bool)
      modifies this
      ensures var out := Spec.CompleteMaintenance(old(View()), st, nowSeconds, now);
              Settled(out, View()) && ok == out.result
    {
      if !maintenancePending || !MaintenanceCompletionReady(st, nowSeconds) {
        return false;
      }
      ok := EnsureRuntime(st, now);
      if ok {
        maintenancePending := false;
        pending := map[];
      }
    }

    // ---- queries ----

    method ReceiptForTab(tabId: int, st: Status, now: real) returns (view: ReceiptView)
      modifies this
      ensures var out := Spec.ReceiptForTab(old(View()), tabId, st, now); Settled(out, View()) && view == out.result
    {
      hide TabView;
      var ensured := EnsureRuntime(st, now);
      return if ensured then TabView(View(), tabId, now) else NoReceipt(RuntimeGenerationUnavailable);
    }

    method ProviderAuthorityForDocument(q: Query, st: Status, now: real) returns (authority: Option<Authority>)
      modifies this
      ensures var out := ProviderAuthority(canon, old(View()), q, st, now);
              Settled(out, View()) && authority == out.result
      ensures authority.Some? <==>
                Outcomes.Serving(old(View()), st) && old(runtime) == st.runtime &&
                Outcomes.Asked(canon, old(View()), q) && Outcomes.Vouched(old(documents)[q.documentId], st)
      ensures authority.Some? ==>
                var doc, a := old(documents)[q.documentId], authority.value;
                a.origin == q.origin && a.navigationGeneration == doc.sequence && a.documentId == q.documentId &&
                a.namespace == doc.receipt.value.namespace && a.network == doc.receipt.value.network &&
                a.runtime == doc.receipt.value.runtime && a.fingerprint == doc.receipt.value.fingerprint
    {
      hide AuthorityIn, Outcomes.Serving;
      Outcomes.AuthorityIsGiven(canon, View(), q, st, now);
      var ensured := EnsureRuntime(st, now);
      if !ensured || !st.active || !st.proxyActive || maintenancePending {
        return None;
      }
      return AuthorityIn(canon, View(), q, now);
    }

    method TakeSnapshot() returns (snapshot: Snapshot)
      ensures IsSnapshotOf(snapshot, View())
    {
      hide Enumerates;
      var tabEntries := TabEntries();
      var documentEntries := Entries(documents);
      var urlEntries := Entries(urlReceipts);
      return Snapshot(runtime, maintenanceEpoch, maintenancePending, sequence, lastNativeEventSequence, tabEntries,
                      documentEntries, urlEntries);
    }

    method TabEntries() returns (keyed: seq<(int, Tab)>)
      ensures |keyed| == |tabs|
      ensures forall i :: 0 <= i < |keyed| ==> 0 <= keyed[i].0 && keyed[i].0 in tabs && tabs[keyed[i].0] == keyed[i].1
      ensures forall k :: k in tabs ==> exists i :: 0 <= i < |keyed| && keyed[i].0 == k
    {
      var entries := Entries(tabs);
      keyed := seq(|entries|, i requires 0 <= i < |entries| => (entries[i].0 as int, entries[i].1));
      assert forall i :: 0 <= i < |keyed| ==> keyed[i].0 == entries[i].0 && keyed[i].1 == entries[i].1;
      forall k | k in tabs ensures exists i :: 0 <= i < |keyed| && keyed[i].0 == k {
        var i :| 0 <= i < |entries| && entries[i].0 == k;
        assert keyed[i].0 == k;
      }
    }

    // ---- pruning ----

    method PrunePending()
      modifies this`pending
      ensures PendingPruned(old(View()), View())
    {
      pending := PruneObject(pending, MAX_PENDING_REQUESTS, {}, PendingRank);
    }

    method Prune()
      modifies this
      ensures Pruned(old(View()), View())
    {
      hide Evicted, ActiveDocuments;
      var active := ActiveDocuments(tabs);
      documents := PruneObject(documents, MAX_DOCUMENTS, active, DocumentRank);
      urlReceipts := PruneObject(urlReceipts, MAX_URL_RECEIPTS, {}, UrlRank);
      tabs := PruneObject(tabs, MAX_TABS, {}, TabRank);
      PrunePending();
    }

    // ---- snapshot and restore ----

    method Restore(snapshot: Snapshot, now: real)
      requires View() == EMPTY
      modifies this
      ensures Settled(Spec.Restore(canon, snapshot, now), View())
    {
      hide Spec.RestoreDocuments, Spec.RestoreUrlReceipts, Spec.RestoreTabs, Pruned;
      if snapshot.NoSnapshot? || RuntimeTuple(snapshot.runtime).None? || ValidEpoch(Some(snapshot.epoch)).None? {
        return;
      }
      runtime, maintenanceEpoch, maintenancePending := snapshot.runtime, snapshot.epoch, snapshot.maintenancePending;
      sequence, lastNativeEventSequence := ValidSequence(snapshot.sequence), ValidSequence(snapshot.floor);
      RestoreDocuments(FirstEntries(snapshot.documents, MAX_DOCUMENTS), now);
      RestoreUrlReceipts(FirstEntries(snapshot.urlReceipts, MAX_URL_RECEIPTS), now);
      RestoreTabs(FirstEntries(snapshot.tabs, MAX_TABS));
      Prune();
    }

    method RestoreDocuments(entries: seq<(string, Document)>, now: real)
      modifies this`documents, this`lastNativeEventSequence
      ensures View() == Spec.RestoreDocuments(canon, old(View()), entries, now)
    {
      ghost var s := View();
      for i := 0 to |entries|
        invariant View() == Spec.RestoreDocuments(canon, s, entries[..i], now)
        invariant runtime == s.runtime && maintenanceEpoch == s.epoch
      {
        assert entries[..i + 1][..i] == entries[..i];
        var doc := RestoredDocument(canon, entries[i].0, entries[i].1, runtime, now);
        if doc.Some? && doc.value.receiptEpoch.value <= maintenanceEpoch {
          documents := documents[entries[i].0 := doc.value];
          lastNativeEventSequence :=
            MaxInt(lastNativeEventSequence, EventSequence(doc.value.receipt, doc.value.connect));
        }
      }
      assert entries[..|entries|] == entries;
    }

    method RestoreUrlReceipts(entries: seq<(string, UrlReceipt)>, now: real)
      modifies this`urlReceipts, this`lastNativeEventSequence
      ensures View() == Spec.RestoreUrlReceipts(canon, old(View()), entries, now)
    {
      ghost var s := View();
      for i := 0 to |entries|
        invariant View() == Spec.RestoreUrlReceipts(canon, s, entries[..i], now)
        invariant runtime == s.runtime && maintenanceEpoch == s.epoch
      {
        assert entries[..i + 1][..i] == entries[..i];
        var u := RestoredUrlReceipt(canon, entries[i].0, entries[i].1, runtime, now);
        if u.Some? && u.value.completion.epoch.value <= maintenanceEpoch {
          urlReceipts := urlReceipts[entries[i].0 := u.value];
          lastNativeEventSequence :=
            MaxInt(lastNativeEventSequence, EventSequence(u.value.completion.receipt, u.value.completion.connect));
        }
      }
      assert entries[..|entries|] == entries;
    }

    method RestoreTabs(entries: seq<(int, Tab)>)
      modifies this`tabs
      ensures View() == Spec.RestoreTabs(old(View()), entries)
    {
      ghost var s := View();
      for i := 0 to |entries|
        invariant View() == Spec.RestoreTabs(s, entries[..i])
        invariant documents == s.documents
      {
        assert entries[..i + 1][..i] == entries[..i];
        var (key, candidate) := entries[i];
        if ValidTabId(key).Some? && candidate.documentId.Some? && BoundedIdentifier(candidate.documentId.value).Some? &&
           candidate.documentId.value in documents {
          tabs := tabs[key := Tab(candidate.documentId, Some(documents[candidate.documentId.value].target.url), None,
                                  ValidSequence(candidate.sequence))];
        }
      }
      assert entries[..|entries|] == entries;
    }
  }
}
