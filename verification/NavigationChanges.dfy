/** What the operations of extension/src/navigation-receipts.js change, on the fields of the store and the event: how
    requests begin and are redirected, what a commit leaves of a document, what pruning keeps, when maintenance ends,
      and
    what a restart takes back from any snapshot. */
module NavigationChanges {
  import opened Basics
  import opened NavigationReceipts
  import opened NavigationOutcomes

  // ---- requests ----

  ghost predicate Begins(canon: Canon, s: Store, d: Details, st: Status) {
    (Replaces(s, st) || (Follows(s, st) && !s.maintenancePending)) && AcceptedIdentifier(d.requestId) &&
    AcceptedTab(d.tabId) && canon(d.url).Some? && d.mainFrameType
  }

  /** Retargeted or new, request id is to `host`: it and the others of its epoch and that host are ambiguous, if there
      are such others, and nothing else about any request changes. */
  ghost predicate Marked(before: map<string, Pending>, after: map<string, Pending>, id: string, host: string)
    requires id in before
  {
    after.Keys == before.Keys &&
    forall k :: k in before ==>
      after[k] == before[k].(ambiguous := after[k].ambiguous) &&
      (after[k].ambiguous <==>
        before[k].ambiguous ||
        if k == id then exists j :: j in before && Rivals(before, id, host, j) else Rivals(before, id, host, k))
  }

  ghost predicate Rivals(pending: map<string, Pending>, id: string, host: string, k: string)
    requires id in pending && k in pending
  {
    k != id && pending[k].epoch == pending[id].epoch && pending[k].target.host == host
  }

  lemma ConflictsAreMarked(pending: map<string, Pending>, id: string, host: string)
    requires id in pending
    ensures Marked(pending, MarkHostConflicts(pending, id, host), id, host)
  {
    assert forall k :: k in pending ==> (Conflicts(pending, id, host, k) <==> Rivals(pending, id, host, k));
  }

  /** A main-frame request begins exactly under a followed status without maintenance.  A new one records the floor and
      the epoch of its beginning; a known one only gets its new target and method.  Rivals are ambiguous from now on. */
  lemma RequestBegins(canon: Canon, s: Store, d: Details, st: Status, now: real)
    ensures var r := Begin(canon, s, d, st, now);
            var seen := EnsureRuntime(s, st, now).store;
            (r.result <==> Begins(canon, s, d, st)) &&
            if !r.result then r.store == seen
            else
              var id, target := d.requestId, canon(d.url).value;
              var named := if AcceptedIdentifier(d.documentId) then Some(d.documentId) else None;
              r.store == seen.(sequence := r.store.sequence, pending := r.store.pending) &&
              if id in seen.pending then
                var known := seen.pending[id];
                r.store.sequence == seen.sequence &&
                Marked(seen.pending[id := known.(target := target, verb := d.verb, documentId :=
                         if known.documentId.Some? then known.documentId else named)], r.store.pending, id, target.host)
              else
                var startedAt := if d.timeStamp.Some? && 1577836800000.0 <= d.timeStamp.value <= now + 300000.0
                                 then d.timeStamp else None;
                Marked(seen.pending[id := Pending(d.tabId, named, target, d.verb, startedAt, seen.floor, st.epoch.value,
                                                  false, None, r.store.sequence)], r.store.pending, id, target.host)
  {
    hide NoteNativeEvent, EnsureRuntime, MarkHostConflicts, Marked;
    Ensured(s, st, now);
    if Begins(canon, s, d, st) {
      var seen := EnsureRuntime(s, st, now).store;
      var id, target := d.requestId, canon(d.url).value;
      var named := if AcceptedIdentifier(d.documentId) then Some(d.documentId) else None;
      if id in seen.pending {
        var known := seen.pending[id];
        ConflictsAreMarked(seen.pending[id := known.(target := target, verb := d.verb,
                             documentId := known.documentId.OrElse(named))], id, target.host);
      } else {
        ConflictsAreMarked(
          seen.pending[id := Pending(d.tabId, named, target, d.verb, ValidBrowserTimestamp(d.timeStamp, now),
            seen.floor,
                                     seen.epoch, false, None, NextSequence(seen).sequence)], id, target.host);
      }
    }
  }

  /** A redirect moves a pending request to the new target; its method, floor, epoch and start stay. */
  lemma RequestIsRedirected(canon: Canon, s: Store, d: Details)
    ensures var r := Redirect(canon, s, d);
            (r.result <==> AcceptedIdentifier(d.requestId) && d.requestId in s.pending && canon(d.redirectUrl).Some?) &&
            r.store == s.(pending := r.store.pending) &&
            if !r.result then r.store.pending == s.pending
            else
              var id, target, known := d.requestId, canon(d.redirectUrl).value, s.pending[d.requestId];
              var named := if AcceptedIdentifier(d.documentId) then Some(d.documentId) else None;
              Marked(s.pending[id := known.(target := target, documentId :=
                       if known.documentId.Some? then known.documentId else named)], r.store.pending, id, target.host)
  {
    hide MarkHostConflicts, Marked;
    if AcceptedIdentifier(d.requestId) && d.requestId in s.pending && canon(d.redirectUrl).Some? {
      var id, target, known := d.requestId, canon(d.redirectUrl).value, s.pending[d.requestId];
      ConflictsAreMarked(s.pending[id := known.(target := target,
                           documentId := known.documentId.OrElse(BoundedIdentifier(d.documentId)))], id, target.host);
    }
  }

  // ---- documents ----

  /** A tab commits a document. */
  ghost predicate Commits(canon: Canon, d: Details) {
    AcceptedTab(d.tabId) && d.lifecycleActive && AcceptedIdentifier(d.documentId) && canon(d.url).Some? &&
      d.frameId == 0
  }

  lemma KnownDocumentIsCommitted(s: Store, id: string, target: Target, tab: nat, forwardBack: bool)
    requires id in s.documents
    ensures var r := Recommit(s, id, target, tab, forwardBack);
            var known, doc := s.documents[id], r.documents[id];
            r == s.(sequence := r.sequence, tabs := r.tabs, documents := s.documents[id := doc]) &&
            r.tabs == s.tabs[tab := Tab(Some(id), Some(target.url), None, doc.sequence)] &&
            doc.tabId == tab && doc.target == target && doc.sequence == r.sequence &&
            (doc.restored <==> known.restored || forwardBack) &&
            if known.target.origin == target.origin then
              doc.receipt == known.receipt && doc.connect == known.connect && doc.source == known.source &&
              doc.receiptEpoch == known.receiptEpoch && doc.reason == known.reason
            else
              doc.receipt.None? && doc.connect.None? && doc.source.None? && doc.receiptEpoch.None? &&
              doc.reason == Some(HistoryOriginMismatch)
  {
  }

  lemma DocumentWithoutCompletion(
    s: Store, id: string, target: Target, tab: nat, forwardBack: bool, reason: Reason, pick: Option<string>, now: real)
    requires id !in s.documents && (pick.Some? ==> pick.value in s.pending && s.pending[pick.value].completion.None?)
    ensures var r := CommitNew(s, id, target, tab, forwardBack, reason, pick, now);
            var told := if pick.Some? then MainFrameSecurityPending else reason;
            r == s.(sequence := r.sequence, tabs := s.tabs[tab := Tab(Some(id), Some(target.url), None, r.sequence)],
                    documents := s.documents[id :=
                      Document(tab, target, None, None, None, None, forwardBack, Some(told), r.sequence)],
                    pending := if pick.Some?
                               then s.pending[pick.value := s.pending[pick.value].(documentId := Some(id))]
                               else s.pending)
  {
  }

  /** The evidence that was parked with the request is bound to its document as if it had come after the commit. */
  lemma DocumentWithCompletion(
    s: Store, id: string, target: Target, tab: nat, forwardBack: bool, reason: Reason, pick: string, now: real)
    requires id !in s.documents && pick in s.pending && s.pending[pick].completion.Some?
    ensures var r := CommitNew(s, id, target, tab, forwardBack, reason, Some(pick), now);
            tab in r.tabs && id in r.documents &&
            var at := r.tabs[tab].sequence;
            r == s.(sequence := r.sequence, tabs := s.tabs[tab := Tab(Some(id), Some(target.url), None, at)],
                    documents := s.documents[id := r.documents[id]], pending := s.pending - {pick}) &&
            r.documents[id].sequence == r.sequence &&
            BoundTo(Document(tab, target, None, None, None, None, forwardBack, Some(MainFrameSecurityPending), at),
                    r.documents[id], s.pending[pick].completion.value, s.runtime, now)
  {
    hide BoundTo, Bound;
    var s2 := NewDocument(s, id, target, tab, forwardBack, MainFrameSecurityPending);
    BindingIs(s2, s2.documents[id], s.pending[pick].completion.value, NextSequence(s2).sequence, now);
  }

  /** Otherwise an active tab has no document, with the reason; one that is not active is left alone. */
  lemma DocumentIsRefused(canon: Canon, s: Store, d: Details, reason: Reason, pick: Option<string>, now: real)
    requires (pick.Some? ==> pick.value in s.pending) && !Commits(canon, d)
    ensures var r := Commit(canon, s, d, reason, pick, now);
            !r.result &&
            if !AcceptedTab(d.tabId) || !d.lifecycleActive then r.store == s
            else
              var url := if canon(d.url).Some? then Some(canon(d.url).value.url) else None;
              r.store == s.(sequence := r.store.sequence, tabs :=
                              s.tabs[d.tabId := Tab(None, url, Some(UnsupportedMainFrame), r.store.sequence)])
  {
  }

  /** A commit of an active frame 0 gives the tab the document, at its URL, and changes no other tab and no other
      document. */
  lemma DocumentIsCommitted(canon: Canon, s: Store, d: Details, reason: Reason, pick: Option<string>, now: real)
    requires (pick.Some? ==> pick.value in s.pending) && Commits(canon, d)
    ensures var r := Commit(canon, s, d, reason, pick, now);
            r.result && d.tabId in r.store.tabs && d.documentId in r.store.documents &&
            var at := r.store.tabs[d.tabId].sequence;
            r.store == s.(sequence := r.store.sequence, pending := r.store.pending,
                          tabs := s.tabs[d.tabId := Tab(Some(d.documentId), Some(canon(d.url).value.url), None, at)],
                          documents := s.documents[d.documentId := r.store.documents[d.documentId]])
  {
    hide Recommit, CommitNew, BoundTo;
    var target := canon(d.url).value;
    if d.documentId in s.documents {
      KnownDocumentIsCommitted(s, d.documentId, target, d.tabId, d.forwardBack);
    } else if pick.Some? && s.pending[pick.value].completion.Some? {
      DocumentWithCompletion(s, d.documentId, target, d.tabId, d.forwardBack, reason, pick.value, now);
    } else {
      DocumentWithoutCompletion(s, d.documentId, target, d.tabId, d.forwardBack, reason, pick, now);
    }
  }

  /** The request of a new document is of its tab, and was sent for it or for its URL; no such request began later. */
  lemma RequestOfDocument(s: Store, tab: nat, documentId: string, url: string, pick: Option<string>)
    requires IsPendingForDocument(s, tab, documentId, url, pick)
    ensures var fits := (k: string) => k in s.pending && s.pending[k].tabId == tab &&
                          (s.pending[k].documentId == Some(documentId) || s.pending[k].target.url == url);
            if pick.None? then forall k :: k in s.pending ==> !fits(k)
            else fits(pick.value) &&
                 forall k :: k in s.pending && fits(k) ==> s.pending[k].sequence <= s.pending[pick.value].sequence
  {
  }

  // ---- pruning ----

  /** What is left of one kind: as many as the limit allows, those written last. */
  ghost predicate LatestOf<K, V>(before: map<K, V>, after: map<K, V>, limit: nat, sequence: V -> nat) {
    |after| == (if |before| < limit then |before| else limit) &&
    (forall k :: k in after ==> k in before && after[k] == before[k]) &&
    forall e, k :: e in before && e !in after && k in after && k in before ==>
      sequence(before[e]) <= sequence(before[k]) || sequence(before[e]) > MAX_SAFE_INTEGER
  }

  lemma EvictionKeepsTheLatest<K, V>(
    before: map<K, V>, after: map<K, V>, limit: nat, rank: V -> int, sequence: V -> nat)
    requires Evicted(before, after, limit, {}, rank)
    requires forall k :: k in before ==>
               rank(before[k]) == if sequence(before[k]) <= MAX_SAFE_INTEGER then sequence(before[k]) else 0
    ensures LatestOf(before, after, limit, sequence)
  {
  }

  /** Pruning leaves as many as the limits allow: those written last, and documents that a tab points to first. */
  lemma PruningKeepsTheLatest(before: Store, after: Store)
    requires Pruned(before, after)
    ensures LatestOf(before.urlReceipts, after.urlReceipts, 96, (u: UrlReceipt) => u.sequence)
    ensures LatestOf(before.tabs, after.tabs, 64, (t: Tab) => t.sequence)
    ensures LatestOf(before.pending, after.pending, 32, (p: Pending) => p.sequence)
  {
    hide Evicted, LatestOf, ActiveDocuments;
    EvictionKeepsTheLatest(before.urlReceipts, after.urlReceipts, 96, UrlRank, (u: UrlReceipt) => u.sequence);
    EvictionKeepsTheLatest(before.tabs, after.tabs, 64, TabRank, (t: Tab) => t.sequence);
    EvictionKeepsTheLatest(before.pending, after.pending, 32, PendingRank, (p: Pending) => p.sequence);
  }

  ghost predicate Pointed(s: Store, id: string) {
    exists t :: t in s.tabs && s.tabs[t].documentId == Some(id)
  }

  lemma EvictedDocument(
    before: map<string, Document>, after: map<string, Document>, protected: set<string>, e: string, k: string)
    requires Evicted(before, after, MAX_DOCUMENTS, protected, DocumentRank)
    requires e in before && e !in after && k in after
    ensures |after| == 96 && k in before && (e in protected ==> k in protected)
    ensures before[e].sequence <= MAX_SAFE_INTEGER && (e in protected <==> k in protected) ==>
              before[e].sequence <= before[k].sequence
  {
    assert |before| > 96 by {
      if |before| <= 96 {
        assert after.Keys <= before.Keys - {e};
        assert |after.Keys| <= |before.Keys - {e}| by { SmallerSet(after.Keys, before.Keys - {e}); }
      }
    }
  }

  lemma SmallerSet(a: set<string>, b: set<string>)
    requires a <= b
    ensures |a| <= |b|
  {
    assert b == a + (b - a);
  }

  lemma PruningKeepsPointedDocuments(before: Store, after: Store, e: string, k: string)
    requires Pruned(before, after) && e in before.documents && e !in after.documents && k in after.documents
    ensures |after.documents| == 96 && k in before.documents && (Pointed(before, e) ==> Pointed(before, k))
    ensures before.documents[e].sequence <= MAX_SAFE_INTEGER && (Pointed(before, e) <==> Pointed(before, k)) ==>
              before.documents[e].sequence <= before.documents[k].sequence
  {
    hide Evicted;
    assert forall i :: i in ActiveDocuments(before.tabs) <==> Pointed(before, i);
    EvictedDocument(before.documents, after.documents, ActiveDocuments(before.tabs), e, k);
  }

  // ---- maintenance and restarts ----

  /** Maintenance ends exactly when it was pending and the status is followed, active behind the proxy, and has its
      authoritative tree root with evidence that has not expired. */
  lemma MaintenanceEnds(s: Store, st: Status, nowSeconds: int, now: real)
    ensures var r := CompleteMaintenance(s, st, nowSeconds, now);
            (r.result <==>
              s.maintenancePending && 0 <= nowSeconds <= 0x1F_FFFF_FFFF_FFFF && st.active && st.proxyActive &&
              st.treeRootReady && st.blocksUntilTreeRoot == Some(0) && st.evidenceExpired == Some(false) &&
              st.validUntil.Some? && nowSeconds < st.validUntil.value <= 0x1F_FFFF_FFFF_FFFF &&
              (Follows(s, st) || Replaces(s, st))) &&
            (r.result ==> !r.store.maintenancePending && r.store.pending == map[] && Some(r.store.epoch) == st.epoch) &&
            (!r.result ==> r.store == s)
  {
    Ensured(s, st, now);
  }

  /** Evidence that a snapshot may give back to a target. */
  ghost predicate Storable(
    receipt: Option<SecurityResult>, connect: Option<ConnectReceipt>, epoch: Option<int>, source: Option<Source>,
    target: Target, runtime: Option<Runtime>, now: real)
  {
    var response := receipt.Some? && ResponseOf(receipt.value, runtime);
    var decided := connect.Some? && ReceiptOf(connect.value, runtime, epoch, target, now);
    epoch.Some? && AcceptedNumber(epoch.value) && source.Some? &&
    if source.value.RustHttpResponse? || source.value.RustHttpResponseCache?
    then response && !decided && receipt.value.mainFrame && receipt.value.host == target.host
    else decided && !response
  }

  /** Whatever a snapshot holds, a document comes back exactly if its evidence is of the runtime, for its own target,
      and of the kind that its source says. */
  lemma DocumentComesBack(canon: Canon, id: string, doc: Document, runtime: Option<Runtime>, now: real)
    ensures var r := RestoredDocument(canon, id, doc, runtime, now);
            (r.Some? <==>
              AcceptedIdentifier(id) && AcceptedTab(doc.tabId) && canon(doc.target.url).Some? &&
              Storable(doc.receipt, doc.connect, doc.receiptEpoch, doc.source, canon(doc.target.url).value, runtime,
                now)) &&
            (r.Some? ==>
              r.value.tabId == doc.tabId && r.value.target == canon(doc.target.url).value &&
              r.value.receiptEpoch == doc.receiptEpoch && r.value.source == doc.source &&
              r.value.restored == doc.restored && r.value.reason.None? &&
              r.value.sequence == (if doc.sequence <= 0x1F_FFFF_FFFF_FFFF then doc.sequence else 0) &&
              if doc.source.value.RustHttpResponse? || doc.source.value.RustHttpResponseCache?
              then r.value.receipt == doc.receipt && r.value.connect.None?
              else r.value.connect == doc.connect && r.value.receipt.None?)
  {
  }

  lemma UrlReceiptComesBack(canon: Canon, url: string, u: UrlReceipt, runtime: Option<Runtime>, now: real)
    ensures var r, c := RestoredUrlReceipt(canon, url, u, runtime, now), u.completion;
            (r.Some? <==>
              canon(url).Some? && canon(url).value.url == url &&
              Storable(c.receipt, c.connect, c.epoch, c.source, canon(url).value, runtime, now)) &&
            (r.Some? ==>
              r.value.completion.epoch == c.epoch && r.value.completion.source == c.source &&
              if c.source.value.RustHttpResponse? || c.source.value.RustHttpResponseCache?
              then r.value.completion.receipt == c.receipt && r.value.completion.connect.None?
              else r.value.completion.connect == c.connect && r.value.completion.receipt.None?)
  {
  }
}
