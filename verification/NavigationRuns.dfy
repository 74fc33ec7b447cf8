/** Runs of the navigation receipt store: any interleaving of browser events, native status reports,
    header maintenance, queries and worker restarts. */
module NavigationRuns {
  import opened Basics
  import opened NavigationReceipts

  datatype Event =
    | BeginEvent(d: Details, st: Status)
    | RedirectEvent(d: Details)
    | CommitEvent(d: Details, reason: Reason, pick: Option<string>)
    | CompleteEvent(d: Details, st: Status)
    | FailRequestEvent(d: Details)
    | FailNavigationEvent(d: Details)
    | BeginMaintenanceEvent(st: Status)
    | CompleteMaintenanceEvent(st: Status, nowSeconds: int)
    | RemoveTabEvent(tabId: int)
    | ReplaceTabEvent(addedId: int, removedId: int)
    | QueryEvent(st: Status)
    | RestartEvent(snapshot: Snapshot)

  ghost predicate Enabled(canon: Canon, s: Store, e: Event) {
    match e
    case CommitEvent(d, _, pick) =>
      (pick.Some? ==> pick.value in s.pending) &&
      (canon(d.url).Some? ==>
        IsPendingForDocument(s, if d.tabId < 0 then 0 else d.tabId, d.documentId, canon(d.url).value.url, pick))
    case RestartEvent(snapshot) => IsSnapshotOf(snapshot, s)
    case _ => true
  }

  /** A query, receiptForTab or providerAuthorityForDocument, changes the store as ensureRuntime does. */
  ghost function Effect(canon: Canon, s: Store, e: Event, now: real): Out<bool>
    requires Enabled(canon, s, e)
  {
    match e
    case BeginEvent(d, st) => Begin(canon, s, d, st, now)
    case RedirectEvent(d) => Redirect(canon, s, d)
    case CommitEvent(d, reason, pick) => Commit(canon, s, d, reason, pick, now)
    case CompleteEvent(d, st) => Complete(canon, s, d, st, now)
    case FailRequestEvent(d) => FailRequest(s, d)
    case FailNavigationEvent(d) => FailNavigation(canon, s, d)
    case BeginMaintenanceEvent(st) => BeginMaintenance(s, st, now)
    case CompleteMaintenanceEvent(st, seconds) => CompleteMaintenance(s, st, seconds, now)
    case RemoveTabEvent(tabId) => RemoveTab(s, tabId)
    case ReplaceTabEvent(addedId, removedId) => ReplaceTab(s, addedId, removedId)
    case QueryEvent(st) => EnsureRuntime(s, st, now)
    case RestartEvent(snapshot) => Restore(canon, snapshot, now)
  }

  ghost predicate Next(canon: Canon, s: Store, e: Event, now: real, after: Store) {
    Enabled(canon, s, e) && Settled(Effect(canon, s, e, now), after)
  }

  datatype Step = Step(event: Event, now: real, after: Store)

  ghost function Last(s: Store, steps: seq<Step>): Store {
    if steps == [] then s else steps[|steps| - 1].after
  }

  ghost predicate IsRun(canon: Canon, s: Store, steps: seq<Step>) {
    steps == [] ||
    var n := |steps| - 1;
    IsRun(canon, s, steps[..n]) && Next(canon, Last(s, steps[..n]), steps[n].event, steps[n].now, steps[n].after)
  }

  // ---- facts about single operations that several properties use ----

  lemma {:induction false} DecisionsRaiseFloor(
    floor: int, ds: seq<ConnectDecision>, runtime: Option<Runtime>, epoch: int, now: real)
    ensures floor <= NoteDecisions(floor, ds, runtime, epoch, now)
  {
    if ds != [] {
      DecisionsRaiseFloor(floor, ds[..|ds| - 1], runtime, epoch, now);
    }
  }

  /** ensureRuntime either resets the store, or keeps everything but the floor, the epoch and, when the
      epoch advances, the pending requests. */
  lemma EnsureCases(s: Store, st: Status, now: real)
    ensures var r := EnsureRuntime(s, st, now).store;
            r.runtime != s.runtime ||
            (r.floor >= s.floor && r.epoch >= s.epoch && r.documents == s.documents && r.tabs == s.tabs &&
             r.urlReceipts == s.urlReceipts && r.sequence == s.sequence &&
             r.maintenancePending == s.maintenancePending &&
             (if r.epoch == s.epoch then r.pending == s.pending else r.pending == map[]))
    ensures var r := EnsureRuntime(s, st, now).store;
            r.runtime != s.runtime ==>
              r == EMPTY.(runtime := r.runtime, epoch := r.epoch, floor := r.floor) && r.runtime.Some? && r.epoch >= 1
    ensures var r := EnsureRuntime(s, st, now);
            r.result ==> r.store.runtime == RuntimeTuple(st.runtime) && Some(r.store.epoch) == ValidEpoch(st.epoch)
    ensures var r := EnsureRuntime(s, st, now);
            !r.result ==> r.store == s
  {
    hide NoteNativeEvent;
    NoteRaises(s, st, now);
    if ValidEpoch(st.epoch).Some? { NoteRaises(s.(epoch := st.epoch.value, pending := map[]), st, now); }
  }

  lemma NoteRaises(s: Store, st: Status, now: real)
    ensures NoteNativeEvent(s, st, now).floor >= s.floor
  {
    hide CurrentResult;
    var latest := CurrentSecurityResult(st.latest, s.runtime);
    var floor := if latest.Some? then MaxInt(s.floor, latest.value.eventSequence) else s.floor;
    if st.decisions.Some? { DecisionsRaiseFloor(floor, st.decisions.value, s.runtime, s.epoch, now); }
  }

  ghost predicate CommitsTo(s: Store, r: Store, tab: nat) {
    r == s.(sequence := r.sequence, tabs := r.tabs, documents := r.documents, pending := r.pending) &&
    r.sequence <= MAX_SAFE_INTEGER && tab in r.tabs && r.tabs == s.tabs[tab := r.tabs[tab]] &&
    forall k :: k in r.pending ==>
      k in s.pending && r.pending[k] == s.pending[k].(documentId := r.pending[k].documentId)
  }

  lemma RecommitShape(s: Store, id: string, target: Target, tab: nat, forwardBack: bool)
    requires id in s.documents
    ensures CommitsTo(s, Recommit(s, id, target, tab, forwardBack), tab)
  {
    hide NextSequence;
  }

  lemma BindShape(s: Store, id: string, c: Completion, now: real)
    requires id in s.documents
    ensures var r := Bind(s, id, c, now);
            r == s.(sequence := r.sequence, documents := s.documents[id := r.documents[id]]) &&
              r.sequence <= MAX_SAFE_INTEGER
  {
    hide NextSequence, Bound;
  }

  lemma NewDocumentShape(s: Store, id: string, target: Target, tab: nat, forwardBack: bool, reason: Reason)
    ensures var r := NewDocument(s, id, target, tab, forwardBack, reason);
            r == s.(sequence := r.sequence, tabs := s.tabs[tab := r.tabs[tab]],
              documents := s.documents[id := r.documents[id]]) &&
            r.sequence <= MAX_SAFE_INTEGER
    ensures var r := NewDocument(s, id, target, tab, forwardBack, reason); var doc := r.documents[id];
            doc.receipt.None? && doc.connect.None? && doc.receiptEpoch.None? && doc.target == target &&
            doc.tabId == tab &&
            doc.sequence == r.tabs[tab].sequence == r.sequence
  {
    hide NextSequence;
  }

  lemma WithoutDocumentShape(s: Store, target: Option<Target>, tab: nat, reason: Reason)
    ensures var r := WithoutDocument(s, target, tab, reason);
            r == s.(sequence := r.sequence, tabs := s.tabs[tab := r.tabs[tab]]) && r.sequence <= MAX_SAFE_INTEGER &&
            r.tabs[tab].sequence == r.sequence
  {
    hide NextSequence;
  }

  lemma CommitNewShape(
    s: Store, id: string, target: Target, tab: nat, forwardBack: bool, reason: Reason, pick: Option<string>, now: real)
    requires pick.Some? ==> pick.value in s.pending
    ensures CommitsTo(s, CommitNew(s, id, target, tab, forwardBack, reason, pick, now), tab)
  {
    NewDocumentShape(s, id, target, tab, forwardBack, if pick.Some? then MainFrameSecurityPending else reason);
    BoundShape(s, id, target, tab, forwardBack, reason, pick, now);
    hide NewDocument, Bind;
  }

  lemma BoundShape(
    s: Store, id: string, target: Target, tab: nat, forwardBack: bool, reason: Reason, pick: Option<string>, now: real)
    requires pick.Some? ==> pick.value in s.pending
    ensures pick.Some? && s.pending[pick.value].completion.Some? ==>
              var s2 := NewDocument(s, id, target, tab, forwardBack, MainFrameSecurityPending);
              var c := s.pending[pick.value].completion.value;
              var r := Bind(s2, id, c, now);
              r == s2.(sequence := r.sequence, documents := s2.documents[id := r.documents[id]]) &&
                r.sequence <= MAX_SAFE_INTEGER
  {
    hide Bind;
    if pick.Some? && s.pending[pick.value].completion.Some? {
      BindShape(NewDocument(s, id, target, tab, forwardBack, MainFrameSecurityPending), id,
                s.pending[pick.value].completion.value, now);
    }
  }

  /** A commit changes documents, one tab and the document of a request. */
  lemma CommitShape(canon: Canon, s: Store, d: Details, reason: Reason, pick: Option<string>, now: real)
    requires pick.Some? ==> pick.value in s.pending
    ensures var r := Commit(canon, s, d, reason, pick, now).store;
            r == s || (ValidTabId(d.tabId).Some? && CommitsTo(s, r, d.tabId))
  {
    hide Recommit, CommitNew, WithoutDocument;
    var tab, id, target := ValidTabId(d.tabId), BoundedIdentifier(d.documentId), canon(d.url);
    if tab.Some? {
      WithoutDocumentShape(s, target, tab.value, UnsupportedMainFrame);
    }
    if tab.Some? && id.Some? && target.Some? {
      if id.value in s.documents {
        RecommitShape(s, id.value, target.value, tab.value, d.forwardBack);
      } else {
        CommitNewShape(s, id.value, target.value, tab.value, d.forwardBack, reason, pick, now);
      }
    }
  }

  lemma {:induction false} RestoredParts(canon: Canon, snap: Snapshot, now: real)
    ensures var r := Restore(canon, snap, now).store;
            r.pending == map[] &&
            (snap.Snapshot? && RuntimeTuple(snap.runtime).Some? && ValidEpoch(Some(snap.epoch)).Some? ==>
              r.runtime == snap.runtime && r.epoch == snap.epoch && r.maintenancePending == snap.maintenancePending &&
              r.sequence == ValidSequence(snap.sequence) && r.floor >= ValidSequence(snap.floor))
  {
    if snap.Snapshot? {
      var s0 := Store(snap.runtime, snap.epoch, snap.maintenancePending, ValidSequence(snap.sequence),
                      ValidSequence(snap.floor), map[], map[], map[], map[]);
      var docs := FirstEntries(snap.documents, MAX_DOCUMENTS);
      RestoreDocumentsKeeps(canon, s0, docs, now);
      var s1 := RestoreDocuments(canon, s0, docs, now);
      var urls := FirstEntries(snap.urlReceipts, MAX_URL_RECEIPTS);
      RestoreUrlReceiptsKeeps(canon, s1, urls, now);
      RestoreTabsKeeps(RestoreUrlReceipts(canon, s1, urls, now), FirstEntries(snap.tabs, MAX_TABS));
    }
  }

  lemma {:induction false} RestoreDocumentsKeeps(canon: Canon, s: Store, entries: seq<(string, Document)>, now: real)
    ensures var r := RestoreDocuments(canon, s, entries, now);
            r == s.(documents := r.documents, floor := r.floor) && r.floor >= s.floor
  {
    if entries != [] {
      RestoreDocumentsKeeps(canon, s, entries[..|entries| - 1], now);
    }
  }

  lemma {:induction false} RestoreUrlReceiptsKeeps(
    canon: Canon, s: Store, entries: seq<(string, UrlReceipt)>, now: real)
    ensures var r := RestoreUrlReceipts(canon, s, entries, now);
            r == s.(urlReceipts := r.urlReceipts, floor := r.floor) && r.floor >= s.floor
  {
    if entries != [] {
      RestoreUrlReceiptsKeeps(canon, s, entries[..|entries| - 1], now);
    }
  }

  lemma {:induction false} RestoreTabsKeeps(s: Store, entries: seq<(int, Tab)>)
    ensures var r := RestoreTabs(s, entries); r == s.(tabs := r.tabs)
  {
    if entries != [] {
      RestoreTabsKeeps(s, entries[..|entries| - 1]);
    }
  }

  lemma {:induction false} RestoredDocumentsAre(
    canon: Canon, s: Store, entries: seq<(string, Document)>, now: real, k: string)
    requires s.documents == map[] && k in RestoreDocuments(canon, s, entries, now).documents
    ensures var r := RestoreDocuments(canon, s, entries, now).documents[k];
            exists i :: 0 <= i < |entries| && entries[i].0 == k &&
              RestoredDocument(canon, k, entries[i].1, s.runtime, now) == Some(r) && r.receiptEpoch.value <= s.epoch
  {
    var n := |entries| - 1;
    RestoreDocumentsKeeps(canon, s, entries[..n], now);
    var last := RestoredDocument(canon, entries[n].0, entries[n].1, s.runtime, now);
    if entries[n].0 != k || last.None? || last.value.receiptEpoch.value > s.epoch {
      RestoredDocumentsAre(canon, s, entries[..n], now, k);
    }
  }

  lemma {:induction false} RestoredUrlReceiptsAre(
    canon: Canon, s: Store, entries: seq<(string, UrlReceipt)>, now: real, k: string)
    requires s.urlReceipts == map[] && k in RestoreUrlReceipts(canon, s, entries, now).urlReceipts
    ensures var r := RestoreUrlReceipts(canon, s, entries, now).urlReceipts[k];
            exists i :: 0 <= i < |entries| && entries[i].0 == k &&
              RestoredUrlReceipt(canon, k, entries[i].1, s.runtime, now) == Some(r) &&
                r.completion.epoch.value <= s.epoch
  {
    var n := |entries| - 1;
    RestoreUrlReceiptsKeeps(canon, s, entries[..n], now);
    var last := RestoredUrlReceipt(canon, entries[n].0, entries[n].1, s.runtime, now);
    if entries[n].0 != k || last.None? || last.value.completion.epoch.value > s.epoch {
      RestoredUrlReceiptsAre(canon, s, entries[..n], now, k);
    }
  }

  // ---- ranges that every run keeps ----

  /** Counters are safe integers; without a runtime there is no evidence and no request. */
  ghost predicate Sane(s: Store) {
    0 <= s.floor <= MAX_SAFE_INTEGER && s.sequence <= MAX_SAFE_INTEGER &&
    (if s.runtime.Some? then RuntimeTuple(s.runtime).Some? && ValidEpoch(Some(s.epoch)).Some?
     else s.floor == 0 && s.pending == map[] && s.urlReceipts == map[])
  }

  lemma {:induction false} DecisionsStaySafe(
    floor: int, ds: seq<ConnectDecision>, runtime: Option<Runtime>, epoch: int, now: real)
    requires floor <= MAX_SAFE_INTEGER
    ensures NoteDecisions(floor, ds, runtime, epoch, now) <= MAX_SAFE_INTEGER
  {
    if ds != [] {
      DecisionsStaySafe(floor, ds[..|ds| - 1], runtime, epoch, now);
    }
  }

  lemma NoteStaysSafe(s: Store, st: Status, now: real)
    requires 0 <= s.floor <= MAX_SAFE_INTEGER
    ensures 0 <= NoteNativeEvent(s, st, now).floor <= MAX_SAFE_INTEGER
  {
    var latest := CurrentSecurityResult(st.latest, s.runtime);
    var floor := if latest.Some? then MaxInt(s.floor, latest.value.eventSequence) else s.floor;
    if st.decisions.Some? {
      DecisionsStaySafe(floor, st.decisions.value, s.runtime, s.epoch, now);
      DecisionsRaiseFloor(floor, st.decisions.value, s.runtime, s.epoch, now);
    }
  }

  lemma EnsureSane(s: Store, st: Status, now: real)
    requires Sane(s)
    ensures Sane(EnsureRuntime(s, st, now).store)
  {
    hide NoteNativeEvent;
    var runtime, epoch := RuntimeTuple(st.runtime), ValidEpoch(st.epoch);
    if runtime.Some? && epoch.Some? {
      NoteStaysSafe(EMPTY.(runtime := runtime, epoch := epoch.value), st, now);
      NoteStaysSafe(s.(epoch := epoch.value, pending := map[]), st, now);
      NoteStaysSafe(s, st, now);
    }
  }

  lemma EvidenceSane(s: Store, p: Pending, d: Details, st: Status, now: real)
    requires Sane(s)
    ensures Sane(Evidence(s, p, d, st, now).store)
  {
    hide EnsureRuntime, NetworkEvidence, CachedEvidence;
    EnsureSane(s, st, now);
    EnsureCases(s, st, now);
  }

  lemma {:induction false} RestoredFloorsSafe(
    canon: Canon, s: Store, docs: seq<(string, Document)>, urls: seq<(string, UrlReceipt)>, now: real)
    requires s.floor <= MAX_SAFE_INTEGER
    ensures RestoreDocuments(canon, s, docs, now).floor <= MAX_SAFE_INTEGER
    ensures RestoreUrlReceipts(canon, s, urls, now).floor <= MAX_SAFE_INTEGER
    decreases |docs| + |urls|
  {
    if docs != [] {
      RestoredFloorsSafe(canon, s, docs[..|docs| - 1], [], now);
    }
    if urls != [] {
      RestoredFloorsSafe(canon, s, [], urls[..|urls| - 1], now);
    }
  }

  lemma RestoreSane(canon: Canon, snap: Snapshot, now: real)
    ensures Sane(Restore(canon, snap, now).store)
  {
    RestoredParts(canon, snap, now);
    if snap.Snapshot? {
      var s0 := Store(snap.runtime, snap.epoch, snap.maintenancePending, ValidSequence(snap.sequence),
                      ValidSequence(snap.floor), map[], map[], map[], map[]);
      var docs := FirstEntries(snap.documents, MAX_DOCUMENTS);
      RestoredFloorsSafe(canon, s0, docs, [], now);
      var s1 := RestoreDocuments(canon, s0, docs, now);
      var urls := FirstEntries(snap.urlReceipts, MAX_URL_RECEIPTS);
      RestoredFloorsSafe(canon, s1, [], urls, now);
      RestoreTabsKeeps(RestoreUrlReceipts(canon, s1, urls, now), FirstEntries(snap.tabs, MAX_TABS));
    }
  }

  lemma BeginSane(canon: Canon, s: Store, d: Details, st: Status, now: real)
    requires Sane(s)
    ensures Sane(Begin(canon, s, d, st, now).store)
  {
    hide EnsureRuntime, MarkHostConflicts;
    EnsureSane(s, st, now);
    EnsureCases(s, st, now);
    EnsuredRuntime(s, st, now);
  }

  lemma EnsuredRuntime(s: Store, st: Status, now: real)
    ensures EnsureRuntime(s, st, now).result ==> EnsureRuntime(s, st, now).store.runtime.Some?
  {
  }

  lemma RequestsSane(canon: Canon, s: Store, d: Details)
    requires Sane(s)
    ensures Sane(Redirect(canon, s, d).store)
    ensures Sane(FailRequest(s, d).store)
  {
    hide MarkHostConflicts;
  }

  lemma CompleteSane(canon: Canon, s: Store, d: Details, st: Status, now: real)
    requires Sane(s)
    ensures Sane(Complete(canon, s, d, st, now).store)
  {
    hide Evidence, Bound;
    var id, target := BoundedIdentifier(d.requestId), canon(d.url);
    if id.Some? && id.value in s.pending && target.Some? {
      var p := Completing(s.pending[id.value], target.value, d);
      EvidenceSane(s.(pending := s.pending[id.value := p]), p, d, st, now);
    }
  }

  lemma CommitSane(canon: Canon, s: Store, d: Details, reason: Reason, pick: Option<string>, now: real)
    requires Sane(s) && (pick.Some? ==> pick.value in s.pending)
    ensures Sane(Commit(canon, s, d, reason, pick, now).store)
  {
    hide Commit;
    CommitShape(canon, s, d, reason, pick, now);
  }

  lemma FailNavigationSane(canon: Canon, s: Store, d: Details)
    requires Sane(s)
    ensures Sane(FailNavigation(canon, s, d).store)
  {
    assert s.pending == map[] ==> FailNavigation(canon, s, d).store.pending == map[];
  }

  lemma RemoveTabSane(s: Store, tabId: int)
    requires Sane(s)
    ensures Sane(RemoveTab(s, tabId).store)
  {
    assert s.pending == map[] ==> RemoveTab(s, tabId).store.pending == map[];
  }

  lemma ReplaceTabSane(s: Store, tabId: int, otherId: int)
    requires Sane(s)
    ensures Sane(ReplaceTab(s, tabId, otherId).store)
  {
    assert s.pending == map[] ==> ReplaceTab(s, tabId, otherId).store.pending == map[];
  }

  lemma MaintenanceSane(s: Store, st: Status, seconds: int, now: real)
    requires Sane(s)
    ensures Sane(BeginMaintenance(s, st, now).store)
    ensures Sane(CompleteMaintenance(s, st, seconds, now).store)
  {
    hide EnsureRuntime;
    EnsureSane(s, st, now);
    EnsureCases(s, st, now);
  }

  lemma EffectSane(canon: Canon, s: Store, e: Event, now: real)
    requires Sane(s) && Enabled(canon, s, e)
    ensures Sane(Effect(canon, s, e, now).store)
  {
    hide Sane, Begin, Redirect, FailRequest, Complete, Commit, FailNavigation, RemoveTab, ReplaceTab, BeginMaintenance,
      CompleteMaintenance, EnsureRuntime, Restore, IsSnapshotOf, IsPendingForDocument;
    match e {
      case BeginEvent(d, st) => BeginSane(canon, s, d, st, now);
      case RedirectEvent(d) => RequestsSane(canon, s, d);
      case CommitEvent(d, reason, pick) => CommitSane(canon, s, d, reason, pick, now);
      case CompleteEvent(d, st) => CompleteSane(canon, s, d, st, now);
      case FailRequestEvent(d) => RequestsSane(canon, s, d);
      case FailNavigationEvent(d) => FailNavigationSane(canon, s, d);
      case BeginMaintenanceEvent(st) => MaintenanceSane(s, st, 0, now);
      case CompleteMaintenanceEvent(st, seconds) => MaintenanceSane(s, st, seconds, now);
      case RemoveTabEvent(tabId) => RemoveTabSane(s, tabId);
      case ReplaceTabEvent(addedId, removedId) => ReplaceTabSane(s, addedId, removedId);
      case QueryEvent(st) => EnsureSane(s, st, now);
      case RestartEvent(snapshot) => RestoreSane(canon, snapshot, now);
    }
  }

  lemma SettledSane<R>(out: Out<R>, after: Store)
    requires Sane(out.store) && Settled(out, after)
    ensures Sane(after)
  {
  }

  lemma StepSane(canon: Canon, s: Store, e: Event, now: real, after: Store)
    requires Sane(s) && Next(canon, s, e, now, after)
    ensures Sane(after)
  {
    hide Effect, Sane, Settled;
    EffectSane(canon, s, e, now);
    SettledSane(Effect(canon, s, e, now), after);
  }

  lemma {:induction false} RunSane(canon: Canon, steps: seq<Step>)
    requires IsRun(canon, EMPTY, steps)
    ensures Sane(Last(EMPTY, steps))
  {
    hide Next;
    if steps != [] {
      var n := |steps| - 1;
      RunSane(canon, steps[..n]);
      StepSane(canon, Last(EMPTY, steps[..n]), steps[n].event, steps[n].now, steps[n].after);
    }
  }
}
