/** What pruning guarantees over runs: every object stays within its limit, and no document that a tab
    points to is ever evicted. */
module NavigationPruning {
  import opened Basics
  import opened NavigationReceipts
  import opened NavigationRuns

  ghost predicate Bounded(s: Store) {
    |s.documents| <= MAX_DOCUMENTS && |s.urlReceipts| <= MAX_URL_RECEIPTS && |s.tabs| <= MAX_TABS &&
    |s.pending| <= MAX_PENDING_REQUESTS
  }

  // ---- sizes ----

  lemma SubsetSize<K>(small: set<K>, large: set<K>)
    requires small <= large
    ensures |small| <= |large|
    ensures |small| == |large| ==> small == large
  {
    assert large == small + (large - small);
  }

  lemma PartSize<K, V>(part: map<K, V>, whole: map<K, V>)
    requires part.Keys <= whole.Keys
    ensures |part| <= |whole|
  {
    SubsetSize(part.Keys, whole.Keys);
  }

  lemma UpdateSize<K, V>(m: map<K, V>, k: K, v: V)
    ensures |m[k := v]| <= |m| + 1
    ensures k in m ==> |m[k := v]| == |m|
  {
    assert m[k := v].Keys == m.Keys + {k};
    if k in m { assert m.Keys + {k} == m.Keys; }
  }

  lemma {:induction false} ActiveSize(tabs: map<nat, Tab>)
    ensures |ActiveDocuments(tabs)| <= |tabs|
    decreases |tabs|
  {
    if k :| k in tabs {
      var rest := tabs - {k};
      assert rest.Keys == tabs.Keys - {k};
      ActiveSize(rest);
      var own := if tabs[k].documentId.Some? then {tabs[k].documentId.value} else {};
      forall id | id in ActiveDocuments(tabs) ensures id in ActiveDocuments(rest) + own {
        var j :| j in tabs && tabs[j].documentId == Some(id);
        assert j == k || j in rest;
      }
      SubsetSize(ActiveDocuments(tabs), ActiveDocuments(rest) + own);
    } else {
      assert ActiveDocuments(tabs) == {};
    }
  }

  // ---- the protected survive ----

  /** With no more protected keys than the limit, none of them is evicted. */
  lemma ProtectedSurvive<K, V>(before: map<K, V>, after: map<K, V>, limit: nat, protected: set<K>, rank: V -> int, e: K)
    requires Evicted(before, after, limit, protected, rank)
    requires |protected| <= limit && e in protected && e in before
    ensures e in after
  {
    if e !in after {
      PartSize(after, before);
      if |after| == |before| {
        SubsetSize(after.Keys, before.Keys);
        assert false;
      } else {
        assert after.Keys <= protected - {e};
        SubsetSize(after.Keys, protected - {e});
      }
    }
  }

  lemma ActiveSurvive(before: Store, after: Store, tab: nat)
    requires Pruned(before, after) && |before.tabs| <= MAX_TABS + 1 && tab in before.tabs
    requires before.tabs[tab].documentId.Some? && before.tabs[tab].documentId.value in before.documents
    ensures before.tabs[tab].documentId.value in after.documents
  {
    ActiveSize(before.tabs);
    ProtectedSurvive(before.documents, after.documents, MAX_DOCUMENTS, ActiveDocuments(before.tabs), DocumentRank,
                     before.tabs[tab].documentId.value);
  }

  // ---- sizes before an operation prunes ----

  /** What an operation leaves before it prunes: at most one tab over the limit when everything is then
      pruned, and nothing over the limit that is not pruned. */
  ghost predicate Roomy<R>(out: Out<R>) {
    match out.pruning
    case NoPruning => Bounded(out.store)
    case PendingOnly => Bounded(out.store.(pending := map[]))
    case Everything => |out.store.tabs| <= MAX_TABS + 1
  }

  lemma EnsureRoomy(s: Store, st: Status, now: real)
    requires Bounded(s)
    ensures Bounded(EnsureRuntime(s, st, now).store)
  {
    hide EnsureRuntime;
    EnsureCases(s, st, now);
  }

  lemma BeginRoomy(canon: Canon, s: Store, d: Details, st: Status, now: real)
    requires Bounded(s)
    ensures Roomy(Begin(canon, s, d, st, now))
  {
    hide EnsureRuntime, MarkHostConflicts;
    EnsureRoomy(s, st, now);
    var s1 := EnsureRuntime(s, st, now).store;
    if d.requestId in s1.pending {
      var after := Begin(canon, s, d, st, now).store;
      assert after.pending.Keys == s1.pending.Keys;
      PartSize(after.pending, s1.pending);
    }
  }

  lemma RequestsRoomy(canon: Canon, s: Store, d: Details)
    requires Bounded(s)
    ensures Roomy(Redirect(canon, s, d)) && Roomy(FailRequest(s, d))
  {
    hide MarkHostConflicts;
    PartSize(Redirect(canon, s, d).store.pending, s.pending);
    PartSize(FailRequest(s, d).store.pending, s.pending);
  }

  lemma FailNavigationRoomy(canon: Canon, s: Store, d: Details)
    requires Bounded(s)
    ensures Roomy(FailNavigation(canon, s, d))
  {
    hide NextSequence;
    if ValidTabId(d.tabId).Some? {
      UpdateSize(s.tabs, d.tabId, Tab(None, None, None, 0));
      PartSize(FailNavigation(canon, s, d).store.tabs, s.tabs[d.tabId := Tab(None, None, None, 0)]);
    }
  }

  lemma CommitRoomy(canon: Canon, s: Store, d: Details, reason: Reason, pick: Option<string>, now: real)
    requires Bounded(s) && (pick.Some? ==> pick.value in s.pending)
    ensures Roomy(Commit(canon, s, d, reason, pick, now))
  {
    hide Commit;
    CommitPrunes(canon, s, d, reason, pick, now);
    CommitShape(canon, s, d, reason, pick, now);
    if ValidTabId(d.tabId).Some? {
      UpdateSize(s.tabs, d.tabId, Tab(None, None, None, 0));
      assert s.tabs[d.tabId := Tab(None, None, None, 0)].Keys == s.tabs.Keys + {d.tabId};
      PartSize(Commit(canon, s, d, reason, pick, now).store.tabs, s.tabs[d.tabId := Tab(None, None, None, 0)]);
    }
  }

  lemma CommitPrunes(canon: Canon, s: Store, d: Details, reason: Reason, pick: Option<string>, now: real)
    requires pick.Some? ==> pick.value in s.pending
    ensures var out := Commit(canon, s, d, reason, pick, now);
            out.pruning.Everything? || out == Out(s, false, NoPruning)
  {
    hide Recommit, CommitNew, WithoutDocument;
  }

  lemma EvidenceTabs(s: Store, p: Pending, d: Details, st: Status, now: real)
    ensures var r := Evidence(s, p, d, st, now).store; r.tabs == s.tabs || r.tabs == map[]
  {
    hide EnsureRuntime, NetworkEvidence, CachedEvidence;
    EnsureCases(s, st, now);
  }

  lemma CompleteRoomy(canon: Canon, s: Store, d: Details, st: Status, now: real)
    requires Bounded(s)
    ensures Roomy(Complete(canon, s, d, st, now))
  {
    hide Evidence, Concluded;
    PartSize(s.pending - {d.requestId}, s.pending);
    var id, target := BoundedIdentifier(d.requestId), canon(d.url);
    if id.Some? && id.value in s.pending && target.Some? {
      var p := Completing(s.pending[id.value], target.value, d);
      var s1 := s.(pending := s.pending[id.value := p]);
      EvidenceTabs(s1, p, d, st, now);
      var r := Evidence(s1, p, d, st, now);
      ConcludedTabs(r.store, id.value, p, r.completion, now);
    }
  }

  lemma ConcludedTabs(s: Store, id: string, p: Pending, c: Completion, now: real)
    ensures Concluded(s, id, p, c, now).tabs == s.tabs
  {
    hide Bound, NextSequence;
  }

  lemma TabsRoomy(s: Store, tabId: int, otherId: int)
    requires Bounded(s)
    ensures Roomy(RemoveTab(s, tabId))
    ensures Roomy(ReplaceTab(s, tabId, otherId))
  {
    RemoveRoomy(s, tabId);
    ReplaceRoomy(s, tabId, otherId);
  }

  lemma RemoveRoomy(s: Store, tabId: int)
    requires Bounded(s)
    ensures Roomy(RemoveTab(s, tabId))
  {
    var r := RemoveTab(s, tabId).store;
    PartSize(r.tabs, s.tabs);
    PartSize(r.documents, s.documents);
    PartSize(r.pending, s.pending);
  }

  lemma ReplaceParts(s: Store, addedId: int, removedId: int)
    ensures var r := ReplaceTab(s, addedId, removedId).store;
            r.pending.Keys == s.pending.Keys && r.documents.Keys == s.documents.Keys && r.urlReceipts == s.urlReceipts
  {
    hide NextSequence;
  }

  lemma ReplacedTabs(s: Store, addedId: int, removedId: int)
    ensures |ReplaceTab(s, addedId, removedId).store.tabs| <= |s.tabs|
  {
    hide NextSequence;
    var r := ReplaceTab(s, addedId, removedId).store;
    var added, removed := ValidTabId(addedId), ValidTabId(removedId);
    if added.Some? && removed.Some? && removed.value in s.tabs {
      var rest := s.tabs - {removed.value};
      assert rest.Keys == s.tabs.Keys - {removed.value};
      UpdateSize(rest, added.value, r.tabs[added.value]);
      assert r.tabs == rest[added.value := r.tabs[added.value]];
    }
  }

  lemma ReplaceRoomy(s: Store, addedId: int, removedId: int)
    requires Bounded(s)
    ensures Roomy(ReplaceTab(s, addedId, removedId))
  {
    assert ReplaceTab(s, addedId, removedId).pruning.NoPruning?;
    hide ReplaceTab;
    var r := ReplaceTab(s, addedId, removedId).store;
    ReplaceParts(s, addedId, removedId);
    ReplacedTabs(s, addedId, removedId);
    PartSize(r.pending, s.pending);
    PartSize(r.documents, s.documents);
  }

  lemma MaintenanceRoomy(s: Store, st: Status, seconds: int, now: real)
    requires Bounded(s)
    ensures Roomy(BeginMaintenance(s, st, now)) && Roomy(CompleteMaintenance(s, st, seconds, now))
    ensures Roomy(EnsureRuntime(s, st, now))
  {
    EnsureRoomy(s, st, now);
    assert EnsureRuntime(s, st, now).pruning.NoPruning?;
    hide EnsureRuntime;
  }

  lemma {:induction false} RestoredTabsSize(s: Store, entries: seq<(int, Tab)>)
    requires s.tabs == map[]
    ensures |RestoreTabs(s, entries).tabs| <= |entries|
  {
    if entries != [] {
      var n := |entries| - 1;
      RestoredTabsSize(s, entries[..n]);
      var before, after := RestoreTabs(s, entries[..n]), RestoreTabs(s, entries);
      if after != before {
        UpdateSize(before.tabs, entries[n].0, after.tabs[entries[n].0]);
      }
    }
  }

  lemma RestoreRoomy(canon: Canon, snap: Snapshot, now: real)
    ensures Roomy(Restore(canon, snap, now))
  {
    if snap.Snapshot? {
      var s0 := Store(snap.runtime, snap.epoch, snap.maintenancePending, ValidSequence(snap.sequence),
                      ValidSequence(snap.floor), map[], map[], map[], map[]);
      var docs := FirstEntries(snap.documents, MAX_DOCUMENTS);
      RestoreDocumentsKeeps(canon, s0, docs, now);
      var s1 := RestoreDocuments(canon, s0, docs, now);
      var urls := FirstEntries(snap.urlReceipts, MAX_URL_RECEIPTS);
      RestoreUrlReceiptsKeeps(canon, s1, urls, now);
      RestoredTabsSize(RestoreUrlReceipts(canon, s1, urls, now), FirstEntries(snap.tabs, MAX_TABS));
    }
  }

  lemma EffectRoomy(canon: Canon, s: Store, e: Event, now: real)
    requires Bounded(s) && Enabled(canon, s, e)
    ensures Roomy(Effect(canon, s, e, now))
  {
    hide Bounded, Roomy, Begin, Redirect, FailRequest, Complete, Commit, FailNavigation, RemoveTab, ReplaceTab,
      BeginMaintenance, CompleteMaintenance, EnsureRuntime, Restore, IsSnapshotOf, IsPendingForDocument;
    match e {
      case BeginEvent(d, st) => BeginRoomy(canon, s, d, st, now);
      case RedirectEvent(d) => RequestsRoomy(canon, s, d);
      case CommitEvent(d, reason, pick) => CommitRoomy(canon, s, d, reason, pick, now);
      case CompleteEvent(d, st) => CompleteRoomy(canon, s, d, st, now);
      case FailRequestEvent(d) => RequestsRoomy(canon, s, d);
      case FailNavigationEvent(d) => FailNavigationRoomy(canon, s, d);
      case BeginMaintenanceEvent(st) => MaintenanceRoomy(s, st, 0, now);
      case CompleteMaintenanceEvent(st, seconds) => MaintenanceRoomy(s, st, seconds, now);
      case RemoveTabEvent(tabId) => TabsRoomy(s, tabId, 0);
      case ReplaceTabEvent(addedId, removedId) => TabsRoomy(s, addedId, removedId);
      case QueryEvent(st) => MaintenanceRoomy(s, st, 0, now);
      case RestartEvent(snapshot) => RestoreRoomy(canon, snapshot, now);
    }
  }

  // ---- every run ----

  lemma SettledBounded<R>(out: Out<R>, after: Store)
    requires Roomy(out) && Settled(out, after)
    ensures Bounded(after)
  {
  }

  lemma {:induction false} RunStaysBounded(canon: Canon, steps: seq<Step>)
    requires IsRun(canon, EMPTY, steps)
    ensures Bounded(Last(EMPTY, steps))
  {
    hide Effect, Enabled, Settled, Bounded, Roomy;
    if steps == [] {
      EmptyBounded();
    } else {
      var n := |steps| - 1;
      RunStaysBounded(canon, steps[..n]);
      EffectRoomy(canon, Last(EMPTY, steps[..n]), steps[n].event, steps[n].now);
      SettledBounded(Effect(canon, Last(EMPTY, steps[..n]), steps[n].event, steps[n].now), steps[n].after);
    }
  }

  lemma EmptyBounded()
    ensures Bounded(EMPTY)
  {
  }

  /** In every run, pruning never takes a document from a tab that points to it. */
  lemma ActiveDocumentsAreNotEvicted(canon: Canon, steps: seq<Step>, e: Event, now: real, after: Store, tab: nat)
    requires IsRun(canon, EMPTY, steps) && Next(canon, Last(EMPTY, steps), e, now, after)
    requires var t := Effect(canon, Last(EMPTY, steps), e, now).store;
             tab in t.tabs && t.tabs[tab].documentId.Some? && t.tabs[tab].documentId.value in t.documents
    ensures var t := Effect(canon, Last(EMPTY, steps), e, now).store;
            t.tabs[tab].documentId.value in after.documents
  {
    hide IsRun, Effect, Pruned, PendingPruned;
    var out := Effect(canon, Last(EMPTY, steps), e, now);
    RunStaysBounded(canon, steps);
    EffectRoomy(canon, Last(EMPTY, steps), e, now);
    match out.pruning {
      case NoPruning =>
      case PendingOnly => PendingPrunedKeepsDocuments(out.store, after);
      case Everything => ActiveSurvive(out.store, after, tab);
    }
  }

  lemma PendingPrunedKeepsDocuments(before: Store, after: Store)
    requires PendingPruned(before, after)
    ensures after.documents == before.documents
  {
  }
}
