/** The navigation receipt store over the lifetime of the extension: any calls on the object, in any order and
    with any arguments, and restarts that make a new object from the snapshot of the old one.  Whatever is called,
    the object has been through a run of NavigationRuns, so what is proved about runs holds of the object. */
module NavigationLifetime {
  import opened Basics
  import opened NavigationReceipts
  import opened NavigationRuns
  import opened NavigationReceiptStore
  import NavigationAuthority

  /** The object has been through these steps. */
  ghost predicate HasBeenThrough(store: NavigationReceiptStore, steps: seq<Step>)
    reads store
  {
    IsRun(store.canon, EMPTY, steps) && Last(EMPTY, steps) == store.View()
  }

  lemma OneMore(canon: Canon, steps: seq<Step>, e: Event, now: real, after: Store)
    requires IsRun(canon, EMPTY, steps) && Next(canon, Last(EMPTY, steps), e, now, after)
    ensures var more := steps + [Step(e, now, after)]; IsRun(canon, EMPTY, more) && Last(EMPTY, more) == after
  {
    hide Next;
    assert (steps + [Step(e, now, after)])[..|steps|] == steps;
  }

  /** A call about requests. */
  method CallAboutRequests(store: NavigationReceiptStore, now: real) returns (ghost e: Event)
    modifies store
    ensures Next(store.canon, old(store.View()), e, now, store.View())
  {
    hide Begin, Redirect, Complete, FailRequest, Settled;
    var choice: int, d: Details, st: Status := *, *, *;
    if choice == 0 {
      var _ := store.BeginRequest(d, st, now);
      e := BeginEvent(d, st);
    } else if choice == 1 {
      var _ := store.RedirectRequest(d);
      e := RedirectEvent(d);
    } else if choice == 2 {
      var _ := store.CompleteRequest(d, st, now);
      e := CompleteEvent(d, st);
    } else {
      var _ := store.FailRequest(d);
      e := FailRequestEvent(d);
    }
  }

  /** A call about documents and tabs. */
  method CallAboutTabs(store: NavigationReceiptStore, now: real) returns (ghost e: Event)
    modifies store
    ensures Next(store.canon, old(store.View()), e, now, store.View())
  {
    hide Commit, FailNavigation, RemoveTab, ReplaceTab, Settled, IsPendingForDocument;
    var choice: int, d: Details, reason: Reason, tabId: int, other: int := *, *, *, *, *;
    if choice == 0 {
      ghost var pick;
      var ok;
      ok, pick := store.CommitDocument(d, reason, now);
      e := CommitEvent(d, reason, pick);
    } else if choice == 1 {
      var _ := store.FailNavigation(d);
      e := FailNavigationEvent(d);
    } else if choice == 2 {
      var _ := store.RemoveTab(tabId);
      e := RemoveTabEvent(tabId);
    } else {
      var _ := store.ReplaceTab(tabId, other);
      e := ReplaceTabEvent(tabId, other);
    }
  }

  /** A call about maintenance, or a query. */
  method CallAboutStatus(store: NavigationReceiptStore, now: real) returns (ghost e: Event)
    modifies store
    ensures Next(store.canon, old(store.View()), e, now, store.View())
  {
    hide BeginMaintenance, CompleteMaintenance, EnsureRuntime, TabView, AuthorityIn;
    var choice: int, st: Status, seconds: int, tabId: int, q: Query := *, *, *, *, *;
    if choice == 0 {
      var _ := store.BeginMaintenance(st, now);
      e := BeginMaintenanceEvent(st);
    } else if choice == 1 {
      var _ := store.CompleteMaintenance(st, seconds, now);
      e := CompleteMaintenanceEvent(st, seconds);
    } else if choice == 2 {
      NavigationAuthority.QueryNext(store.canon, store.View(), st, now);
      var _ := store.ReceiptForTab(tabId, st, now);
      e := QueryEvent(st);
    } else {
      NavigationAuthority.QueryNext(store.canon, store.View(), st, now);
      var _ := store.ProviderAuthorityForDocument(q, st, now);
      e := QueryEvent(st);
    }
  }

  /** The service worker restarts: a new object from the old one's snapshot. */
  method Restart(store: NavigationReceiptStore, now: real) returns (after: NavigationReceiptStore, ghost e: Event)
    ensures fresh(after) && after.canon == store.canon
    ensures Next(store.canon, store.View(), e, now, after.View())
  {
    hide Restore, Settled, IsSnapshotOf;
    var snapshot := store.TakeSnapshot();
    after := new NavigationReceiptStore(store.canon, snapshot, now);
    e := RestartEvent(snapshot);
  }

  /** Any call, or a restart. */
  method AnyCall(store: NavigationReceiptStore, ghost steps: seq<Step>)
    returns (after: NavigationReceiptStore, ghost more: seq<Step>)
    requires HasBeenThrough(store, steps)
    modifies store
    ensures (after == store || fresh(after)) && after.canon == store.canon
    ensures HasBeenThrough(after, more) && |more| == |steps| + 1 && more[..|steps|] == steps
  {
    hide IsRun, Next;
    var choice: int, now: real := *, *;
    ghost var e;
    after := store;
    if choice == 0 {
      e := CallAboutRequests(store, now);
    } else if choice == 1 {
      e := CallAboutTabs(store, now);
    } else if choice == 2 {
      e := CallAboutStatus(store, now);
    } else {
      after, e := Restart(store, now);
    }
    OneMore(store.canon, steps, e, now, after.View());
    more := steps + [Step(e, now, after.View())];
  }

  /** However many calls are made, the object has been through a run. */
  method Lifetime(canon: Canon, calls: nat) returns (store: NavigationReceiptStore, ghost steps: seq<Step>)
    ensures fresh(store) && store.canon == canon && |steps| == calls && HasBeenThrough(store, steps)
  {
    var now: real := *;
    store := new NavigationReceiptStore(canon, NoSnapshot, now);
    steps := [];
    assert HasBeenThrough(store, steps);
    for i := 0 to calls
      invariant fresh(store) && store.canon == canon && |steps| == i && HasBeenThrough(store, steps)
    {
      store, steps := AnyCall(store, steps);
    }
  }

  /** At the end of a lifetime, authority is given for evidence of the current runtime and epoch only. */
  method LifetimeThenAsk(canon: Canon, calls: nat, q: Query, st: Status, now: real)
    returns (store: NavigationReceiptStore, ghost steps: seq<Step>, authority: Option<Authority>)
    ensures |steps| == calls && IsRun(canon, EMPTY, steps) && store.canon == canon
    ensures var out := ProviderAuthority(canon, Last(EMPTY, steps), q, st, now);
            store.View() == out.store && authority == out.result
    ensures authority.Some? ==>
              !store.maintenancePending && st.active && st.proxyActive &&
              NavigationAuthority.Concerns(authority.value, q, store.View()) &&
              exists e :: e in NavigationAuthority.LedgerOf(canon, steps).entries &&
                NavigationAuthority.Vouches(e, store.documents[authority.value.documentId], authority.value, st)
  {
    hide IsRun, EnsureRuntime, AuthorityIn, NavigationAuthority.LedgerOf, NavigationAuthority.Vouches;
    store, steps := Lifetime(canon, calls);
    authority := store.ProviderAuthorityForDocument(q, st, now);
    if authority.Some? {
      NavigationAuthority.AuthorityIsNeverStale(canon, steps, q, st, now);
    }
  }
}
