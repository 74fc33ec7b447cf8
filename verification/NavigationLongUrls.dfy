/** What NavigationSnapshot says a restart loses is really lost: a run after which a tab shows a receipt, and
    after a restart none.  Its URL is within the limit as the browser reports it and above it once
    percent-encoded. */
module NavigationLongUrls {
  import opened Basics
  import opened NavigationReceipts
  import opened NavigationRuns
  import opened NavigationPruning
  import opened NavigationSnapshot
  import R = NavigationRedirects

  // ---- the stores in turn ----

  function Request(t: Target): Pending {
    Pending(1, Some("d"), t, Get, None, 0, 1, false, None, 1)
  }

  function Begun(t: Target): Store {
    EMPTY.(runtime := Some(R.RUNTIME), epoch := 1, sequence := 1, pending := map["r" := Request(t)])
  }

  function Shown(t: Target): Document {
    Document(1, t, None, None, None, None, false, Some(MainFrameSecurityPending), 2)
  }

  function Committed(t: Target): Store {
    Begun(t).(sequence := 2, documents := map["d" := Shown(t)], tabs := map[1 := Tab(Some("d"), Some(t.url), None, 2)])
  }

  function Completed(t: Target): Store {
    Committed(t).(
      sequence := 4, floor := 5, urlReceipts := map[t.url := UrlReceipt(R.BOUND, 3)], pending := map[],
      documents := map["d" := Shown(t).(receipt := Some(R.RESPONSE), receiptEpoch := Some(1),
        source := Some(RustHttpResponse),
                                        reason := None, sequence := 4)])
  }

  // ---- each event leads to the next store ----

  lemma Begins(canon: Canon, u: string, t: Target, now: real)
    requires canon(u) == Some(t)
    ensures Begin(canon, EMPTY, R.DetailsOf("r", 1, "d", u, ""), R.QUIET, now) == Out(Begun(t), true, PendingOnly)
  {
    hide EnsureRuntime;
    R.EnsureQuiet(EMPTY, now);
    assert MarkHostConflicts(map["r" := Request(t)], "r", t.host) == map["r" := Request(t)];
  }

  lemma Commits(canon: Canon, u: string, t: Target, now: real)
    requires canon(u) == Some(t)
    ensures Commit(canon, Begun(t), R.DetailsOf("", 1, "d", u, ""), HistoryDocumentReceiptUnavailable, Some("r"),
              now) ==
            Out(Committed(t), true, Everything)
    ensures IsPendingForDocument(Begun(t), 1, "d", t.url, Some("r"))
  {
    assert Begun(t).pending["r" := Request(t).(documentId := Some("d"))] == Begun(t).pending;
    assert EMPTY.documents["d" := Shown(t)] == Committed(t).documents;
  }

  lemma Obtains(u: string, t: Target, now: real)
    requires t.host == R.RESPONSE.host
    ensures Network(Committed(t), Request(t), R.DetailsOf("r", 1, "d", u, ""), R.OBSERVED, now) ==
            NavigationReceipts.Completed(
              Committed(t).(floor := 5, sequence := 3, urlReceipts := map[t.url := UrlReceipt(R.BOUND, 3)]), R.BOUND)
  {
    hide EnsureRuntime;
    R.EnsureObserved(Committed(t), now);
  }

  lemma Completes(canon: Canon, u: string, t: Target, now: real)
    requires canon(u) == Some(t) && t.host == R.RESPONSE.host
    ensures Complete(canon, Committed(t), R.DetailsOf("r", 1, "d", u, ""), R.OBSERVED, now) ==
            Out(Completed(t), true, Everything)
  {
    hide Network;
    Obtains(u, t, now);
    assert Committed(t).pending["r" := Request(t)] == Committed(t).pending;
    assert Committed(t).pending - {"r"} == Completed(t).pending;
  }

  lemma SmallStores(t: Target)
    ensures Bounded(Begun(t)) && Bounded(Committed(t)) && Bounded(Completed(t))
  {
  }

  lemma ViewBefore(t: Target, now: real)
    ensures var view := ReceiptForTab(Completed(t), 1, R.QUIET, now).result;
            view.state == CurrentDocument && view.receipt == Some(R.RESPONSE)
    ensures ReceiptForTab(Completed(t), 1, R.QUIET, now).store == Completed(t)
  {
    hide EnsureRuntime;
    R.EnsureQuiet(Completed(t), now);
  }

  lemma Runs(canon: Canon, u: string, t: Target, now: real) returns (steps: seq<Step>)
    requires canon(u) == Some(t) && t.host == R.RESPONSE.host
    ensures IsRun(canon, EMPTY, steps) && Last(EMPTY, steps) == Completed(t) && forall i :: 0 <= i < |steps| ==>
              steps[i].now == now
  {
    hide Begin, Commit, Complete, IsRun, IsPendingForDocument, Bounded, Settled;
    SmallStores(t);
    R.EmptyIsRun(canon);
    Begins(canon, u, t, now);
    R.AsIs(Out(Begun(t), true, PendingOnly));
    var begin := BeginEvent(R.DetailsOf("r", 1, "d", u, ""), R.QUIET);
    R.Extended(canon, [], begin, now, Begun(t));
    steps := [] + [Step(begin, now, Begun(t))];
    Commits(canon, u, t, now);
    R.AsIs(Out(Committed(t), true, Everything));
    var commit := CommitEvent(R.DetailsOf("", 1, "d", u, ""), HistoryDocumentReceiptUnavailable, Some("r"));
    R.Extended(canon, steps, commit, now, Committed(t));
    steps := steps + [Step(commit, now, Committed(t))];
    Completes(canon, u, t, now);
    R.AsIs(Out(Completed(t), true, Everything));
    var complete := CompleteEvent(R.DetailsOf("r", 1, "d", u, ""), R.OBSERVED);
    R.Extended(canon, steps, complete, now, Completed(t));
    steps := steps + [Step(complete, now, Completed(t))];
  }

  /** The receipt that the tab shows does not survive a restart. */
  lemma LongUrlLosesItsReceipt(canon: Canon, u: string, t: Target, now: real) returns (steps: seq<Step>)
    requires Canonical(canon) && canon(u) == Some(t) && Overlong(t.url) && t.host == R.RESPONSE.host
    ensures IsRun(canon, EMPTY, steps)
    ensures ReceiptForTab(Last(EMPTY, steps), 1, R.QUIET, now).result.receipt == Some(R.RESPONSE)
    ensures forall snap, r :: IsSnapshotOf(snap, Last(EMPTY, steps)) && Settled(Restore(canon, snap, now), r) ==>
              ReceiptForTab(r, 1, R.QUIET, now).result == NoReceipt(ActiveDocumentReceiptUnavailable)
  {
    hide IsRun, Canonical, ReceiptForTab, Restore, Settled, IsSnapshotOf, Overlong;
    steps := Runs(canon, u, t, now);
    ViewBefore(t, now);
    forall snap, r | IsSnapshotOf(snap, Last(EMPTY, steps)) && Settled(Restore(canon, snap, now), r)
      ensures ReceiptForTab(r, 1, R.QUIET, now).result == NoReceipt(ActiveDocumentReceiptUnavailable)
    {
      RestartIsUnobservable(canon, steps, snap, now, r, R.QUIET, now, 1, Query(1, "d", "", None));
      Forgotten(canon, t, r, now);
    }
  }

  lemma Forgotten(canon: Canon, t: Target, r: Store, now: real)
    requires Overlong(t.url) && r.runtime == Completed(t).runtime && r.epoch == 1
    requires ReceiptForTab(r, 1, R.QUIET, now).result == RestartedView(Completed(t), 1, now)
    ensures ReceiptForTab(r, 1, R.QUIET, now).result == NoReceipt(ActiveDocumentReceiptUnavailable)
  {
    hide EnsureRuntime, TabView, Overlong;
  }
}
