/** Why NavigationFreshness speaks of requests that stay on one host: a request that was begun elsewhere
    and redirected keeps the event floor of its beginning, and may bind a response that another request
    already bound.  Exactly which requests may. */
module NavigationRedirects {
  import opened Basics
  import opened NavigationReceipts
  import opened NavigationRuns
  import opened NavigationPruning
  import opened NavigationFreshness

  const RUNTIME := Runtime("session", 1, 1)
  const HERE := Target("https://a/", "https://a", "a", 443, Https)
  const ELSEWHERE := Target("https://b/", "https://b", "b", 443, Https)
  const RESPONSE := SecurityResult(true, RUNTIME, 5, "a", true, Some(200), HnsNamespace, "mainnet", None)

  const QUIET := Status(Some(RUNTIME), Some(1), None, None, true, true, true, None, None, None)
  const OBSERVED := QUIET.(latest := Some(RESPONSE))

  function DetailsOf(id: string, tabId: int, documentId: string, url: string, redirectUrl: string): Details {
    Details(id, tabId, documentId, url, redirectUrl, true, 0, true, false, Get, None, false, Some(200))
  }

  // ---- the stores in turn ----

  const FIRST := Pending(1, Some("d"), HERE, Get, None, 0, 1, false, None, 1)
  const SECOND := Pending(2, None, ELSEWHERE, Get, None, 0, 1, false, None, 2)
  const S1 := EMPTY.(runtime := Some(RUNTIME), epoch := 1, sequence := 1, pending := map["first" := FIRST])
  const S2 := S1.(sequence := 2, pending := map["first" := FIRST, "second" := SECOND])
  const DOCUMENT := Document(1, HERE, None, None, None, None, false, Some(MainFrameSecurityPending), 3)
  const S3 := S2.(sequence := 3, documents := map["d" := DOCUMENT],
      tabs := map[1 := Tab(Some("d"), Some(HERE.url), None, 3)])
  const BOUND := Completion(Some(RESPONSE), None, Some(1), Some(RustHttpResponse), None)
  const S4 := S3.(
    sequence := 5, floor := 5, urlReceipts := map[HERE.url := UrlReceipt(BOUND, 4)], pending := map["second" := SECOND],
    documents := map["d" := DOCUMENT.(receipt := Some(RESPONSE), receiptEpoch := Some(1),
      source := Some(RustHttpResponse),
                                      reason := None, sequence := 5)])
  const MOVED := SECOND.(target := HERE)
  const S5 := S4.(pending := map["second" := MOVED])

  ghost predicate Knows(canon: Canon) {
    canon(HERE.url) == Some(HERE) && canon(ELSEWHERE.url) == Some(ELSEWHERE)
  }

  // ---- each event leads to the next store ----

  lemma AsIs<R>(out: Out<R>)
    requires Bounded(out.store)
    ensures Settled(out, out.store)
  {
  }

  lemma EnsureQuiet(s: Store, now: real)
    requires s == EMPTY || (s.runtime == Some(RUNTIME) && s.epoch == 1)
    ensures EnsureRuntime(s, QUIET, now) ==
            Out(if s == EMPTY then EMPTY.(runtime := Some(RUNTIME), epoch := 1) else s, true, NoPruning)
  {
  }

  lemma EnsureObserved(s: Store, now: real)
    requires s.runtime == Some(RUNTIME) && s.epoch == 1
    ensures EnsureRuntime(s, OBSERVED, now) == Out(s.(floor := MaxInt(s.floor, 5)), true, NoPruning)
  {
  }

  lemma FirstBegins(canon: Canon, now: real)
    requires Knows(canon)
    ensures Begin(canon, EMPTY, DetailsOf("first", 1, "d", HERE.url, ""), QUIET, now) == Out(S1, true, PendingOnly)
  {
    hide EnsureRuntime;
    EnsureQuiet(EMPTY, now);
    assert MarkHostConflicts(map["first" := FIRST], "first", "a") == map["first" := FIRST];
  }

  lemma SecondBegins(canon: Canon, now: real)
    requires Knows(canon)
    ensures Begin(canon, S1, DetailsOf("second", 2, "", ELSEWHERE.url, ""), QUIET, now) == Out(S2, true, PendingOnly)
  {
    hide EnsureRuntime;
    EnsureQuiet(S1, now);
    assert S1.pending["second" := SECOND] == S2.pending;
    assert MarkHostConflicts(S2.pending, "second", "b") == S2.pending;
  }

  lemma FirstCommits(canon: Canon, now: real)
    requires Knows(canon)
    ensures Commit(canon, S2, DetailsOf("", 1, "d", HERE.url, ""), HistoryDocumentReceiptUnavailable, Some("first"),
              now) ==
            Out(S3, true, Everything)
    ensures IsPendingForDocument(S2, 1, "d", HERE.url, Some("first"))
  {
    assert S2.pending["first" := FIRST.(documentId := Some("d"))] == S2.pending;
    assert EMPTY.documents["d" := DOCUMENT] == S3.documents;
  }

  lemma FirstObtains(now: real)
    ensures Network(S3, FIRST, DetailsOf("first", 1, "d", HERE.url, ""), OBSERVED, now) ==
            Completed(S3.(floor := 5, sequence := 4, urlReceipts := map[HERE.url := UrlReceipt(BOUND, 4)]), BOUND)
  {
    hide EnsureRuntime;
    EnsureObserved(S3, now);
  }

  lemma FirstCompletes(canon: Canon, now: real)
    requires Knows(canon)
    ensures Complete(canon, S3, DetailsOf("first", 1, "d", HERE.url, ""), OBSERVED, now) == Out(S4, true, Everything)
  {
    hide Network;
    FirstObtains(now);
    assert S3.pending["first" := FIRST] == S3.pending;
    assert S3.pending - {"first"} == S4.pending;
  }

  lemma SecondMoves(canon: Canon, now: real)
    requires Knows(canon)
    ensures Redirect(canon, S4, DetailsOf("second", 2, "", "", HERE.url)) == Out(S5, true, NoPruning)
  {
    assert S4.pending["second" := MOVED] == S5.pending;
    assert MarkHostConflicts(S5.pending, "second", "a") == S5.pending;
  }

  lemma SecondObtains(now: real)
    ensures Network(S5, MOVED, DetailsOf("second", 2, "", HERE.url, ""), OBSERVED, now).completion == BOUND
  {
    hide EnsureRuntime;
    EnsureObserved(S5, now);
  }

  // ---- the run ----

  lemma Extended(canon: Canon, steps: seq<Step>, e: Event, now: real, after: Store)
    requires IsRun(canon, EMPTY, steps) && Next(canon, Last(EMPTY, steps), e, now, after)
    ensures IsRun(canon, EMPTY, steps + [Step(e, now, after)]) && Last(EMPTY, steps + [Step(e, now, after)]) == after
  {
    hide Next;
    assert (steps + [Step(e, now, after)])[..|steps|] == steps;
  }

  /** The two completions, as events. */
  const FIRST_COMPLETES := CompleteEvent(DetailsOf("first", 1, "d", HERE.url, ""), OBSERVED)
  const SECOND_COMPLETES := CompleteEvent(DetailsOf("second", 2, "", HERE.url, ""), OBSERVED)

  lemma SmallStores()
    ensures Bounded(S1) && Bounded(S2) && Bounded(S3) && Bounded(S4) && Bounded(S5)
  {
  }

  lemma BeginsAndCommits(canon: Canon, now: real) returns (steps: seq<Step>)
    requires Knows(canon)
    ensures IsRun(canon, EMPTY, steps) && |steps| == 3 && Last(EMPTY, steps) == S3
  {
    hide Begin, Commit, IsRun, IsPendingForDocument, Bounded, Settled;
    SmallStores();
    EmptyIsRun(canon);
    FirstBegins(canon, now);
    AsIs(Out(S1, true, PendingOnly));
    Extended(canon, [], BeginEvent(DetailsOf("first", 1, "d", HERE.url, ""), QUIET), now, S1);
    steps := [] + [Step(BeginEvent(DetailsOf("first", 1, "d", HERE.url, ""), QUIET), now, S1)];
    SecondBegins(canon, now);
    AsIs(Out(S2, true, PendingOnly));
    Extended(canon, steps, BeginEvent(DetailsOf("second", 2, "", ELSEWHERE.url, ""), QUIET), now, S2);
    steps := steps + [Step(BeginEvent(DetailsOf("second", 2, "", ELSEWHERE.url, ""), QUIET), now, S2)];
    FirstCommits(canon, now);
    AsIs(Out(S3, true, Everything));
    var commit := CommitEvent(DetailsOf("", 1, "d", HERE.url, ""), HistoryDocumentReceiptUnavailable, Some("first"));
    Extended(canon, steps, commit, now, S3);
    steps := steps + [Step(commit, now, S3)];
  }

  lemma EmptyIsRun(canon: Canon)
    ensures IsRun(canon, EMPTY, [])
  {
  }

  lemma Bindings(canon: Canon, now: real)
    requires Knows(canon)
    ensures FreshBinding(canon, S3, FIRST_COMPLETES, now) == Some(("first", RESPONSE))
    ensures FreshBinding(canon, S5, SECOND_COMPLETES, now) == Some(("second", RESPONSE))
  {
    hide Network;
    FirstObtains(now);
    SecondObtains(now);
    assert S3.pending["first" := FIRST] == S3.pending;
    assert S5.pending["second" := MOVED] == S5.pending;
  }

  /** A run in which two requests complete with the same response as fresh evidence; the second was begun on
      another host. */
  lemma RedirectedRequestBindsAgain(canon: Canon, now: real) returns (steps: seq<Step>)
    requires Knows(canon)
    ensures IsRun(canon, EMPTY, steps) && |steps| == 5 && steps[3].event == FIRST_COMPLETES
    ensures FreshBinding(canon, Last(EMPTY, steps[..3]), FIRST_COMPLETES, now) == Some(("first", RESPONSE))
    ensures FreshBinding(canon, Last(EMPTY, steps), SECOND_COMPLETES, now) == Some(("second", RESPONSE))
  {
    hide Complete, Redirect, IsRun, FreshBinding, Bounded, Settled;
    SmallStores();
    Bindings(canon, now);
    var before := BeginsAndCommits(canon, now);
    FirstCompletes(canon, now);
    AsIs(Out(S4, true, Everything));
    Extended(canon, before, FIRST_COMPLETES, now, S4);
    SecondMoves(canon, now);
    AsIs(Out(S5, true, NoPruning));
    var redirect := RedirectEvent(DetailsOf("second", 2, "", "", HERE.url));
    Extended(canon, before + [Step(FIRST_COMPLETES, now, S4)], redirect, now, S5);
    steps := before + [Step(FIRST_COMPLETES, now, S4)] + [Step(redirect, now, S5)];
    assert steps[..3] == before;
  }

  // ---- exactly which requests bind a response that is bound already ----

  /** Requests have identifiers and tabs that a completion can name. */
  ghost predicate Addressed(s: Store) {
    forall k :: k in s.pending ==> BoundedIdentifier(k).Some? && ValidTabId(s.pending[k].tabId).Some?
  }

  lemma MarkedIsAddressed(s: Store, id: string, p: Pending, host: string)
    requires Addressed(s) && BoundedIdentifier(id).Some? && ValidTabId(p.tabId).Some?
    ensures Addressed(s.(pending := MarkHostConflicts(s.pending[id := p], id, host)))
  {
    hide BoundedIdentifier, Conflicts;
  }

  lemma SequencedIsAddressed(s: Store, r: Store)
    requires Addressed(s) && r.pending == s.pending
    ensures Addressed(r)
  {
  }

  lemma BeginAddresses(canon: Canon, s: Store, d: Details, st: Status, now: real)
    requires Addressed(s)
    ensures Addressed(Begin(canon, s, d, st, now).store)
  {
    hide EnsureRuntime, Addressed, MarkHostConflicts, NextSequence;
    StatusAddresses(s, st, 0, now);
    var mid := EnsureRuntime(s, st, now).store;
    if Begin(canon, s, d, st, now).result {
      var target := canon(d.url).value;
      if d.requestId in mid.pending {
        AddressedOne(mid, d.requestId);
        var p := mid.pending[d.requestId];
        MarkedIsAddressed(mid, d.requestId,
          p.(target := target, verb := d.verb, documentId := p.documentId.OrElse(BoundedIdentifier(d.documentId))),
          target.host);
      } else {
        var next := NextSequence(mid);
        SequencedIsAddressed(mid, next);
        MarkedIsAddressed(next, d.requestId,
          Pending(d.tabId, BoundedIdentifier(d.documentId), target, d.verb, ValidBrowserTimestamp(d.timeStamp, now),
                  mid.floor, mid.epoch, false, None, next.sequence), target.host);
      }
    }
  }

  lemma AddressedOne(s: Store, id: string)
    requires Addressed(s) && id in s.pending
    ensures BoundedIdentifier(id).Some? && ValidTabId(s.pending[id].tabId).Some?
  {
  }

  lemma CompleteAddresses(canon: Canon, s: Store, d: Details, st: Status, now: real)
    requires Addressed(s)
    ensures Addressed(Complete(canon, s, d, st, now).store)
  {
    hide Evidence, Bound, Subdued, Addressed, Concluded;
    var id, target := BoundedIdentifier(d.requestId), canon(d.url);
    if id.Some? && id.value in s.pending {
      FewerAreAddressed(s, s.(pending := s.pending - {id.value}));
      if target.Some? && ValidTabId(d.tabId) == Some(s.pending[id.value].tabId) {
        AddressedOne(s, id.value);
        var p := Completing(s.pending[id.value], target.value, d);
        var s1 := s.(pending := s.pending[id.value := p]);
        ReplacedIsAddressed(s, id.value, p);
        EvidenceSubdues(s1, p, d, st, now);
        var r := Evidence(s1, p, d, st, now);
        FewerAreAddressed(s1, r.store);
        ConcludedAddresses(r.store, id.value, p, r.completion, now);
      }
    }
  }

  lemma FewerAreAddressed(s: Store, r: Store)
    requires Addressed(s) && forall k :: k in r.pending ==> k in s.pending && r.pending[k] == s.pending[k]
    ensures Addressed(r)
  {
  }

  lemma ReplacedIsAddressed(s: Store, id: string, p: Pending)
    requires Addressed(s) && BoundedIdentifier(id).Some? && ValidTabId(p.tabId).Some?
    ensures Addressed(s.(pending := s.pending[id := p]))
  {
    hide BoundedIdentifier;
  }

  lemma ConcludedAddresses(s: Store, id: string, p: Pending, c: Completion, now: real)
    requires Addressed(s) && ValidTabId(p.tabId).Some?
    ensures Addressed(Concluded(s, id, p, c, now))
  {
    hide Bound, NextSequence, BoundedIdentifier;
  }

  lemma CommitAddresses(canon: Canon, s: Store, d: Details, reason: Reason, pick: Option<string>, now: real)
    requires Addressed(s) && (pick.Some? ==> pick.value in s.pending)
    ensures Addressed(Commit(canon, s, d, reason, pick, now).store)
  {
    hide Commit;
    CommitShape(canon, s, d, reason, pick, now);
  }

  lemma RequestsAddress(canon: Canon, s: Store, d: Details)
    requires Addressed(s)
    ensures Addressed(Redirect(canon, s, d).store)
    ensures Addressed(FailRequest(s, d).store)
    ensures Addressed(FailNavigation(canon, s, d).store)
  {
  }

  lemma TabsAddress(s: Store, tabId: int, otherId: int)
    requires Addressed(s)
    ensures Addressed(RemoveTab(s, tabId).store)
    ensures Addressed(ReplaceTab(s, tabId, otherId).store)
  {
  }

  lemma StatusAddresses(s: Store, st: Status, seconds: int, now: real)
    requires Addressed(s)
    ensures Addressed(EnsureRuntime(s, st, now).store)
    ensures Addressed(BeginMaintenance(s, st, now).store)
    ensures Addressed(CompleteMaintenance(s, st, seconds, now).store)
  {
    hide EnsureRuntime;
    EnsureCases(s, st, now);
  }

  lemma EffectAddresses(canon: Canon, s: Store, e: Event, now: real)
    requires Addressed(s) && Enabled(canon, s, e)
    ensures Addressed(Effect(canon, s, e, now).store)
  {
    hide Addressed, Begin, Redirect, FailRequest, Complete, Commit, FailNavigation, RemoveTab, ReplaceTab,
      BeginMaintenance, CompleteMaintenance, EnsureRuntime, Restore, IsSnapshotOf, IsPendingForDocument;
    match e {
      case BeginEvent(d, st) => BeginAddresses(canon, s, d, st, now);
      case RedirectEvent(d) => RequestsAddress(canon, s, d);
      case CommitEvent(d, reason, pick) => CommitAddresses(canon, s, d, reason, pick, now);
      case CompleteEvent(d, st) => CompleteAddresses(canon, s, d, st, now);
      case FailRequestEvent(d) => RequestsAddress(canon, s, d);
      case FailNavigationEvent(d) => RequestsAddress(canon, s, d);
      case BeginMaintenanceEvent(st) => StatusAddresses(s, st, 0, now);
      case CompleteMaintenanceEvent(st, seconds) => StatusAddresses(s, st, seconds, now);
      case RemoveTabEvent(tabId) => TabsAddress(s, tabId, 0);
      case ReplaceTabEvent(addedId, removedId) => TabsAddress(s, addedId, removedId);
      case QueryEvent(st) => StatusAddresses(s, st, 0, now);
      case RestartEvent(snapshot) =>
        RestoredParts(canon, snapshot, now);
        NothingPendingIsAddressed(Restore(canon, snapshot, now).store);
    }
  }

  lemma NothingPendingIsAddressed(s: Store)
    requires s.pending == map[]
    ensures Addressed(s)
  {
  }

  lemma SettledAddresses(out: Out<bool>, after: Store)
    requires Settled(out, after) && Addressed(out.store)
    ensures Addressed(after)
  {
    EvictedPending(out, after);
  }

  lemma {:induction false} RunAddresses(canon: Canon, steps: seq<Step>)
    requires IsRun(canon, EMPTY, steps)
    ensures Addressed(Last(EMPTY, steps))
  {
    hide Addressed, Effect, Settled;
    if steps == [] {
      NothingPendingIsAddressed(EMPTY);
    } else {
      var n := |steps| - 1;
      RunAddresses(canon, steps[..n]);
      EffectAddresses(canon, Last(EMPTY, steps[..n]), steps[n].event, steps[n].now);
      SettledAddresses(Effect(canon, Last(EMPTY, steps[..n]), steps[n].event, steps[n].now), steps[n].after);
    }
  }

  /** What a completion of the request checks before it takes a matching response. */
  ghost predicate MayBind(s: Store, p: Pending, response: SecurityResult) {
    !s.maintenancePending && p.epoch == s.epoch && SafeMethod(p.verb) && !p.ambiguous &&
    p.eventFloor < response.eventSequence
  }

  /** A response that some completion can bind to a request: current, of a main frame and of a URL's host. */
  ghost predicate Bindable(canon: Canon, s: Store, response: SecurityResult, url: string) {
    CurrentResult(response, s.runtime) && response.mainFrame && response.statusCode.Some? &&
    canon(url).Some? && canon(url).value.host == response.host
  }

  lemma BoundIsBindable(canon: Canon, s: Store, e: Event, now: real)
    requires FreshBinding(canon, s, e, now).Some?
    ensures e.CompleteEvent? && Bindable(canon, s, FreshBinding(canon, s, e, now).value.1, e.d.url)
    ensures MayBindNow(canon, s, e, now)
  {
    hide Network;
    var p := Completing(s.pending[e.d.requestId], canon(e.d.url).value, e.d);
    var s1 := s.(pending := s.pending[e.d.requestId := p]);
    FreshResponse(s1, p, e.d, e.st, now);
    NetworkKeepsMaintenance(s1, p, e.d, e.st, now);
  }

  /** The checks, but for the epoch, of a completion that bound a response. */
  ghost predicate MayBindNow(canon: Canon, s: Store, e: Event, now: real)
    requires FreshBinding(canon, s, e, now).Some?
  {
    var b := FreshBinding(canon, s, e, now).value;
    b.0 in s.pending && (s.pending[b.0].epoch == s.epoch ==> MayBind(s, s.pending[b.0], b.1))
  }

  lemma NetworkKeepsMaintenance(s: Store, p: Pending, d: Details, st: Status, now: real)
    ensures var r := Network(s, p, d, st, now).store;
            r.runtime == s.runtime ==> r.maintenancePending == s.maintenancePending
  {
    hide EnsureRuntime, NetworkEvidence;
    EnsureCases(s, st, now);
  }

  lemma CompletionThatBinds(canon: Canon, s: Store, k: string, response: SecurityResult, url: string, now: real)
    returns (d: Details, st: Status)
    requires Sane(s) && Addressed(s) && k in s.pending
    requires Bindable(canon, s, response, url) && MayBind(s, s.pending[k], response)
    ensures FreshBinding(canon, s, CompleteEvent(d, st), now) == Some((k, response))
  {
    d := DetailsOf(k, s.pending[k].tabId, "", url, "").(statusCode := response.statusCode);
    st := QUIET.(runtime := s.runtime, epoch := Some(s.epoch), latest := Some(response));
  }

  /** In every run, a response that some completion bound can be bound as fresh once more to a pending request,
      of whatever host, exactly if that request passes the checks: its floor is below the response and it was
      not marked ambiguous, in its epoch, outside maintenance and with a safe method. */
  lemma BindsAgainExactlyIf(canon: Canon, steps: seq<Step>, m: nat, first: string, response: SecurityResult, k: string)
    requires IsRun(canon, EMPTY, steps) && m < |steps|
    requires FreshBinding(canon, Last(EMPTY, steps[..m]), steps[m].event, steps[m].now) == Some((first, response))
    requires Last(EMPTY, steps).runtime == Last(EMPTY, steps[..m]).runtime && k in Last(EMPTY, steps).pending
    ensures var s := Last(EMPTY, steps);
            (exists d, st, now :: FreshBinding(canon, s, CompleteEvent(d, st), now) == Some((k, response))) <==>
            MayBind(s, s.pending[k], response)
  {
    hide IsRun, FreshBinding, AuditOf, Exclusive, Covered, Sane, Addressed, CurrentResult;
    var s := Last(EMPTY, steps);
    BoundIsBindable(canon, Last(EMPTY, steps[..m]), steps[m].event, steps[m].now);
    RunKeeps(canon, steps);
    RunSane(canon, steps);
    RunAddresses(canon, steps);
    if MayBind(s, s.pending[k], response) {
      var d, st := CompletionThatBinds(canon, s, k, response, steps[m].event.d.url, 0.0);
    }
    forall d, st, now | FreshBinding(canon, s, CompleteEvent(d, st), now) == Some((k, response))
      ensures MayBind(s, s.pending[k], response)
    {
      BoundIsBindable(canon, s, CompleteEvent(d, st), now);
    }
  }

  /** A request that stayed on the response's host does not pass them once another such request bound it. */
  lemma StayedRequestsDoNotPass(canon: Canon, steps: seq<Step>, u: Use, response: SecurityResult, k: string)
    requires IsRun(canon, EMPTY, steps) && u in AuditOf(canon, EMPTY, steps).uses
    requires u.event == response.eventSequence && u.host == response.host
    requires var a := AuditOf(canon, EMPTY, steps);
             k in a.live && !a.live[k].moved && a.live[k].host == u.host && a.live[k].birth != u.birth
    ensures var s := Last(EMPTY, steps); k in s.pending && !MayBind(s, s.pending[k], response)
  {
    hide IsRun, AuditOf, Exclusive, UsedOnce;
    RunKeeps(canon, steps);
    assert Settles(Last(EMPTY, steps).pending[k], u);
  }
}
