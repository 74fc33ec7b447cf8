/** Between two runtime resets a native response event is bound as fresh evidence to at most one
    request, however begins, redirects, commits, completions, maintenance and restarts interleave.
    The history that the statement needs is kept beside the store: which request was begun when, on
    which host, and which response each completion bound. */
module NavigationFreshness {
  import opened Basics
  import opened NavigationReceipts
  import opened NavigationRuns

  /** A pending request: its serial number in the run, the host it was begun on, and whether its host
      has since been another one. */
  datatype Watch = Watch(birth: nat, host: string, moved: bool)

  /** One use of a response event as fresh evidence, by a request that stayed on one host. */
  datatype Use = Use(birth: nat, event: int, host: string)

  datatype Audit = Audit(births: nat, live: map<string, Watch>, uses: set<Use>)

  const START := Audit(0, map[], {})

  /** The identifier under which the event makes a new pending request. */
  ghost function Created(canon: Canon, s: Store, e: Event, now: real): Option<string> {
    match e
    case BeginEvent(d, st) =>
      var ensured := EnsureRuntime(s, st, now).store;
      if Begin(canon, s, d, st, now).result && d.requestId !in ensured.pending then Some(d.requestId) else None
    case _ => None
  }

  /** The response that a completion binds as fresh evidence, with the request that it completes. */
  ghost function FreshBinding(canon: Canon, s: Store, e: Event, now: real): Option<(string, SecurityResult)> {
    match e
    case CompleteEvent(d, st) =>
      var id, target := BoundedIdentifier(d.requestId), canon(d.url);
      if id.None? || id.value !in s.pending || target.None? || ValidTabId(d.tabId) != Some(s.pending[id.value].tabId) ||
         d.fromCache
      then
        None
      else
        var p := Completing(s.pending[id.value], target.value, d);
        var c := Network(s.(pending := s.pending[id.value := p]), p, d, st, now).completion;
        if c.source == Some(RustHttpResponse) && c.receipt.Some? then Some((id.value, c.receipt.value)) else None
    case _ => None
  }

  ghost function Used(canon: Canon, a: Audit, s: Store, e: Event, now: real): set<Use> {
    var b := FreshBinding(canon, s, e, now);
    if b.Some? && b.value.0 in a.live && !a.live[b.value.0].moved && a.live[b.value.0].host == b.value.1.host then
      {Use(a.live[b.value.0].birth, b.value.1.eventSequence, b.value.1.host)}
    else {}
  }

  ghost function Watched(a: Audit, created: Option<string>, after: Store, k: string): Watch
    requires k in after.pending
  {
    if created == Some(k) || k !in a.live then
      Watch(a.births, after.pending[k].target.host, false)
    else
      var w := a.live[k];
      w.(moved := w.moved || after.pending[k].target.host != w.host)
  }

  ghost function Advance(a: Audit, created: Option<string>, used: set<Use>, after: Store): Audit {
    Audit(if created.Some? then a.births + 1 else a.births,
          map k | k in after.pending :: Watched(a, created, after, k),
          a.uses + used)
  }

  /** A runtime reset starts the history over. */
  ghost function Base(a: Audit, s: Store, after: Store): Audit {
    if after.runtime != s.runtime then Audit(a.births, map[], {}) else a
  }

  ghost function Observe(canon: Canon, a: Audit, s: Store, e: Event, now: real, after: Store): Audit {
    Advance(Base(a, s, after), Created(canon, s, e, now), Used(canon, a, s, e, now), after)
  }

  ghost function AuditOf(canon: Canon, s: Store, steps: seq<Step>): Audit {
    if steps == [] then
      START
    else
      var n := |steps| - 1;
      var before := steps[..n];
      Observe(canon, AuditOf(canon, s, before), Last(s, before), steps[n].event, steps[n].now, steps[n].after)
  }

  // ---- the invariant ----

  ghost predicate Settles(p: Pending, use: Use) {
    p.ambiguous || p.eventFloor >= use.event
  }

  ghost predicate Tracked(a: Audit, s: Store) {
    a.live.Keys == s.pending.Keys &&
    (forall k :: k in s.pending ==>
      s.pending[k].epoch == s.epoch && a.live[k].birth < a.births &&
      (!a.live[k].moved ==> s.pending[k].target.host == a.live[k].host)) &&
    (forall j, k :: j in s.pending && k in s.pending && j != k ==> a.live[j].birth != a.live[k].birth)
  }

  ghost predicate Exclusive(a: Audit, s: Store)
    requires Tracked(a, s)
  {
    forall j, k ::
      (j in s.pending && k in s.pending && j != k && !a.live[j].moved && !a.live[k].moved &&
       a.live[j].host == a.live[k].host) ==>
        s.pending[j].ambiguous
  }

  ghost predicate Covered(a: Audit, s: Store)
    requires Tracked(a, s)
  {
    (forall u :: u in a.uses ==> u.birth < a.births && u.event <= s.floor) &&
    (forall u, k ::
       (u in a.uses && k in s.pending && !a.live[k].moved && a.live[k].host == u.host && a.live[k].birth != u.birth) ==>
         Settles(s.pending[k], u))
  }

  ghost predicate UsedOnce(a: Audit) {
    forall u, v :: u in a.uses && v in a.uses && u.event == v.event && u.host == v.host ==> u.birth == v.birth
  }

  ghost predicate Inv(a: Audit, s: Store) {
    Tracked(a, s) && Exclusive(a, s) && Covered(a, s) && UsedOnce(a)
  }

  // ---- steps that only drop requests, move them between tabs or park a completion ----

  /** `after` has some of the pending requests of `s`, with the same fields that the invariant reads. */
  ghost predicate Subdued(s: Store, after: Store) {
    after.runtime == s.runtime && after.floor >= s.floor &&
    (after.epoch == s.epoch || after.pending == map[]) &&
    forall k :: k in after.pending ==>
      k in s.pending && after.pending[k].epoch == s.pending[k].epoch &&
      after.pending[k].eventFloor == s.pending[k].eventFloor &&
      (s.pending[k].ambiguous ==> after.pending[k].ambiguous)
  }

  lemma SubduedTracks(a: Audit, s: Store, after: Store)
    requires Tracked(a, s) && Subdued(s, after)
    ensures Tracked(Advance(a, None, {}, after), after)
  {
  }

  lemma SubduedAdvances(a: Audit, s: Store, after: Store)
    requires Inv(a, s) && Subdued(s, after)
    ensures Inv(Advance(a, None, {}, after), after)
  {
    hide Tracked;
    SubduedTracks(a, s, after);
    SubduedExcludes(a, s, after);
    SubduedCovers(a, s, after);
  }

  lemma SubduedExcludes(a: Audit, s: Store, after: Store)
    requires Tracked(a, s) && Exclusive(a, s) && Subdued(s, after)
    requires Tracked(Advance(a, None, {}, after), after)
    ensures Exclusive(Advance(a, None, {}, after), after)
  {
    hide Covered;
  }

  lemma SubduedCovers(a: Audit, s: Store, after: Store)
    requires Tracked(a, s) && Covered(a, s) && Subdued(s, after)
    requires Tracked(Advance(a, None, {}, after), after)
    ensures Covered(Advance(a, None, {}, after), after)
  {
  }

  lemma ResetAdvances(births: nat, after: Store)
    requires after.pending == map[]
    ensures Inv(Advance(Audit(births, map[], {}), None, {}, after), after)
  {
  }

  /** A completion that binds a response: no other request on that host can bind it any more. */
  lemma UseAdvances(a: Audit, s: Store, after: Store, id: string, use: Use)
    requires Inv(a, s) && Subdued(s, after)
    requires id in s.pending && !a.live[id].moved && !s.pending[id].ambiguous
    requires use.birth == a.live[id].birth && use.host == a.live[id].host
    requires s.pending[id].eventFloor < use.event <= after.floor
    ensures Inv(Advance(a, None, {use}, after), after)
  {
    var b := Advance(a, None, {use}, after);
    SubduedAdvances(a, s, after);
    forall u | u in a.uses && u.event == use.event && u.host == use.host ensures u.birth == use.birth {
      assert u.birth == use.birth || Settles(s.pending[id], u);
    }
  }

  // ---- a new request ----

  /** What beginRequest adds: a request above the floor, marked against the others on its host. */
  ghost predicate Added(s: Store, after: Store, id: string, p: Pending) {
    id !in s.pending && p.epoch == s.epoch && p.eventFloor == s.floor &&
    after.runtime == s.runtime && after.floor == s.floor && after.epoch == s.epoch &&
    var marked := MarkHostConflicts(s.pending[id := p], id, p.target.host);
    forall k :: k in after.pending ==> k in marked && after.pending[k] == marked[k]
  }

  lemma AddedTracks(a: Audit, s: Store, after: Store, id: string, p: Pending)
    requires Tracked(a, s) && Added(s, after, id, p)
    ensures Tracked(Advance(a, Some(id), {}, after), after)
  {
  }

  /** Two requests on one host, of which one may be the new one. */
  lemma AddedPair(a: Audit, s: Store, after: Store, id: string, p: Pending, j: string, k: string)
    requires Tracked(a, s) && Exclusive(a, s) && Added(s, after, id, p)
    requires var b := Advance(a, Some(id), {}, after);
             j in after.pending && k in after.pending && j != k && !b.live[j].moved && !b.live[k].moved &&
             b.live[j].host == b.live[k].host
    ensures after.pending[j].ambiguous
  {
    var with := s.pending[id := p];
    if j == id {
      assert Conflicts(with, id, p.target.host, k);
    } else if k == id {
      assert Conflicts(with, id, p.target.host, j);
    }
  }

  lemma AddedExcludes(a: Audit, s: Store, after: Store, id: string, p: Pending)
    requires Tracked(a, s) && Exclusive(a, s) && Added(s, after, id, p)
    requires Tracked(Advance(a, Some(id), {}, after), after)
    ensures Exclusive(Advance(a, Some(id), {}, after), after)
  {
    hide Tracked, Added, Advance;
    var b := Advance(a, Some(id), {}, after);
    LiveIsPending(b, after);
    forall j, k |
      j in after.pending && k in after.pending && j != k && !b.live[j].moved && !b.live[k].moved &&
      b.live[j].host == b.live[k].host
      ensures after.pending[j].ambiguous
    {
      AddedPair(a, s, after, id, p, j, k);
    }
  }

  lemma LiveIsPending(a: Audit, s: Store)
    requires Tracked(a, s)
    ensures a.live.Keys == s.pending.Keys
  {
  }

  lemma AddedCovers(a: Audit, s: Store, after: Store, id: string, p: Pending)
    requires Tracked(a, s) && Covered(a, s) && Added(s, after, id, p)
    requires Tracked(Advance(a, Some(id), {}, after), after)
    ensures Covered(Advance(a, Some(id), {}, after), after)
  {
  }

  lemma AddedAdvances(a: Audit, s: Store, after: Store, id: string, p: Pending)
    requires Inv(a, s) && Added(s, after, id, p)
    ensures Inv(Advance(a, Some(id), {}, after), after)
  {
    hide Tracked;
    AddedTracks(a, s, after, id, p);
    AddedExcludes(a, s, after, id, p);
    AddedCovers(a, s, after, id, p);
  }

  // ---- every operation ----

  lemma SubduedThenPruned<R>(s: Store, out: Out<R>, after: Store)
    requires Subdued(s, out.store) && Settled(out, after)
    ensures Subdued(s, after)
  {
    EvictedPending(out, after);
  }

  lemma EvictedPending<R>(out: Out<R>, after: Store)
    requires Settled(out, after)
    ensures forall k :: k in after.pending ==> k in out.store.pending && after.pending[k] == out.store.pending[k]
    ensures after.runtime == out.store.runtime && after.floor == out.store.floor && after.epoch == out.store.epoch
    ensures |out.store.pending| == 0 ==> after.pending == map[]
  {
  }

  /** ensureRuntime only subdues, unless it resets. */
  lemma EnsureSubdues(s: Store, st: Status, now: real)
    ensures var r := EnsureRuntime(s, st, now).store; r.runtime == s.runtime ==> Subdued(s, r)
    ensures var r := EnsureRuntime(s, st, now).store; r.runtime != s.runtime ==> r.pending == map[]
  {
    EnsureCases(s, st, now);
  }

  lemma RetargetSubdues(s: Store, id: string, q: Pending)
    requires id in s.pending && q.epoch == s.pending[id].epoch && q.eventFloor == s.pending[id].eventFloor
    requires s.pending[id].ambiguous ==> q.ambiguous
    ensures Subdued(s, s.(pending := MarkHostConflicts(s.pending[id := q], id, q.target.host)))
  {
  }

  lemma SubduedTransitive(s: Store, mid: Store, after: Store)
    requires Subdued(s, mid) && Subdued(mid, after)
    ensures Subdued(s, after)
  {
    if mid.epoch != s.epoch {
      assert after.pending.Keys == {};
    }
  }

  /** Observing ensureRuntime separately changes nothing in what is then observed of the operation. */
  lemma AdvanceTwice(a: Audit, s: Store, mid: Store, id: string, after: Store)
    requires Tracked(a, s)
    requires forall k :: k in mid.pending ==> k in s.pending && mid.pending[k].target.host == s.pending[k].target.host
    requires forall k :: k in after.pending && k != id ==> k in mid.pending
    ensures Advance(Advance(a, None, {}, mid), Some(id), {}, after) == Advance(a, Some(id), {}, after)
  {
  }

  lemma EnsuredKeeps(a: Audit, s: Store, st: Status, now: real)
    requires Inv(a, s)
    ensures var mid := EnsureRuntime(s, st, now).store; Inv(Advance(Base(a, s, mid), None, {}, mid), mid)
  {
    hide Inv, Advance, Subdued, EnsureRuntime;
    var mid := EnsureRuntime(s, st, now).store;
    EnsureSubdues(s, st, now);
    if mid.runtime == s.runtime { SubduedAdvances(a, s, mid); } else { ResetAdvances(a.births, mid); }
  }

  lemma BeginRetargets(canon: Canon, s: Store, d: Details, st: Status, now: real)
    requires Begin(canon, s, d, st, now).result && d.requestId in EnsureRuntime(s, st, now).store.pending
    ensures var out := Begin(canon, s, d, st, now); Subdued(s, out.store) && out.pruning.NoPruning?
  {
    hide Subdued, MarkHostConflicts, EnsureRuntime;
    var mid := EnsureRuntime(s, st, now).store;
    EnsureSubdues(s, st, now);
    var p := mid.pending[d.requestId];
    var q := p.(target := canon(d.url).value, verb := d.verb,
                documentId := p.documentId.OrElse(BoundedIdentifier(d.documentId)));
    RetargetSubdues(mid, d.requestId, q);
    SubduedTransitive(s, mid, Begin(canon, s, d, st, now).store);
  }

  lemma BeginCreates(canon: Canon, a: Audit, s: Store, d: Details, st: Status, now: real, after: Store)
    requires Inv(a, s) && Settled(Begin(canon, s, d, st, now), after)
    requires Begin(canon, s, d, st, now).result && d.requestId !in EnsureRuntime(s, st, now).store.pending
    ensures Inv(Advance(Base(a, s, after), Some(d.requestId), {}, after), after)
  {
    hide Inv, Advance, Subdued, EnsureRuntime, Added, Begin, Settled, Base;
    var mid := EnsureRuntime(s, st, now).store;
    EnsuredKeeps(a, s, st, now);
    var p := BeginAdds(canon, s, d, st, now, after);
    AddedAdvances(Advance(Base(a, s, mid), None, {}, mid), mid, after, d.requestId, p);
    AddedKeys(mid, after, d.requestId, p);
    CreationObserved(a, s, st, now, d.requestId, after);
  }

  lemma CreationObserved(a: Audit, s: Store, st: Status, now: real, id: string, after: Store)
    requires Inv(a, s)
    requires var mid := EnsureRuntime(s, st, now).store;
             after.runtime == mid.runtime && forall k :: k in after.pending && k != id ==> k in mid.pending
    ensures var mid := EnsureRuntime(s, st, now).store;
            Advance(Advance(Base(a, s, mid), None, {}, mid), Some(id), {}, after) ==
            Advance(Base(a, s, after), Some(id), {}, after)
  {
    hide Inv, Advance, EnsureRuntime;
    var mid := EnsureRuntime(s, st, now).store;
    EnsureCases(s, st, now);
    if mid.runtime == s.runtime {
      InvTracks(a, s);
      AdvanceTwice(a, s, mid, id, after);
    } else {
      EmptyAdvanceTwice(a.births, mid, id, after);
    }
  }

  lemma BeginKeeps(canon: Canon, a: Audit, s: Store, d: Details, st: Status, now: real, after: Store)
    requires Inv(a, s) && Next(canon, s, BeginEvent(d, st), now, after)
    ensures Inv(Observe(canon, a, s, BeginEvent(d, st), now, after), after)
  {
    hide Inv, Advance, Subdued, MarkHostConflicts, EnsureRuntime;
    var mid := EnsureRuntime(s, st, now).store;
    if !Begin(canon, s, d, st, now).result {
      EnsuredKeeps(a, s, st, now);
    } else if d.requestId in mid.pending {
      BeginRetargets(canon, s, d, st, now);
      SubduedAdvances(a, s, after);
      SubduedRuntime(s, after);
    } else {
      BeginCreates(canon, a, s, d, st, now, after);
    }
  }

  lemma SubduedRuntime(s: Store, after: Store)
    requires Subdued(s, after)
    ensures after.runtime == s.runtime
  {
  }

  lemma InvTracks(a: Audit, s: Store)
    requires Inv(a, s)
    ensures Tracked(a, s)
  {
  }

  lemma EmptyAdvanceTwice(births: nat, mid: Store, id: string, after: Store)
    requires mid.pending == map[]
    requires forall k :: k in after.pending ==> k == id
    ensures Advance(Advance(Audit(births, map[], {}), None, {}, mid), Some(id), {}, after) ==
            Advance(Audit(births, map[], {}), Some(id), {}, after)
  {
  }

  lemma AddedKeys(s: Store, after: Store, id: string, p: Pending)
    requires Added(s, after, id, p)
    ensures after.runtime == s.runtime
    ensures forall k :: k in after.pending && k != id ==> k in s.pending
  {
  }

  lemma BeginAdds(canon: Canon, s: Store, d: Details, st: Status, now: real, after: Store) returns (p: Pending)
    requires Begin(canon, s, d, st, now).result && d.requestId !in EnsureRuntime(s, st, now).store.pending
    requires Settled(Begin(canon, s, d, st, now), after)
    ensures Added(EnsureRuntime(s, st, now).store, after, d.requestId, p)
  {
    hide EnsureRuntime, MarkHostConflicts;
    var mid := EnsureRuntime(s, st, now).store;
    p := Pending(d.tabId, BoundedIdentifier(d.documentId), canon(d.url).value, d.verb,
                 ValidBrowserTimestamp(d.timeStamp, now), mid.floor, mid.epoch, false, None,
                 NextSequence(mid).sequence);
    EvictedPending(Begin(canon, s, d, st, now), after);
  }

  // ---- completions ----

  /** Seeking evidence subdues the store, unless the status resets it. */
  lemma EvidenceSubdues(s: Store, p: Pending, d: Details, st: Status, now: real)
    ensures var r := Evidence(s, p, d, st, now).store;
            (r.runtime == s.runtime ==> Subdued(s, r) && (r.pending == s.pending || r.pending == map[])) &&
            (r.runtime != s.runtime ==> r.pending == map[])
  {
    hide EnsureRuntime, NetworkEvidence, CachedEvidence;
    EnsureCases(s, st, now);
  }

  lemma ConcludedSubdues(s: Store, id: string, p: Pending, c: Completion, now: real)
    requires id in s.pending ==> s.pending[id] == p
    ensures Subdued(s, Concluded(s, id, p, c, now))
    ensures s.pending == map[] ==> Concluded(s, id, p, c, now).pending == map[]
  {
    hide Bound;
  }

  /** What a fresh response satisfies when it is bound. */
  lemma FreshResponse(s: Store, p: Pending, d: Details, st: Status, now: real)
    requires Network(s, p, d, st, now).completion.source == Some(RustHttpResponse)
    ensures var r := Network(s, p, d, st, now);
            r.completion.receipt.Some? && r.completion.connect.None? && r.store.runtime == s.runtime &&
            var e := r.completion.receipt.value;
            e.host == p.target.host && p.eventFloor < e.eventSequence <= r.store.floor && !p.ambiguous &&
            p.epoch == r.store.epoch && r.completion.epoch == Some(r.store.epoch) && e.mainFrame &&
            e.statusCode.Some? &&
            CurrentResult(e, r.store.runtime) && !r.store.maintenancePending && SafeMethod(p.verb)
  {
    hide EnsureRuntime;
    EnsureCases(s, st, now);
  }

  lemma CompletingSubdues(s: Store, id: string, target: Target, d: Details)
    requires id in s.pending
    ensures Subdued(s, s.(pending := s.pending[id := Completing(s.pending[id], target, d)]))
  {
  }

  lemma CompleteSubdues(canon: Canon, s: Store, d: Details, st: Status, now: real)
    ensures var out := Complete(canon, s, d, st, now);
            (out.store.runtime == s.runtime ==> Subdued(s, out.store)) &&
            (out.store.runtime != s.runtime ==> out.store.pending == map[])
  {
    hide Evidence, Concluded, Completing, Subdued;
    var id, target := BoundedIdentifier(d.requestId), canon(d.url);
    if id.None? || id.value !in s.pending || target.None? || ValidTabId(d.tabId) != Some(s.pending[id.value].tabId) {
      DroppedSubdues(s, if id.Some? then id.value else "");
    } else {
      var p := Completing(s.pending[id.value], target.value, d);
      var s1 := s.(pending := s.pending[id.value := p]);
      var completed := Evidence(s1, p, d, st, now);
      CompletingSubdues(s, id.value, target.value, d);
      EvidenceSubdues(s1, p, d, st, now);
      ConcludedSubdues(completed.store, id.value, p, completed.completion, now);
      var after := Concluded(completed.store, id.value, p, completed.completion, now);
      SubduedRuntime(completed.store, after);
      if completed.store.runtime == s.runtime {
        SubduedTransitive(s, s1, completed.store);
        SubduedTransitive(s, completed.store, after);
      }
    }
  }

  lemma DroppedSubdues(s: Store, id: string)
    ensures Subdued(s, s) && Subdued(s, s.(pending := s.pending - {id}))
  {
  }

  lemma CompleteKeeps(canon: Canon, a: Audit, s: Store, d: Details, st: Status, now: real, after: Store)
    requires Inv(a, s) && Next(canon, s, CompleteEvent(d, st), now, after)
    ensures Inv(Observe(canon, a, s, CompleteEvent(d, st), now, after), after)
  {
    hide Inv, Advance, Subdued, Complete, Network, Completing;
    var e := CompleteEvent(d, st);
    var out := Complete(canon, s, d, st, now);
    CompleteSubdues(canon, s, d, st, now);
    EvictedPending(out, after);
    var b := FreshBinding(canon, s, e, now);
    if b.Some? {
      FreshUse(canon, s, d, st, now);
    }
    if out.store.runtime != s.runtime {
      ResetAdvances(a.births, after);
    } else {
      SubduedThenPruned(s, out, after);
      if Used(canon, a, s, e, now) == {} {
        SubduedAdvances(a, s, after);
      } else {
        UseAdvances(a, s, after, b.value.0,
                    Use(a.live[b.value.0].birth, b.value.1.eventSequence, b.value.1.host));
      }
    }
  }

  lemma FreshUse(canon: Canon, s: Store, d: Details, st: Status, now: real)
    requires FreshBinding(canon, s, CompleteEvent(d, st), now).Some?
    ensures var b := FreshBinding(canon, s, CompleteEvent(d, st), now).value;
            var after := Complete(canon, s, d, st, now).store;
            b.0 in s.pending && !s.pending[b.0].ambiguous && after.runtime == s.runtime &&
            s.pending[b.0].eventFloor < b.1.eventSequence <= after.floor
  {
    hide Network, Bound;
    var id, target := BoundedIdentifier(d.requestId), canon(d.url);
    var p := Completing(s.pending[id.value], target.value, d);
    FreshResponse(s.(pending := s.pending[id.value := p]), p, d, st, now);
  }

  // ---- the other operations ----

  lemma CommitSubdues(canon: Canon, s: Store, d: Details, reason: Reason, pick: Option<string>, now: real)
    requires pick.Some? ==> pick.value in s.pending
    ensures Subdued(s, Commit(canon, s, d, reason, pick, now).store)
  {
    hide Commit;
    CommitShape(canon, s, d, reason, pick, now);
  }

  lemma MaintenanceSubdues(s: Store, st: Status, seconds: int, now: real)
    ensures var r := BeginMaintenance(s, st, now).store;
            (r.runtime == s.runtime ==> Subdued(s, r)) && (r.runtime != s.runtime ==> r.pending == map[])
    ensures var r := CompleteMaintenance(s, st, seconds, now).store;
            (r.runtime == s.runtime ==> Subdued(s, r)) && (r.runtime != s.runtime ==> r.pending == map[])
  {
    hide EnsureRuntime;
    EnsureCases(s, st, now);
  }

  lemma RestartSubdues(canon: Canon, s: Store, snap: Snapshot, now: real)
    requires IsSnapshotOf(snap, s) && Sane(s)
    ensures var r := Restore(canon, snap, now).store;
            (r.runtime == s.runtime ==> Subdued(s, r)) && (r.runtime != s.runtime ==> r.pending == map[])
  {
    RestoredParts(canon, snap, now);
    if s.runtime.Some? {
      hide Restore;
      assert Restore(canon, snap, now).store.floor >= s.floor;
    }
  }

  lemma FailuresSubdue(canon: Canon, s: Store, d: Details)
    ensures Subdued(s, FailNavigation(canon, s, d).store)
    ensures Subdued(s, FailRequest(s, d).store)
  {
  }

  lemma RemoveTabSubdues(s: Store, tabId: int)
    ensures Subdued(s, RemoveTab(s, tabId).store)
  {
  }

  lemma ReplaceTabSubdues(s: Store, tabId: int, otherId: int)
    ensures Subdued(s, ReplaceTab(s, tabId, otherId).store)
  {
    hide MoveTab;
    if ValidTabId(tabId).Some? && ValidTabId(otherId).Some? && otherId in s.tabs {
      MoveTabKeepsRequests(s, tabId, otherId);
    }
  }

  lemma MoveTabKeepsRequests(s: Store, added: nat, removed: nat)
    requires removed in s.tabs
    ensures var r := MoveTab(s, added, removed);
            r.pending == s.pending && r.runtime == s.runtime && r.floor == s.floor && r.epoch == s.epoch
  {
  }

  lemma RedirectSubdues(canon: Canon, s: Store, d: Details)
    ensures Subdued(s, Redirect(canon, s, d).store)
  {
    hide Subdued, MarkHostConflicts;
    DroppedSubdues(s, "");
    var id, target := BoundedIdentifier(d.requestId), canon(d.redirectUrl);
    if id.Some? && id.value in s.pending && target.Some? {
      var p := s.pending[id.value];
      RetargetSubdues(s, id.value,
        p.(target := target.value, documentId := p.documentId.OrElse(BoundedIdentifier(d.documentId))));
    }
  }

  /** A step from s leaves the requests as they were, or drops them with the runtime. */
  ghost predicate SubdiesOrResets(s: Store, r: Store) {
    (r.runtime == s.runtime ==> Subdued(s, r)) && (r.runtime != s.runtime ==> r.pending == map[])
  }

  lemma OtherSubdues(canon: Canon, s: Store, e: Event, now: real)
    requires Enabled(canon, s, e) && !e.BeginEvent? && !e.CompleteEvent?
    requires Sane(s)
    ensures SubdiesOrResets(s, Effect(canon, s, e, now).store)
  {
    hide Sane, Subdued, Begin, Redirect, FailRequest, Complete, Commit, FailNavigation, RemoveTab, ReplaceTab,
      BeginMaintenance, CompleteMaintenance, EnsureRuntime, Restore, IsSnapshotOf, IsPendingForDocument;
    var r := Effect(canon, s, e, now).store;
    match e {
      case RedirectEvent(d) => RedirectSubdues(canon, s, d); SubduedRuntime(s, r);
      case CommitEvent(d, reason, pick) => CommitSubdues(canon, s, d, reason, pick, now); SubduedRuntime(s, r);
      case FailRequestEvent(d) => FailuresSubdue(canon, s, d); SubduedRuntime(s, r);
      case FailNavigationEvent(d) => FailuresSubdue(canon, s, d); SubduedRuntime(s, r);
      case RemoveTabEvent(tabId) => RemoveTabSubdues(s, tabId); SubduedRuntime(s, r);
      case ReplaceTabEvent(addedId, removedId) =>
        ReplaceTabSubdues(s, addedId, removedId); SubduedRuntime(s, r);
      case BeginMaintenanceEvent(st) => MaintenanceSubdues(s, st, 0, now);
      case CompleteMaintenanceEvent(st, seconds) => MaintenanceSubdues(s, st, seconds, now);
      case QueryEvent(st) => EnsureSubdues(s, st, now);
      case RestartEvent(snapshot) => RestartSubdues(canon, s, snapshot, now);
    }
  }

  lemma StepKeeps(canon: Canon, a: Audit, s: Store, e: Event, now: real, after: Store)
    requires Inv(a, s) && Next(canon, s, e, now, after) && Sane(s)
    ensures Inv(Observe(canon, a, s, e, now, after), after)
  {
    match e {
      case BeginEvent(d, st) => BeginKeeps(canon, a, s, d, st, now, after);
      case CompleteEvent(d, st) => CompleteKeeps(canon, a, s, d, st, now, after);
      case _ => OtherKeeps(canon, a, s, e, now, after);
    }
  }

  lemma OtherKeeps(canon: Canon, a: Audit, s: Store, e: Event, now: real, after: Store)
    requires Inv(a, s) && Next(canon, s, e, now, after) && Sane(s)
    requires !e.BeginEvent? && !e.CompleteEvent?
    ensures Inv(Observe(canon, a, s, e, now, after), after)
  {
    hide Inv, Advance, Subdued, Effect;
    var out := Effect(canon, s, e, now);
    OtherSubdues(canon, s, e, now);
    EvictedPending(out, after);
    if out.store.runtime == s.runtime {
      SubduedThenPruned(s, out, after);
      SubduedAdvances(a, s, after);
    } else {
      ResetAdvances(a.births, after);
    }
  }

  lemma {:induction false} RunKeeps(canon: Canon, steps: seq<Step>)
    requires IsRun(canon, EMPTY, steps)
    ensures Inv(AuditOf(canon, EMPTY, steps), Last(EMPTY, steps))
  {
    hide Next, Observe;
    if steps != [] {
      var n := |steps| - 1;
      RunKeeps(canon, steps[..n]);
      RunSane(canon, steps[..n]);
      StepKeeps(canon, AuditOf(canon, EMPTY, steps[..n]), Last(EMPTY, steps[..n]), steps[n].event, steps[n].now,
                steps[n].after);
    }
  }

  /** In every run, two requests that stayed on one host never bound the same response since the last
      runtime reset. */
  lemma FreshResponseBoundOnce(canon: Canon, steps: seq<Step>, u: Use, v: Use)
    requires IsRun(canon, EMPTY, steps)
    requires u in AuditOf(canon, EMPTY, steps).uses && v in AuditOf(canon, EMPTY, steps).uses
    requires u.event == v.event && u.host == v.host
    ensures u.birth == v.birth
  {
    hide AuditOf, IsRun;
    RunKeeps(canon, steps);
  }
}
