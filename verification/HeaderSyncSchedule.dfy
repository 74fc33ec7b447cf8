/** extension/src/header-sync-schedule.js: when the next automatic header synchronization may be made. */
module HeaderSyncSchedule {
  import opened Basics
  import opened HeaderStatus

  const AUTOMATIC_HEADER_SYNC_MIN_INTERVAL_MS := 600000
  const HEADER_TARGET_REFRESH_LEAD_MS := 600000
  const HEADER_TARGET_URGENT_RETRY_INTERVAL_MS := 60000
  const HEADER_TARGET_URGENT_RETRY_GRACE_MS := 120000

  datatype Window = Window(network: string, startsAt: int, endsAt: int)

  predicate Safe(n: int) {
    -MAX_SAFE_INTEGER <= n <= MAX_SAFE_INTEGER
  }

  function Max(a: int, b: int): int {
    if a < b then b else a
  }

  function Min(a: int, b: int): int {
    if a < b then a else b
  }

  function AutomaticHeaderSyncDueAt(candidate: Option<HeaderSync>, leadTime: int): Option<int> {
    if !Safe(leadTime) || leadTime < 0 then
      None
    else
      var sync := AuthoritativeHeaderSync(candidate);
      if sync.None? || sync.value.freshness == Present(Stale) || sync.value.freshness == Present(Unknown) ||
         sync.value.targetEvidenceExpired == Present(true)
      then
        Some(0)
      else if !IsUnixSeconds(sync.value.validUntil) || sync.value.validUntil.value > MAX_SAFE_INTEGER / 1000 then
        None
      else
        Some(Max(0, sync.value.validUntil.value * 1000 - leadTime))
  }

  function NextAllowedAt(lastAttemptAt: Option<int>, now: int, minimumInterval: int): Option<int> {
    if !Safe(now) || now < 0 || !Safe(minimumInterval) || minimumInterval < 1 then None
    else if lastAttemptAt.None? || !Safe(lastAttemptAt.value) || lastAttemptAt.value < 0 then Some(now)
    else if lastAttemptAt.value > now then Some(now)
    else if !Safe(lastAttemptAt.value + minimumInterval) then None
    else Some(Max(now, lastAttemptAt.value + minimumInterval))
  }

  function UrgentRetryWindow(candidate: Option<HeaderSync>, leadTime: int, graceTime: int): Option<Window> {
    if !Safe(leadTime) || leadTime < 0 || !Safe(graceTime) || graceTime < 0 then
      None
    else
      var sync := AuthoritativeHeaderSync(candidate);
      if sync.None? || sync.value.freshness != Present(Current) || sync.value.targetEvidenceExpired == Present(true) ||
         !sync.value.validUntil.Present? || sync.value.validUntil.value > (MAX_SAFE_INTEGER - graceTime) / 1000
      then
        None
      else
        var expiresAt := sync.value.validUntil.value * 1000;
        Some(Window(sync.value.network, Max(0, expiresAt - leadTime), expiresAt + graceTime))
  }

  function NormalizedWindow(candidate: Option<Window>, now: int): Option<Window> {
    if candidate.Some? && candidate.value.network != "" && 0 <= candidate.value.startsAt <= candidate.value.endsAt &&
       Safe(candidate.value.endsAt) && Safe(now) && 0 <= now <= candidate.value.endsAt
    then candidate else None
  }

  function CandidateNetwork(candidate: Option<HeaderSync>): Option<string> {
    if candidate.Some? then Some(candidate.value.network) else None
  }

  /** The urgent window that applies now: the candidate's own, or else the retained one of its network. */
  function ApplicableWindow(candidate: Option<HeaderSync>, retained: Option<Window>, now: int): Option<Window> {
    var derived := NormalizedWindow(
      UrgentRetryWindow(candidate, HEADER_TARGET_REFRESH_LEAD_MS, HEADER_TARGET_URGENT_RETRY_GRACE_MS), now);
    var kept := NormalizedWindow(retained, now);
    if derived.Some? then derived
    else if kept.Some? && Some(kept.value.network) == CandidateNetwork(candidate) then kept
    else None
  }

  function NormalizedAttempt(lastAttemptAt: Option<int>, now: int): Option<int> {
    if lastAttemptAt.Some? && Safe(lastAttemptAt.value) && 0 <= lastAttemptAt.value <= now then lastAttemptAt else None
  }

  /** The decision once the deadline has come, under the window that applies. */
  function Allowed(
    window: Option<Window>, last: Option<int>, now: int, minimumInterval: int, urgentInterval: int): Option<int>
  {
    var routine := NextAllowedAt(last, now, minimumInterval);
    if window.Some? && now < window.value.startsAt then
      if routine.None? then Some(window.value.startsAt) else Some(Min(window.value.startsAt, routine.value))
    else if window.Some? && now <= window.value.endsAt then
      if last.None? then Some(now)
      else if Safe(last.value + urgentInterval) && last.value + urgentInterval <= window.value.endsAt then
        Some(Max(now, last.value + urgentInterval))
      else routine
    else routine
  }

  function NextAttemptAt(
    candidate: Option<HeaderSync>, lastAttemptAt: Option<int>, retained: Option<Window>, now: int,
    minimumInterval: int, urgentInterval: int): Option<int>
  {
    if !Safe(now) || now < 0 || !Safe(minimumInterval) || minimumInterval < 1 || !Safe(urgentInterval) ||
      urgentInterval < 1 then
      None
    else
      var dueAt := AutomaticHeaderSyncDueAt(candidate, HEADER_TARGET_REFRESH_LEAD_MS);
      if dueAt.Some? && dueAt.value > now then dueAt
      else Allowed(ApplicableWindow(candidate, retained, now), NormalizedAttempt(lastAttemptAt, now), now,
          minimumInterval, urgentInterval)
  }

  // ---- the time on the fields ----

  /** Evidence whose refresh, ten minutes before it expires, lies ahead. */
  ghost predicate DueAhead(candidate: Option<HeaderSync>, now: int) {
    var sync := AuthoritativeHeaderSync(candidate);
    sync.Some? && sync.value.freshness != Present(Stale) && sync.value.freshness != Present(Unknown) &&
    sync.value.targetEvidenceExpired != Present(true) && IsUnixSeconds(sync.value.validUntil) &&
    sync.value.validUntil.value <= MAX_SAFE_INTEGER / 1000 && now < sync.value.validUntil.value * 1000 - 600000
  }

  /** The urgent window of current evidence: from ten minutes before it expires until two minutes after. */
  ghost predicate IsOwnWindow(w: Window, candidate: Option<HeaderSync>, now: int) {
    var sync := AuthoritativeHeaderSync(candidate);
    sync.Some? && sync.value.freshness == Present(Current) && sync.value.targetEvidenceExpired != Present(true) &&
    sync.value.validUntil.Present? && w.network == sync.value.network && w.network != "" &&
    w.endsAt == sync.value.validUntil.value * 1000 + 120000 && w.endsAt <= MAX_SAFE_INTEGER &&
    w.startsAt == (if w.endsAt < 720000 then 0 else w.endsAt - 720000) && now <= w.endsAt
  }

  /** Without one, the retained window of the candidate's network. */
  ghost predicate IsWindow(w: Window, candidate: Option<HeaderSync>, retained: Option<Window>, now: int) {
    IsOwnWindow(w, candidate, now) ||
    (retained == Some(w) && candidate.Some? && w.network == candidate.value.network && w.network != "" &&
     0 <= w.startsAt <= w.endsAt <= MAX_SAFE_INTEGER && now <= w.endsAt &&
     forall v :: !IsOwnWindow(v, candidate, now))
  }

  /** The next attempt is at the refresh that lies ahead; otherwise at once, but not before the routine interval since
      the last attempt has passed, nor, once an urgent window has started and while it has room, before the urgent
      interval has; a window that starts earlier than the routine time brings it forward to its start. */
  lemma NextAttemptIs(
    candidate: Option<HeaderSync>, lastAttemptAt: Option<int>, retained: Option<Window>, now: int,
    minimumInterval: int, urgentInterval: int)
    returns (w: Option<Window>)
    requires 0 <= now <= MAX_SAFE_INTEGER && 1 <= minimumInterval <= MAX_SAFE_INTEGER &&
             1 <= urgentInterval <= MAX_SAFE_INTEGER
    ensures w.Some? ==> IsWindow(w.value, candidate, retained, now)
    ensures w.None? ==> forall v :: !IsWindow(v, candidate, retained, now)
    ensures var r := NextAttemptAt(candidate, lastAttemptAt, retained, now, minimumInterval, urgentInterval);
            var attempted := lastAttemptAt.Some? && 0 <= lastAttemptAt.value <= now;
            var last := if attempted then lastAttemptAt.value else 0;
            var routine := if !attempted || last + minimumInterval <= now then now else last + minimumInterval;
            var urgent := if !attempted || last + urgentInterval <= now then now else last + urgentInterval;
            if DueAhead(candidate, now) then
              r == Some(AuthoritativeHeaderSync(candidate).value.validUntil.value * 1000 - 600000)
            else if w.Some? && w.value.startsAt <= now && (!attempted || last + urgentInterval <= w.value.endsAt) then
              r == Some(urgent)
            else if w.Some? && now < w.value.startsAt && (w.value.startsAt < routine || routine > MAX_SAFE_INTEGER) then
              r == Some(w.value.startsAt)
            else
              r == if attempted && last + minimumInterval > MAX_SAFE_INTEGER then None else Some(routine)
  {
    hide AuthoritativeHeaderSync, ApplicableWindow, IsWindow;
    w := ApplicableWindow(candidate, retained, now);
    WindowIsTheOne(candidate, retained, now);
    WindowIsWellFormed(candidate, retained, now);
  }

  lemma WindowIsTheOne(candidate: Option<HeaderSync>, retained: Option<Window>, now: int)
    requires 0 <= now <= MAX_SAFE_INTEGER
    ensures var w := ApplicableWindow(candidate, retained, now);
            (w.Some? ==> IsWindow(w.value, candidate, retained, now)) &&
            (w.None? ==> forall v :: !IsWindow(v, candidate, retained, now))
  {
    hide AuthoritativeHeaderSync;
  }

  // ---- fixed points ----

  /** No deadline or attempt is so late that adding the routine interval leaves the safe integers. */
  predicate InRange(
    candidate: Option<HeaderSync>, lastAttemptAt: Option<int>, now: int, minimumInterval: int, urgentInterval: int)
  {
    Safe(now) && 0 <= now && 1 <= minimumInterval <= MAX_SAFE_INTEGER && 1 <= urgentInterval <= MAX_SAFE_INTEGER &&
    (lastAttemptAt.Some? ==> 0 <= lastAttemptAt.value <= now && Safe(lastAttemptAt.value + minimumInterval)) &&
    (candidate.Some? && candidate.value.validUntil.Present? ==>
      candidate.value.validUntil.value <= (MAX_SAFE_INTEGER - HEADER_TARGET_URGENT_RETRY_GRACE_MS) / 1000)
  }

  /** The candidate's own urgent window. */
  function OwnWindow(candidate: Option<HeaderSync>): Option<Window> {
    UrgentRetryWindow(candidate, HEADER_TARGET_REFRESH_LEAD_MS, HEADER_TARGET_URGENT_RETRY_GRACE_MS)
  }

  /** A deadline that lies ahead is where the candidate's own urgent window starts. */
  lemma DeadlineStartsWindow(candidate: Option<HeaderSync>, now: int)
    requires candidate.Some? && candidate.value.validUntil.Present? ==>
      candidate.value.validUntil.value <= (MAX_SAFE_INTEGER - HEADER_TARGET_URGENT_RETRY_GRACE_MS) / 1000
    requires var due := AutomaticHeaderSyncDueAt(candidate, HEADER_TARGET_REFRESH_LEAD_MS);
             due.Some? && due.value > now >= 0
    ensures var due := AutomaticHeaderSyncDueAt(candidate, HEADER_TARGET_REFRESH_LEAD_MS).value;
            var w := OwnWindow(candidate);
            Safe(due) && w.Some? && w.value.startsAt == due && w.value.endsAt == due + 720000 && Safe(w.value.endsAt) &&
            w.value.network != ""
  {
  }

  /** Without a deadline ahead the candidate's own window, if there is one, has started. */
  lemma OwnWindowStarted(candidate: Option<HeaderSync>, now: int)
    requires 0 <= now
    requires var due := AutomaticHeaderSyncDueAt(candidate, HEADER_TARGET_REFRESH_LEAD_MS);
             due.None? || due.value <= now
    ensures OwnWindow(candidate).Some? ==> OwnWindow(candidate).value.startsAt <= now
  {
  }

  /** Without a deadline ahead there is none at any later time either. */
  lemma NoLaterDeadline(
    candidate: Option<HeaderSync>, lastAttemptAt: Option<int>, retained: Option<Window>, now: int, later: int,
    minimumInterval: int, urgentInterval: int)
    requires InRange(candidate, lastAttemptAt, now, minimumInterval, urgentInterval) && now <= later && Safe(later)
    requires var due := AutomaticHeaderSyncDueAt(candidate, HEADER_TARGET_REFRESH_LEAD_MS);
             due.None? || due.value <= now
    ensures NextAttemptAt(candidate, lastAttemptAt, retained, later, minimumInterval, urgentInterval) ==
            Allowed(ApplicableWindow(candidate, retained, later), lastAttemptAt, later, minimumInterval, urgentInterval)
  {
    hide AutomaticHeaderSyncDueAt, ApplicableWindow, Allowed;
  }

  /** A window that applies at t still applies at a later t1 within it. */
  lemma WindowLasts(candidate: Option<HeaderSync>, retained: Option<Window>, t: int, t1: int)
    requires Safe(t1) && t <= t1
    requires var w := ApplicableWindow(candidate, retained, t); w.Some? && t1 <= w.value.endsAt
    ensures ApplicableWindow(candidate, retained, t1) == ApplicableWindow(candidate, retained, t)
  {
    hide UrgentRetryWindow;
  }

  /** Windows only run out: the own one first gives way to the retained one, then there is none. */
  lemma WindowsRunOut(candidate: Option<HeaderSync>, retained: Option<Window>, t: int, t1: int)
    requires Safe(t) && 0 <= t <= t1
    ensures var w, v := ApplicableWindow(candidate, retained, t), ApplicableWindow(candidate, retained, t1);
            (w.None? ==> v.None?) && (v.Some? && v != w ==> v == retained && w == OwnWindow(candidate)) &&
            (w.Some? ==> w == retained || w == OwnWindow(candidate))
  {
    hide UrgentRetryWindow;
  }

  lemma WindowIsWellFormed(candidate: Option<HeaderSync>, retained: Option<Window>, t: int)
    ensures var w := ApplicableWindow(candidate, retained, t);
            w.Some? ==> 0 <= w.value.startsAt <= w.value.endsAt && Safe(w.value.endsAt) && t <= w.value.endsAt
  {
    hide UrgentRetryWindow;
  }

  /** The window that applies at t runs out before the routine time, and then another one applies that puts the
      attempt off to its urgent time.  This needs an urgent interval above the routine one. */
  predicate HandsOver(
    candidate: Option<HeaderSync>, last: Option<int>, retained: Option<Window>, t: int, minimumInterval: int,
      urgentInterval: int)
  {
    last.Some? && var w := ApplicableWindow(candidate, retained, t);
    w.Some? && w.value.endsAt < last.value + urgentInterval &&
    var r := Max(t, last.value + minimumInterval); var v := ApplicableWindow(candidate, retained, r);
    v.Some? && v != w && v.value.startsAt <= r < last.value + urgentInterval <= v.value.endsAt
  }

  /** Where no window lies ahead, the decision is final, asked again at its time, unless a window hands over; then
      it is final the second time. */
  lemma StartedIsFixed(
    candidate: Option<HeaderSync>, last: Option<int>, retained: Option<Window>, t: int, minimumInterval: int,
      urgentInterval: int)
    returns (r: int, r2: int)
    requires InRange(candidate, last, t, minimumInterval, urgentInterval)
    requires var w := ApplicableWindow(candidate, retained, t); w.None? || w.value.startsAt <= t
    ensures Allowed(ApplicableWindow(candidate, retained, t), last, t, minimumInterval, urgentInterval) == Some(r)
    ensures Allowed(ApplicableWindow(candidate, retained, r), last, r, minimumInterval, urgentInterval) == Some(r2)
    ensures Allowed(ApplicableWindow(candidate, retained, r2), last, r2, minimumInterval, urgentInterval) == Some(r2)
    ensures t <= r <= r2 && Safe(r2)
    ensures r != r2 <==> HandsOver(candidate, last, retained, t, minimumInterval, urgentInterval)
  {
    hide ApplicableWindow;
    WindowIsWellFormed(candidate, retained, t);
    var w := ApplicableWindow(candidate, retained, t);
    r := Allowed(w, last, t, minimumInterval, urgentInterval).value;
    WindowIsWellFormed(candidate, retained, r);
    WindowsRunOut(candidate, retained, t, r);
    var v := ApplicableWindow(candidate, retained, r);
    if w.Some? && r <= w.value.endsAt { WindowLasts(candidate, retained, t, r); }
    r2 := Allowed(v, last, r, minimumInterval, urgentInterval).value;
    if v.Some? && r2 <= v.value.endsAt { WindowLasts(candidate, retained, r, r2); }
  }

  /** Re-evaluating at the time that was returned reaches a fixed point within two re-evaluations, exactly unless
      a deadline lies ahead whose window hands over; within three it always does. */
  lemma FixedWithinTwo(
    candidate: Option<HeaderSync>, last: Option<int>, retained: Option<Window>, now: int, minimumInterval: int,
      urgentInterval: int)
    returns (t1: int, t2: int, t3: int)
    requires InRange(candidate, last, now, minimumInterval, urgentInterval)
    ensures NextAttemptAt(candidate, last, retained, now, minimumInterval, urgentInterval) == Some(t1)
    ensures NextAttemptAt(candidate, last, retained, t1, minimumInterval, urgentInterval) == Some(t2)
    ensures NextAttemptAt(candidate, last, retained, t2, minimumInterval, urgentInterval) == Some(t3)
    ensures NextAttemptAt(candidate, last, retained, t3, minimumInterval, urgentInterval) == Some(t3)
    ensures now <= t1 <= t2 <= t3 && Safe(t3)
    ensures var due := AutomaticHeaderSyncDueAt(candidate, HEADER_TARGET_REFRESH_LEAD_MS);
            t2 != t3 <==> due.Some? && due.value > now &&
                          HandsOver(candidate, last, retained, due.value, minimumInterval, urgentInterval)
    ensures urgentInterval <= minimumInterval ==> t2 == t3
  {
    hide AutomaticHeaderSyncDueAt, ApplicableWindow, Allowed, UrgentRetryWindow;
    var due := AutomaticHeaderSyncDueAt(candidate, HEADER_TARGET_REFRESH_LEAD_MS);
    if due.Some? && due.value > now {
      DeadlineStartsWindow(candidate, now);
      t1 := due.value;
      OwnWindowApplies(candidate, retained, t1);
      t2, t3 := SettledAt(candidate, last, retained, t1, minimumInterval, urgentInterval);
    } else {
      NoLaterDeadline(candidate, last, retained, now, now, minimumInterval, urgentInterval);
      WindowIsWellFormed(candidate, retained, now);
      var w := ApplicableWindow(candidate, retained, now);
      if w.Some? && now < w.value.startsAt {
        t1, t2 := FixedWhenAhead(candidate, last, retained, now, minimumInterval, urgentInterval);
        t3 := t2;
      } else {
        t1, t2 := SettledAt(candidate, last, retained, now, minimumInterval, urgentInterval);
        t3 := t2;
      }
    }
  }

  /** A window that lies ahead is the retained one, and nothing follows it. */
  lemma FixedWhenAhead(
    candidate: Option<HeaderSync>, last: Option<int>, retained: Option<Window>, now: int, minimumInterval: int,
      urgentInterval: int)
    returns (t1: int, t2: int)
    requires InRange(candidate, last, now, minimumInterval, urgentInterval)
    requires var due := AutomaticHeaderSyncDueAt(candidate, HEADER_TARGET_REFRESH_LEAD_MS);
             due.None? || due.value <= now
    requires var w := ApplicableWindow(candidate, retained, now); w.Some? && now < w.value.startsAt
    ensures NextAttemptAt(candidate, last, retained, now, minimumInterval, urgentInterval) == Some(t1) &&
            now <= t1 <= t2
    ensures NextAttemptAt(candidate, last, retained, t1, minimumInterval, urgentInterval) == Some(t2) && Safe(t2)
    ensures NextAttemptAt(candidate, last, retained, t2, minimumInterval, urgentInterval) == Some(t2)
  {
    hide AutomaticHeaderSyncDueAt, ApplicableWindow, Allowed, UrgentRetryWindow;
    var w := ApplicableWindow(candidate, retained, now);
    OwnWindowStarted(candidate, now);
    WindowIsWellFormed(candidate, retained, now);
    WindowsRunOut(candidate, retained, now, now);
    NoLaterDeadline(candidate, last, retained, now, now, minimumInterval, urgentInterval);
    t1 := AheadIsSoon(w, last, now, minimumInterval, urgentInterval);
    NoLaterDeadline(candidate, last, retained, now, t1, minimumInterval, urgentInterval);
    WindowLasts(candidate, retained, now, t1);
    if t1 == w.value.startsAt {
      var t3;
      t2, t3 := SettledAt(candidate, last, retained, t1, minimumInterval, urgentInterval);
      NothingFollowsRetained(candidate, last, retained, t1, minimumInterval, urgentInterval);
    } else {
      t2 := t1;
    }
  }

  lemma NothingFollowsRetained(
    candidate: Option<HeaderSync>, last: Option<int>, retained: Option<Window>, t: int, minimumInterval: int,
      urgentInterval: int)
    requires Safe(t) && 0 <= t && ApplicableWindow(candidate, retained, t) == retained &&
             retained != OwnWindow(candidate)
    ensures !HandsOver(candidate, last, retained, t, minimumInterval, urgentInterval)
  {
    hide ApplicableWindow, UrgentRetryWindow;
    if last.Some? {
      WindowsRunOut(candidate, retained, t, Max(t, last.value + minimumInterval));
    }
  }

  lemma AheadIsSoon(w: Option<Window>, last: Option<int>, now: int, minimumInterval: int, urgentInterval: int)
    returns (t: int)
    requires Safe(now) && 0 <= now && 1 <= minimumInterval <= MAX_SAFE_INTEGER
    requires last.Some? ==> 0 <= last.value <= now && Safe(last.value + minimumInterval)
    requires w.Some? && now < w.value.startsAt <= w.value.endsAt && Safe(w.value.endsAt)
    ensures Allowed(w, last, now, minimumInterval, urgentInterval) == Some(t) && now <= t <= w.value.startsAt
    ensures t < w.value.startsAt ==> Allowed(w, last, t, minimumInterval, urgentInterval) == Some(t)
  {
    t := Allowed(w, last, now, minimumInterval, urgentInterval).value;
  }

  lemma OwnWindowApplies(candidate: Option<HeaderSync>, retained: Option<Window>, t: int)
    requires var w := OwnWindow(candidate);
             w.Some? && w.value.network != "" && 0 <= w.value.startsAt == t <= w.value.endsAt && Safe(w.value.endsAt)
    ensures ApplicableWindow(candidate, retained, t) == OwnWindow(candidate)
  {
    hide UrgentRetryWindow;
  }

  lemma SettledAt(
    candidate: Option<HeaderSync>, last: Option<int>, retained: Option<Window>, t: int, minimumInterval: int,
      urgentInterval: int)
    returns (r: int, r2: int)
    requires InRange(candidate, last, t, minimumInterval, urgentInterval)
    requires var due := AutomaticHeaderSyncDueAt(candidate, HEADER_TARGET_REFRESH_LEAD_MS); due.None? || due.value <= t
    requires var w := ApplicableWindow(candidate, retained, t); w.None? || w.value.startsAt <= t
    ensures NextAttemptAt(candidate, last, retained, t, minimumInterval, urgentInterval) == Some(r)
    ensures NextAttemptAt(candidate, last, retained, r, minimumInterval, urgentInterval) == Some(r2)
    ensures NextAttemptAt(candidate, last, retained, r2, minimumInterval, urgentInterval) == Some(r2)
    ensures t <= r <= r2 && Safe(r2)
    ensures r != r2 <==> HandsOver(candidate, last, retained, t, minimumInterval, urgentInterval)
  {
    hide AutomaticHeaderSyncDueAt, ApplicableWindow, Allowed, HandsOver;
    r, r2 := StartedIsFixed(candidate, last, retained, t, minimumInterval, urgentInterval);
    NoLaterDeadline(candidate, last, retained, t, t, minimumInterval, urgentInterval);
    NoLaterDeadline(candidate, last, retained, t, r, minimumInterval, urgentInterval);
    NoLaterDeadline(candidate, last, retained, t, r2, minimumInterval, urgentInterval);
  }

  /** With an urgent interval of fifty minutes and a routine one of thirty-three, a third re-evaluation changes the
      time once more. */
  lemma ThirdReevaluationMatters() returns (candidate: Option<HeaderSync>, retained: Option<Window>)
    ensures NextAttemptAt(candidate, Some(9000000), retained, 9000000, 2000000, 3000000) == Some(9400000)
    ensures NextAttemptAt(candidate, Some(9000000), retained, 9400000, 2000000, 3000000) == Some(11000000)
    ensures NextAttemptAt(candidate, Some(9000000), retained, 11000000, 2000000, 3000000) == Some(12000000)
  {
    var h := HeaderSync(
      "regtest", true, Present(10), Present(10), Present(10), Present(10), Present(0), Present(Current), Present(2),
      Present(CorroboratedPeers), Present(3), Present(false), Present(10000), Present(5), Present(10), Present(10),
      Present(0),
      Present(true));
    candidate, retained := Some(h), Some(Window("regtest", 11000000, 12000000));
    assert AuthoritativeHeaderSync(candidate) == candidate;
    assert OwnWindow(candidate) == Some(Window("regtest", 9400000, 10120000));
    hide AuthoritativeHeaderSync;
  }

  // ---- spacing of automatic attempts ----

  /** An automatic attempt: what was known when it was made, and when. */
  datatype Attempt = Attempt(candidate: Option<HeaderSync>, retained: Option<Window>, at: int)

  predicate IsAllowed(a: Attempt, last: Option<int>) {
    NextAttemptAt(a.candidate, last, a.retained, a.at, AUTOMATIC_HEADER_SYNC_MIN_INTERVAL_MS,
                  HEADER_TARGET_URGENT_RETRY_INTERVAL_MS) == Some(a.at)
  }

  predicate IsUrgent(a: Attempt) {
    var w := ApplicableWindow(a.candidate, a.retained, a.at);
    w.Some? && w.value.startsAt <= a.at <= w.value.endsAt
  }

  /** A run of attempts: each is made where the decision is fixed, given the one before it, on a clock that
      does not run back. */
  predicate IsAttemptRun(attempts: seq<Attempt>) {
    (forall i :: 0 <= i < |attempts| ==> 0 <= attempts[i].at && Safe(attempts[i].at)) &&
    forall i :: 0 < i < |attempts| ==>
      attempts[i - 1].at <= attempts[i].at && IsAllowed(attempts[i], Some(attempts[i - 1].at))
  }

  /** The time returned is never past, so an attempt that is not put off is made at a fixed point. */
  lemma NeverInThePast(
    candidate: Option<HeaderSync>, last: Option<int>, retained: Option<Window>, now: int, minimumInterval: int,
      urgentInterval: int)
    requires var r := NextAttemptAt(candidate, last, retained, now, minimumInterval, urgentInterval);
             r.Some? && r.value <= now
    ensures NextAttemptAt(candidate, last, retained, now, minimumInterval, urgentInterval) == Some(now)
  {
    hide AutomaticHeaderSyncDueAt, ApplicableWindow;
  }

  lemma OneInterval(a: Attempt, last: int)
    requires IsAllowed(a, Some(last)) && 0 <= last <= a.at && Safe(a.at)
    ensures a.at >= last + HEADER_TARGET_URGENT_RETRY_INTERVAL_MS
    ensures !IsUrgent(a) ==> a.at >= last + AUTOMATIC_HEADER_SYNC_MIN_INTERVAL_MS
  {
    hide AutomaticHeaderSyncDueAt, ApplicableWindow;
  }

  /** Over a run, attempts i and j are at least j - i minutes apart, and neighbours ten minutes unless the
      later one is urgent. */
  lemma {:induction false} AttemptsAreSpaced(attempts: seq<Attempt>, i: nat, j: nat)
    requires IsAttemptRun(attempts) && i < j < |attempts|
    ensures attempts[j].at - attempts[i].at >= (j - i) * HEADER_TARGET_URGENT_RETRY_INTERVAL_MS
    ensures !IsUrgent(attempts[j]) ==> attempts[j].at - attempts[j - 1].at >= AUTOMATIC_HEADER_SYNC_MIN_INTERVAL_MS
    decreases j
  {
    hide IsAllowed, IsUrgent;
    OneInterval(attempts[j], attempts[j - 1].at);
    if i < j - 1 {
      AttemptsAreSpaced(attempts, i, j - 1);
    }
  }
}
