/** The per-document admission state of extension/src/wallet-provider-router.js: replay defence and the
    sliding rate windows. */
module ProviderDocument {
  const MAX_PENDING_PER_DOCUMENT := 16
  const MAX_SEEN_REQUEST_IDS := 512
  const READ_RATE_PER_MINUTE := 120
  const MUTATION_RATE_PER_MINUTE := 20
  const MUTATING_METHOD_RATE_PER_MINUTE := 10
  const RATE_WINDOW_MS := 60000

  const MUTATING_PREFIXES := [
    "wallet_enable", "wallet_disable", "wallet_request", "wallet_revoke", "wallet_lock", "hns_request", "hns_send",
    "hns_import", "hns_transfer", "hns_finalize", "hns_sign", "asset_send", "nameMarket_create", "nameMarket_cancel",
    "nameMarket_accept", "nameMarket_finalize", "nameMarket_recover", "swap_publish", "swap_cancel", "swap_request",
    "swap_accept", "swap_redeem", "swap_refund"]

  predicate Mutating(verb: string) {
    exists i :: 0 <= i < |MUTATING_PREFIXES| && MUTATING_PREFIXES[i] <= verb
  }

  /** The methods that mutate are those of these families. */
  lemma MutatingIs(verb: string)
    ensures Mutating(verb) <==>
              "wallet_enable" <= verb || "wallet_disable" <= verb || "wallet_request" <= verb ||
              "wallet_revoke" <= verb || "wallet_lock" <= verb || "hns_request" <= verb || "hns_send" <= verb ||
              "hns_import" <= verb || "hns_transfer" <= verb || "hns_finalize" <= verb || "hns_sign" <= verb ||
              "asset_send" <= verb || "nameMarket_create" <= verb || "nameMarket_cancel" <= verb ||
              "nameMarket_accept" <= verb || "nameMarket_finalize" <= verb || "nameMarket_recover" <= verb ||
              "swap_publish" <= verb || "swap_cancel" <= verb || "swap_request" <= verb || "swap_accept" <= verb ||
              "swap_redeem" <= verb || "swap_refund" <= verb
  {
    hide Mutating;
    assert |MUTATING_PREFIXES| == 23;
    Enumerated(verb);
  }

  lemma Enumerated(verb: string)
    requires |MUTATING_PREFIXES| == 23
    ensures var p := MUTATING_PREFIXES;
            Mutating(verb) <==>
              p[0] <= verb || p[1] <= verb || p[2] <= verb || p[3] <= verb || p[4] <= verb || p[5] <= verb ||
              p[6] <= verb || p[7] <= verb || p[8] <= verb || p[9] <= verb || p[10] <= verb || p[11] <= verb ||
              p[12] <= verb || p[13] <= verb || p[14] <= verb || p[15] <= verb || p[16] <= verb || p[17] <= verb ||
              p[18] <= verb || p[19] <= verb || p[20] <= verb || p[21] <= verb || p[22] <= verb
  {
    hide MUTATING_PREFIXES;
  }

  datatype Request = Request(sequence: int, id: string, verb: string)

  datatype Refusal =
    UnsupportedMethod | ReplayedSequence | ReplayedIdentifier | ReplayWindowExhausted | TooManyPending | RateLimited

  datatype Admission = Admitted | Refused(refusal: Refusal)

  /** An admitted request and when it was admitted. */
  datatype Entry = Entry(request: Request, at: int)

  // ---- sliding windows ----

  /** The times of those entries that a window is about. */
  function Times(log: seq<Entry>, about: Entry -> bool): seq<int> {
    if log == [] then []
    else
      var rest := Times(log[..|log| - 1], about);
      if about(log[|log| - 1]) then rest + [log[|log| - 1].at] else rest
  }

  /** The window is what is left of the times once the oldest, all a minute old, are dropped. */
  ghost predicate IsWindow(window: seq<int>, times: seq<int>, clock: int) {
    |window| <= |times| && window == times[|times| - |window|..] &&
    forall i :: 0 <= i < |times| - |window| ==> times[i] <= clock - RATE_WINDOW_MS
  }

  ghost predicate Spaced(times: seq<int>, limit: nat) {
    (forall i, j :: 0 <= i < j < |times| ==> times[i] <= times[j]) &&
    forall i :: 0 <= i < |times| - limit ==> times[i + limit] - times[i] >= RATE_WINDOW_MS
  }

  /** pruneWindow: the front entries that are a minute old go. */
  method PruneWindow(window: seq<int>, now: int, ghost times: seq<int>, ghost clock: int) returns (pruned: seq<int>)
    requires IsWindow(window, times, clock) && clock <= now
    ensures IsWindow(pruned, times, now)
    ensures pruned != [] ==> pruned[0] > now - RATE_WINDOW_MS
  {
    pruned := window;
    while |pruned| > 0 && pruned[0] <= now - RATE_WINDOW_MS
      invariant IsWindow(pruned, times, now)
    {
      pruned := pruned[1..];
    }
  }

  /** With the window below its limit, one more entry keeps the spacing. */
  lemma PushKeepsSpacing(window: seq<int>, times: seq<int>, now: int, limit: nat)
    requires IsWindow(window, times, now) && Spaced(times, limit) && |window| < limit
    requires forall i :: 0 <= i < |times| ==> times[i] <= now
    ensures IsWindow(window + [now], times + [now], now) && Spaced(times + [now], limit)
  {
  }

  /** The entries of one half-open minute. */
  ghost function Within(times: seq<int>, start: int): set<int> {
    set i | 0 <= i < |times| && start <= times[i] < start + 60000
  }

  lemma IntervalSize(s: set<int>, low: int, size: nat)
    requires forall i :: i in s ==> low <= i < low + size
    ensures |s| <= size
    decreases size
  {
    if size == 0 {
      assert s == {} by { assert forall i :: i !in s;
    }
    } else {
      var last := low + size - 1;
      IntervalSize(s - {last}, low, size - 1);
      assert s <= (s - {last}) + {last};
      if last in s { assert |s| == |s - {last}| + 1; } else { assert s - {last} == s; }
    }
  }

  lemma FarApart(times: seq<int>, limit: nat, low: int, i: int)
    requires Spaced(times, limit) && 0 <= low && low + limit <= i < |times|
    ensures times[i] - times[low] >= RATE_WINDOW_MS
  {
    assert times[low + limit] - times[low] >= RATE_WINDOW_MS;
    assert low + limit == i || times[low + limit] <= times[i];
  }

  /** Spaced times have at most the limit in any half-open minute. */
  lemma SpacedMeansBounded(times: seq<int>, limit: nat, start: int)
    requires Spaced(times, limit)
    ensures |Within(times, start)| <= limit
  {
    var s := Within(times, start);
    if s != {} {
      var low := First(times, start);
      forall i | i in s ensures low <= i < low + limit {
        if i >= low + limit { FarApart(times, limit, low, i); }
      }
      IntervalSize(s, low, limit);
    }
  }

  lemma First(times: seq<int>, start: int) returns (low: int)
    requires Within(times, start) != {}
    ensures low in Within(times, start) && forall i :: i in Within(times, start) ==> low <= i
  {
    var s := Within(times, start);
    low :| low in s;
    while exists i :: i in s && i < low
      invariant low in s
      decreases low
    {
      var earlier :| earlier in s && earlier < low;
      low := earlier;
    }
  }

  /** How many of the times are of the last minute. */
  ghost function Recent(times: seq<int>, now: int): nat {
    |Within(times, now - 59999)|
  }

  lemma RangeSize(s: set<int>, low: int, size: nat)
    requires forall i :: i in s <==> low <= i < low + size
    ensures |s| == size
    decreases size
  {
    if size == 0 {
      assert s == {} by { assert forall i :: i !in s; }
    } else {
      var last := low + size - 1;
      RangeSize(s - {last}, low, size - 1);
      assert s == (s - {last}) + {last};
    }
  }

  /** A window just pruned holds the last minute's times. */
  lemma WindowIsRecent(window: seq<int>, times: seq<int>, now: int, limit: nat)
    requires IsWindow(window, times, now) && Spaced(times, limit) && forall i :: 0 <= i < |times| ==> times[i] <= now
    requires window != [] ==> window[0] > now - RATE_WINDOW_MS
    ensures |window| == Recent(times, now)
  {
    var dropped := |times| - |window|;
    assert window != [] ==> times[dropped] == window[0];
    RangeSize(Within(times, now - RATE_WINDOW_MS + 1), dropped, |window|);
  }

  // ---- what an entry counts against ----

  function IsMutation(e: Entry): bool {
    Mutating(e.request.verb)
  }

  function IsRead(e: Entry): bool {
    !Mutating(e.request.verb)
  }

  function OfMethod(verb: string): Entry -> bool {
    (e: Entry) => e.request.verb == verb
  }

  function MethodLimit(verb: string): nat {
    if Mutating(verb) then MUTATING_METHOD_RATE_PER_MINUTE else READ_RATE_PER_MINUTE
  }

  lemma {:induction false} TimesFromLog(log: seq<Entry>, about: Entry -> bool, clock: int)
    requires forall i :: 0 <= i < |log| ==> log[i].at <= clock
    ensures forall i :: 0 <= i < |Times(log, about)| ==> Times(log, about)[i] <= clock
  {
    if log != [] {
      TimesFromLog(log[..|log| - 1], about, clock);
    }
  }

  /** Before anything is admitted. */
  lemma NoTimes(clock: int)
    ensures forall about :: Times([], about) == []
    ensures IsWindow([], [], clock) && forall limit :: Spaced([], limit)
  {
  }

  lemma TimesOfMore(log: seq<Entry>, e: Entry, about: Entry -> bool)
    ensures Times(log + [e], about) == if about(e) then Times(log, about) + [e.at] else Times(log, about)
  {
    assert (log + [e])[..|log|] == log;
  }

  /** One more entry, counted in its window if that is about it and is below the limit. */
  lemma OneMoreEntry(log: seq<Entry>, e: Entry, about: Entry -> bool, window: seq<int>, limit: nat)
    requires IsWindow(window, Times(log, about), e.at) && Spaced(Times(log, about), limit)
    requires (forall i :: 0 <= i < |log| ==> log[i].at <= e.at) && (about(e) ==> |window| < limit)
    ensures var more := Times(log + [e], about);
            Spaced(more, limit) && IsWindow(if about(e) then window + [e.at] else window, more, e.at)
  {
    hide Times, IsWindow, Spaced;
    TimesFromLog(log, about, e.at);
    TimesOfMore(log, e, about);
    if about(e) { PushKeepsSpacing(window, Times(log, about), e.at, limit); }
  }

  class ProviderDocument {
    const methods: set<string>
    var lastSequence: int
    var seenRequestIds: set<string>
    var pending: set<string>
    var readWindow: seq<int>
    var mutationWindow: seq<int>
    var methodWindows: map<string, seq<int>>
    // History: the admitted requests in their order, and the latest time of an admission decision.
    ghost var log: seq<Entry>
    ghost var clock: int

    ghost predicate NoReplay()
      reads this`log, this`lastSequence, this`seenRequestIds
    {
      (forall i, j :: 0 <= i < j < |log| ==>
        log[i].request.sequence < log[j].request.sequence && log[i].request.id != log[j].request.id) &&
      (forall i :: 0 <= i < |log| ==> log[i].request.sequence <= lastSequence && log[i].request.id in seenRequestIds)
    }

    function MethodWindow(verb: string): seq<int>
      reads this`methodWindows
    {
      if verb in methodWindows then methodWindows[verb] else []
    }

    ghost predicate WindowsAgree()
      reads this`log, this`clock, this`readWindow, this`mutationWindow, this`methodWindows
    {
      (forall i :: 0 <= i < |log| ==> log[i].at <= clock) &&
      IsWindow(mutationWindow, Times(log, IsMutation), clock) && IsWindow(readWindow, Times(log, IsRead), clock) &&
      forall verb :: IsWindow(MethodWindow(verb), Times(log, OfMethod(verb)), clock)
    }

    ghost predicate RatesKept()
      reads this`log
    {
      Spaced(Times(log, IsMutation), MUTATION_RATE_PER_MINUTE) && Spaced(Times(log, IsRead), READ_RATE_PER_MINUTE) &&
      forall verb :: Spaced(Times(log, OfMethod(verb)), MethodLimit(verb))
    }

    ghost predicate Valid()
      reads this
    {
      NoReplay() && WindowsAgree() && RatesKept() &&
      pending <= seenRequestIds && |pending| <= MAX_PENDING_PER_DOCUMENT && |seenRequestIds| <= MAX_SEEN_REQUEST_IDS
    }

    constructor (methods: set<string>, now: int)
      ensures Valid() && this.methods == methods && lastSequence == 0 && log == [] && clock == now && pending == {}
    {
      this.methods := methods;
      lastSequence, seenRequestIds, pending := 0, {}, {};
      readWindow, mutationWindow, methodWindows := [], [], map[];
      log, clock := [], now;
      new;
      hide Times, IsWindow, Spaced;
      NoTimes(now);
    }

    method PruneGlobal(mutation: bool, now: int) returns (window: seq<int>)
      requires WindowsAgree() && clock <= now
      modifies this`readWindow, this`mutationWindow, this`clock
      ensures WindowsAgree() && clock == now
      ensures window == if mutation then mutationWindow else readWindow
      ensures window != [] ==> window[0] > now - RATE_WINDOW_MS
    {
      hide Times, IsWindow;
      WindowsLater(now);
      if mutation {
        window := PruneWindow(mutationWindow, now, Times(log, IsMutation), clock);
        mutationWindow := window;
      } else {
        window := PruneWindow(readWindow, now, Times(log, IsRead), clock);
        readWindow := window;
      }
      clock := now;
    }

    /** Windows stay windows as the clock goes on. */
    lemma WindowsLater(now: int)
      requires WindowsAgree() && clock <= now
      ensures forall i :: 0 <= i < |log| ==> log[i].at <= now
      ensures IsWindow(mutationWindow, Times(log, IsMutation), now) && IsWindow(readWindow, Times(log, IsRead), now)
      ensures forall verb :: IsWindow(MethodWindow(verb), Times(log, OfMethod(verb)), now)
    {
      hide Times;
    }

    method PruneMethod(verb: string, now: int) returns (window: seq<int>)
      requires WindowsAgree() && clock == now
      modifies this`methodWindows
      ensures WindowsAgree() && window == MethodWindow(verb)
      ensures window != [] ==> window[0] > now - RATE_WINDOW_MS
    {
      window := PruneWindow(MethodWindow(verb), now, Times(log, OfMethod(verb)), clock);
      if verb in methodWindows { methodWindows := methodWindows[verb := window]; }
    }

    /** The request is entered in its global window and in the window of its method. */
    method Push(request: Request, now: int)
      requires WindowsAgree() && RatesKept() && clock == now
      requires |MethodWindow(request.verb)| < MethodLimit(request.verb)
      requires if Mutating(request.verb) then |mutationWindow| < MUTATION_RATE_PER_MINUTE
               else |readWindow| < READ_RATE_PER_MINUTE
      modifies this`readWindow, this`mutationWindow, this`methodWindows, this`log
      ensures WindowsAgree() && RatesKept() && log == old(log) + [Entry(request, now)]
    {
      hide Mutating, Times, IsWindow, Spaced;
      ghost var e := Entry(request, now);
      var verb := request.verb;
      OneMoreEntry(log, e, IsMutation, mutationWindow, MUTATION_RATE_PER_MINUTE);
      OneMoreEntry(log, e, IsRead, readWindow, READ_RATE_PER_MINUTE);
      forall v: string
        ensures Spaced(Times(log + [e], OfMethod(v)), MethodLimit(v))
        ensures IsWindow(if v == verb then MethodWindow(v) + [now] else MethodWindow(v), Times(log + [e], OfMethod(v)),
                         now)
      {
        OneMoreEntry(log, e, OfMethod(v), MethodWindow(v), MethodLimit(v));
      }
      if Mutating(verb) {
        mutationWindow := mutationWindow + [now];
      } else {
        readWindow := readWindow + [now];
      }
      methodWindows := methodWindows[verb := MethodWindow(verb) + [now]];
      log := log + [e];
    }

    /** Fewer requests of its kind than the limit were admitted in the last minute, and fewer of its method. */
    ghost predicate BelowRates(verb: string, now: int)
      reads this`log
    {
      (if Mutating(verb) then Recent(Times(log, IsMutation), now) < 20 else Recent(Times(log, IsRead), now) < 120) &&
      Recent(Times(log, OfMethod(verb)), now) < if Mutating(verb) then 10 else 120
    }

    lemma GlobalIsRecent(mutation: bool, window: seq<int>, now: int)
      requires WindowsAgree() && RatesKept() && clock == now
      requires window == if mutation then mutationWindow else readWindow
      requires window != [] ==> window[0] > now - RATE_WINDOW_MS
      ensures |window| == Recent(if mutation then Times(log, IsMutation) else Times(log, IsRead), now)
    {
      hide Times, IsWindow, Spaced, Recent;
      if mutation {
        TimesFromLog(log, IsMutation, now);
        WindowIsRecent(window, Times(log, IsMutation), now, MUTATION_RATE_PER_MINUTE);
      } else {
        TimesFromLog(log, IsRead, now);
        WindowIsRecent(window, Times(log, IsRead), now, READ_RATE_PER_MINUTE);
      }
    }

    lemma MethodIsRecent(verb: string, now: int)
      requires WindowsAgree() && RatesKept() && clock == now
      requires MethodWindow(verb) != [] ==> MethodWindow(verb)[0] > now - RATE_WINDOW_MS
      ensures |MethodWindow(verb)| == Recent(Times(log, OfMethod(verb)), now)
    {
      hide Times, IsWindow, Spaced, Recent;
      TimesFromLog(log, OfMethod(verb), now);
      WindowIsRecent(MethodWindow(verb), Times(log, OfMethod(verb)), now, MethodLimit(verb));
    }

    /** enforceRate: the request is entered in both windows, or in neither; it is entered exactly below the rates. */
    method EnforceRate(request: Request, now: int) returns (admitted: bool)
      requires WindowsAgree() && RatesKept() && clock <= now
      modifies this`readWindow, this`mutationWindow, this`methodWindows, this`log, this`clock
      ensures WindowsAgree() && RatesKept() && clock == now
      ensures log == if admitted then old(log) + [Entry(request, now)] else old(log)
      ensures admitted == old(BelowRates(request.verb, now))
    {
      hide Times, IsWindow, Spaced, Mutating, Recent, WindowsAgree, RatesKept;
      var mutation := Mutating(request.verb);
      var window := PruneGlobal(mutation, now);
      GlobalIsRecent(mutation, window, now);
      if |window| >= (if mutation then MUTATION_RATE_PER_MINUTE else READ_RATE_PER_MINUTE) {
        return false;
      }
      var methodWindow := PruneMethod(request.verb, now);
      MethodIsRecent(request.verb, now);
      if |methodWindow| >= MethodLimit(request.verb) {
        return false;
      }
      Push(request, now);
      return true;
    }

    /** The admission of a page request: replay, capacity and rate, in the order they are checked. */
    method Admit(request: Request, now: int) returns (a: Admission)
      requires Valid() && clock <= now
      modifies this
      ensures Valid() && old(clock) <= clock <= now && old(log) <= log
      ensures a.Admitted? ==>
                request.verb in methods && old(lastSequence) < request.sequence && request.id !in old(seenRequestIds) &&
                log == old(log) + [Entry(request, now)] && pending == old(pending) + {request.id} &&
                seenRequestIds == old(seenRequestIds) + {request.id}
      ensures a.Refused? ==> log == old(log) && pending == old(pending) && seenRequestIds == old(seenRequestIds)
      ensures a == if request.verb !in methods then Refused(UnsupportedMethod)
                   else if request.sequence <= old(lastSequence) then Refused(ReplayedSequence)
                   else if request.id in old(seenRequestIds) then Refused(ReplayedIdentifier)
                   else if |old(seenRequestIds)| >= 512 then Refused(ReplayWindowExhausted)
                   else if |old(pending)| >= 16 then Refused(TooManyPending)
                   else if !old(BelowRates(request.verb, now)) then Refused(RateLimited)
                   else Admitted
      ensures lastSequence == if request.verb in methods && request.sequence > old(lastSequence) then request.sequence
              else old(lastSequence)
    {
      hide WindowsAgree, RatesKept, BelowRates;
      if request.verb !in methods {
        return Refused(UnsupportedMethod);
      }
      if request.sequence <= lastSequence {
        return Refused(ReplayedSequence);
      }
      lastSequence := request.sequence;
      if request.id in seenRequestIds {
        return Refused(ReplayedIdentifier);
      }
      if |seenRequestIds| >= MAX_SEEN_REQUEST_IDS {
        return Refused(ReplayWindowExhausted);
      }
      if |pending| >= MAX_PENDING_PER_DOCUMENT {
        return Refused(TooManyPending);
      }
      var admitted := EnforceRate(request, now);
      if !admitted {
        return Refused(RateLimited);
      }
      seenRequestIds := seenRequestIds + {request.id};
      pending := pending + {request.id};
      return Admitted;
    }

    method Settle(id: string)
      requires Valid()
      modifies this`pending
      ensures Valid() && pending == old(pending) - {id}
    {
      pending := pending - {id};
    }

    /** In every half-open minute at most 20 mutations, 120 reads and 10 of any one mutating method were
        admitted. */
    lemma RatesPerMinute(start: int, verb: string)
      requires Valid()
      ensures |Within(Times(log, IsMutation), start)| <= 20
      ensures |Within(Times(log, IsRead), start)| <= 120
      ensures Mutating(verb) ==> |Within(Times(log, OfMethod(verb)), start)| <= 10
    {
      SpacedMeansBounded(Times(log, IsMutation), MUTATION_RATE_PER_MINUTE, start);
      SpacedMeansBounded(Times(log, IsRead), READ_RATE_PER_MINUTE, start);
      SpacedMeansBounded(Times(log, OfMethod(verb)), MethodLimit(verb), start);
    }

    /** Admitted sequences strictly increase; no sequence or identifier is admitted twice. */
    lemma NothingReplayed(i: nat, j: nat)
      requires Valid() && i < j < |log|
      ensures log[i].request.sequence < log[j].request.sequence && log[i].request.id != log[j].request.id
    {
      assert NoReplay();
    }

    /** Any number of requests and settlements, on a clock that does not run back: what was admitted stays in the
        log, and the whole log keeps the rates and repeats nothing. */
    method Run(steps: nat, now: int)
      requires Valid() && clock <= now
      modifies this
      ensures Valid() && old(log) <= log && old(clock) <= clock
      ensures forall start ::
                |Within(Times(log, IsMutation), start)| <= 20 && |Within(Times(log, IsRead), start)| <= 120
      ensures forall start, verb :: Mutating(verb) ==> |Within(Times(log, OfMethod(verb)), start)| <= 10
      ensures forall i, j :: 0 <= i < j < |log| ==>
                log[i].request.sequence < log[j].request.sequence && log[i].request.id != log[j].request.id
    {
      hide Valid, Mutating, Times, Within;
      var time := now;
      for i := 0 to steps
        invariant Valid() && old(log) <= log && old(clock) <= clock <= time
      {
        var request: Request, passed: nat, settles: bool := *, *, *;
        time := time + passed;
        if settles {
          Settle(request.id);
        } else {
          var _ := Admit(request, time);
        }
      }
      forall i, j | 0 <= i < j < |log|
        ensures log[i].request.sequence < log[j].request.sequence && log[i].request.id != log[j].request.id
      {
        NothingReplayed(i, j);
      }
      forall start
        ensures |Within(Times(log, IsMutation), start)| <= 20 && |Within(Times(log, IsRead), start)| <= 120
      {
        RatesPerMinute(start, "");
      }
      forall start, verb | Mutating(verb) ensures |Within(Times(log, OfMethod(verb)), start)| <= 10 {
        RatesPerMinute(start, verb);
      }
    }
  }
}
