/** SerializedMandatoryPacController of extension/src/proxy-lifecycle.js.  Its promises are cut at their
    awaits: each method below is one atomic piece, and the browser's PAC setting, the unresolved set
    calls and the reactions waiting to run are fields beside the controller's own.  A set call has effect
    when its promise resolves; a matching read-back means that it has had its effect. */
module PacController {
  import opened Basics

  datatype Install = Install(script: string, epoch: int, revision: nat)

  /** The operation at the head of the queue: setting the PAC, reading it back after the timeout, or about
      to judge what it read (nothing, when reading failed or timed out). */
  datatype Operation =
    | Idle
    | Setting(install: Install)
    | Reading(install: Install)
    | Judging(install: Install, observed: Option<string>)

  predicate Includes(s: string, part: string) {
    part <= s || (s != [] && Includes(s[1..], part))
  }

  predicate IsPacScript(script: string) {
    Includes(script, "FindProxyForURL")
  }

  ghost predicate StandsAt(s: string, part: string, i: int) {
    0 <= i <= |s| - |part| && s[i..i + |part|] == part
  }

  lemma StandsLater(s: string, part: string, i: int)
    requires s != [] && StandsAt(s[1..], part, i)
    ensures StandsAt(s, part, i + 1)
  {
    assert s[1..][i..i + |part|] == s[i + 1..i + 1 + |part|];
  }

  lemma StandsEarlier(s: string, part: string, i: int)
    requires s != [] && StandsAt(s, part, i) && !(part <= s)
    ensures StandsAt(s[1..], part, i - 1)
  {
    assert part == s[i..i + |part|];
    assert s[1..][i - 1..i - 1 + |part|] == s[i..i + |part|];
  }

  lemma {:induction false} IncludesWhere(s: string, part: string)
    ensures Includes(s, part) <==> exists i :: StandsAt(s, part, i)
  {
    if part <= s {
      assert StandsAt(s, part, 0);
    } else if s != [] {
      IncludesWhere(s[1..], part);
      hide StandsAt;
      if i :| StandsAt(s[1..], part, i) { StandsLater(s, part, i); }
      if i :| StandsAt(s, part, i) { StandsEarlier(s, part, i); }
    }
  }

  /** A script is a PAC script exactly if the name of its entry point stands somewhere in it. */
  lemma PacScriptNamesItsEntry(script: string)
    ensures IsPacScript(script) <==> exists i :: StandsAt(script, "FindProxyForURL", i)
  {
    IncludesWhere(script, "FindProxyForURL");
  }

  class SerializedMandatoryPacController {
    var mutationRevision: nat
    var desired: Option<Install>
    var tail: seq<Install>
    var active: Operation
    // The surroundings.
    var controlEpoch: int
    var browserPac: string
    var inFlight: map<nat, string>
    var effected: set<nat>
    var watched: set<nat>
    var reactions: set<nat>
    // History: the installs that were confirmed to their caller.
    ghost var confirmed: set<nat>

    // ---- what every step keeps ----

    /** Operations run in the order of their revisions, and the latest install is the last of them. */
    ghost predicate Ordered()
      reads this`mutationRevision, this`desired, this`tail, this`active, this`effected, this`inFlight, this`controlEpoch
    {
      (desired.Some? ==> desired.value.revision == mutationRevision && desired.value.epoch <= controlEpoch) &&
      (desired.None? ==> mutationRevision == 0 && tail == [] && active.Idle?) &&
      (desired.Some? ==> IsPacScript(desired.value.script)) &&
      (tail != [] ==> Some(tail[|tail| - 1]) == desired) &&
      (!active.Idle? && tail == [] ==> Some(active.install) == desired) &&
      (forall i, j :: 0 <= i < j < |tail| ==> tail[i].revision < tail[j].revision) &&
      (!active.Idle? ==> forall i :: 0 <= i < |tail| ==> active.install.revision < tail[i].revision) &&
      (forall r :: r in effected || r in inFlight ==>
        r <= mutationRevision && forall i :: 0 <= i < |tail| ==> r < tail[i].revision) &&
      (active.Setting? ==> active.install.revision !in effected && active.install.revision in inFlight)
    }

    ghost predicate Watching()
      reads this`desired, this`active, this`inFlight, this`watched, this`reactions, this`effected
    {
      (forall r :: r in inFlight ==> r in watched || (!active.Idle? && active.install.revision == r)) &&
      (forall r :: r in watched ==> r in inFlight && (!active.Idle? ==> active.install.revision != r)) &&
      (forall r :: r in inFlight && desired.Some? && desired.value.revision == r ==>
        inFlight[r] == desired.value.script) &&
      (forall r :: r in inFlight && !active.Idle? && active.install.revision == r ==>
        inFlight[r] == active.install.script) &&
      (forall r :: r in inFlight ==> r !in effected)
    }

    /** A reaction that will install the latest script once more. */
    ghost predicate RepairComing(latest: Install)
      reads this`reactions
    {
      exists r :: r in reactions && r != latest.revision
    }

    ghost predicate Settled(latest: Install)
      reads this`reactions, this`browserPac
    {
      browserPac == latest.script || RepairComing(latest)
    }

    ghost predicate Correcting()
      reads this`mutationRevision, this`desired, this`active, this`controlEpoch, this`browserPac, this`reactions,
            this`effected
    {
      desired.Some? && desired.value.epoch == controlEpoch && mutationRevision < MAX_SAFE_INTEGER ==>
        (desired.value.revision in effected ==> Settled(desired.value)) &&
        (active.Judging? && active.install == desired.value && active.observed == Some(active.install.script) ==>
          Settled(desired.value))
    }

    ghost predicate Inv()
      reads this
    {
      Ordered() && Watching() && Correcting() && confirmed <= effected
    }

    constructor (controlEpoch: int, browserPac: string)
      ensures Inv() && this.controlEpoch == controlEpoch && this.browserPac == browserPac
      ensures mutationRevision == 0 && desired.None? && tail == [] && active.Idle?
    {
      mutationRevision, desired, tail, active := 0, None, [], Idle;
      this.controlEpoch, this.browserPac := controlEpoch, browserPac;
      inFlight, watched, reactions := map[], {}, {};
      effected, confirmed := {}, {};
    }

    // ---- the steps ----

    /** A caller's or a repair's install; refused, it changes nothing. */
    method Enqueue(script: string, expectedEpoch: int) returns (accepted: bool)
      requires Inv()
      modifies this`mutationRevision, this`desired, this`tail
      ensures Inv()
      ensures accepted == (IsPacScript(script) && expectedEpoch == controlEpoch &&
                old(mutationRevision) < MAX_SAFE_INTEGER)
      ensures if accepted then
                var i := Install(script, expectedEpoch, old(mutationRevision) + 1);
                mutationRevision == i.revision && desired == Some(i) && tail == old(tail) + [i]
              else mutationRevision == old(mutationRevision) && desired == old(desired) && tail == old(tail)
    {
      if !IsPacScript(script) || expectedEpoch != controlEpoch || mutationRevision >= MAX_SAFE_INTEGER {
        return false;
      }
      mutationRevision := mutationRevision + 1;
      desired := Some(Install(script, expectedEpoch, mutationRevision));
      tail := tail + [desired.value];
      return true;
    }

    /** The next operation begins when the one before it is over; a superseded one sets nothing. */
    method Begin()
      requires Inv() && active.Idle? && tail != []
      modifies this`tail, this`active, this`inFlight
      ensures Inv() && tail == old(tail)[1..]
      ensures var next := old(tail)[0];
              if next.epoch == controlEpoch then
                active == Setting(next) && inFlight == old(inFlight)[next.revision := next.script]
              else active == Idle && inFlight == old(inFlight)
    {
      hide IsPacScript;
      var next := tail[0];
      tail := tail[1..];
      if next.epoch == controlEpoch {
        active := Setting(next);
        inFlight := inFlight[next.revision := next.script];
      }
    }

    ghost function Confirming(i: Install): set<nat>
      reads this`controlEpoch
    {
      if i.epoch == controlEpoch then {i.revision} else {}
    }

    /** The set call resolves before the timeout. */
    method SetResolves()
      requires Inv() && active.Setting?
      modifies this`active, this`browserPac, this`inFlight, this`effected, this`confirmed
      ensures Inv() && active == Idle
      ensures var i := old(active).install;
              browserPac == i.script && inFlight == old(inFlight) - {i.revision} &&
              effected == old(effected) + {i.revision} && confirmed == old(confirmed) + Confirming(i)
    {
      var i := active.install;
      browserPac := i.script;
      inFlight := inFlight - {i.revision};
      effected, confirmed := effected + {i.revision}, confirmed + Confirming(i);
      active := Idle;
    }

    method SetRejects()
      requires Inv() && active.Setting?
      modifies this`active, this`inFlight
      ensures Inv() && active == Idle && inFlight == old(inFlight) - {old(active).install.revision}
    {
      inFlight := inFlight - {active.install.revision};
      active := Idle;
    }

    method SetTimesOut()
      requires Inv() && active.Setting?
      modifies this`active
      ensures Inv() && active == Reading(old(active).install)
    {
      active := Reading(active.install);
    }

    method ReadBack(completed: bool)
      requires Inv() && active.Reading?
      modifies this`active
      ensures Inv() && active == Judging(old(active).install, if completed then Some(browserPac) else None)
    {
      active := Judging(active.install, if completed then Some(browserPac) else None);
    }

    method Matches()
      requires Inv() && active.Judging? && active.observed == Some(active.install.script)
      modifies this`active, this`inFlight, this`effected, this`confirmed
      ensures Inv() && active == Idle
      ensures var i := old(active).install;
              inFlight == old(inFlight) - {i.revision} && effected == old(effected) + {i.revision} &&
              confirmed == old(confirmed) + Confirming(i)
    {
      hide IsPacScript;
      var i := active.install;
      inFlight := inFlight - {i.revision};
      effected, confirmed := effected + {i.revision}, confirmed + Confirming(i);
      active := Idle;
    }

    method Mismatches()
      requires Inv() && active.Judging? && active.observed != Some(active.install.script)
      modifies this`active, this`watched, this`reactions
      ensures Inv() && active == Idle
      ensures var r := old(active).install.revision;
              watched == (if r in inFlight then old(watched) + {r} else old(watched)) &&
              reactions == (if r in effected then old(reactions) + {r} else old(reactions))
    {
      var r := active.install.revision;
      if r in inFlight {
        watched := watched + {r};
      } else if r in effected {
        reactions := reactions + {r};
        assert forall q :: q in old(reactions) ==> q in reactions;
      }
      active := Idle;
    }

    /** A match confirms; otherwise the set call, whenever it resolves, will be reacted to. */
    method Judge()
      requires Inv() && active.Judging?
      modifies this`active, this`inFlight, this`watched, this`reactions, this`effected, this`confirmed
      ensures Inv() && active == Idle
      ensures var i := old(active).install; var matched := old(active).observed == Some(i.script);
              inFlight == (if matched then old(inFlight) - {i.revision} else old(inFlight)) &&
              effected == (if matched then old(effected) + {i.revision} else old(effected)) &&
              confirmed == (if matched then old(confirmed) + Confirming(i) else old(confirmed)) &&
              watched == (if !matched && i.revision in old(inFlight) then old(watched) + {i.revision}
                else old(watched)) &&
              reactions == (if !matched && i.revision in old(effected) then old(reactions) + {i.revision}
                  else old(reactions))
    {
      hide Inv;
      if active.observed == Some(active.install.script) { Matches(); } else { Mismatches(); }
    }

    /** A set call that its operation no longer waits for takes effect after all, also while the next
        operation waits for its own. */
    method LandsLate(revision: nat)
      requires Inv() && revision in inFlight && (active.Setting? ==> active.install.revision != revision)
      modifies this`browserPac, this`inFlight, this`watched, this`reactions, this`effected
      ensures Inv()
      ensures browserPac == old(inFlight)[revision] && inFlight == old(inFlight) - {revision}
      ensures effected == old(effected) + {revision} && watched == old(watched) - {revision}
      ensures reactions == if revision in old(watched) then old(reactions) + {revision} else old(reactions)
    {
      NotWaitedFor(revision);
      hide Inv;
      if revision in watched { LandsWatched(revision); } else { LandsUnwatched(revision); }
    }

    lemma NotWaitedFor(revision: nat)
      requires Inv() && revision in inFlight && (active.Setting? ==> active.install.revision != revision)
      ensures revision !in watched ==> !active.Setting? && watched == watched - {revision}
    {
    }

    method LandsWatched(revision: nat)
      requires Inv() && revision in inFlight && revision in watched
      modifies this`browserPac, this`inFlight, this`watched, this`reactions, this`effected
      ensures Inv()
      ensures browserPac == old(inFlight)[revision] && inFlight == old(inFlight) - {revision}
      ensures effected == old(effected) + {revision} && watched == old(watched) - {revision}
      ensures reactions == old(reactions) + {revision}
    {
      hide IsPacScript;
      browserPac := inFlight[revision];
      inFlight := inFlight - {revision};
      effected := effected + {revision};
      watched, reactions := watched - {revision}, reactions + {revision};
      assert revision in reactions;
      assert desired.Some? && desired.value.revision != revision ==> RepairComing(desired.value);
      assert desired.Some? ==> Settled(desired.value);
      hide RepairComing, Settled;
      assert Correcting();
      hide Correcting;
    }

    /** Its own operation, which timed out, has not judged yet. */
    method LandsUnwatched(revision: nat)
      requires Inv() && revision in inFlight && revision !in watched && !active.Setting?
      modifies this`browserPac, this`inFlight, this`effected
      ensures Inv()
      ensures browserPac == old(inFlight)[revision] && inFlight == old(inFlight) - {revision}
      ensures effected == old(effected) + {revision}
    {
      hide IsPacScript;
      browserPac := inFlight[revision];
      inFlight := inFlight - {revision};
      effected := effected + {revision};
    }

    method FailsLate(revision: nat)
      requires Inv() && revision in inFlight && (active.Setting? ==> active.install.revision != revision)
      modifies this`inFlight, this`watched
      ensures Inv() && inFlight == old(inFlight) - {revision} && watched == old(watched) - {revision}
    {
      inFlight, watched := inFlight - {revision}, watched - {revision};
    }

    /** The reaction to a late set call: the latest install is made again, unless it is the one that landed. */
    method RepairAfterLateMutation(completed: nat)
      requires Inv() && completed in reactions
      modifies this`reactions, this`mutationRevision, this`desired, this`tail
      ensures Inv() && reactions == old(reactions) - {completed}
      ensures var d := old(desired);
              if d.None? || d.value.revision == completed || d.value.epoch != controlEpoch ||
                 !IsPacScript(d.value.script) || old(mutationRevision) >= MAX_SAFE_INTEGER
              then
                desired == d && tail == old(tail) && mutationRevision == old(mutationRevision)
              else
                desired == Some(Install(d.value.script, d.value.epoch, old(mutationRevision) + 1)) &&
                mutationRevision == old(mutationRevision) + 1 && tail == old(tail) + [desired.value]
    {
      hide IsPacScript;
      ghost var before := reactions;
      var latest := desired;
      if latest.Some? && latest.value.revision != completed && latest.value.epoch == controlEpoch {
        var accepted := Enqueue(latest.value.script, latest.value.epoch);
        assert accepted ==> desired.value == tail[|tail| - 1] && !(desired.value.revision in effected);
      }
      ghost var other := if exists r :: r in before && r != completed then (var r :| r in before && r != completed; r)
        else 0;
      reactions := reactions - {completed};
      assert other in before && other != completed ==> other in reactions;
    }

    method AdvanceEpoch()
      requires Inv()
      modifies this`controlEpoch
      ensures Inv() && controlEpoch == old(controlEpoch) + 1
    {
      controlEpoch := controlEpoch + 1;
    }

    // ---- convergence ----

    ghost predicate Outstanding()
      reads this`active, this`tail, this`inFlight, this`reactions
    {
      !active.Idle? || tail != [] || inFlight != map[] || reactions != {}
    }

    /** With nothing outstanding, the browser has the script of the most recent install once that took
        effect, however late earlier set calls landed. */
    lemma Converged()
      requires Inv() && !Outstanding()
      requires desired.Some? && desired.value.epoch == controlEpoch && mutationRevision < MAX_SAFE_INTEGER
      requires desired.value.revision in confirmed || desired.value.revision in effected
      ensures browserPac == desired.value.script
    {
      assert !RepairComing(desired.value);
    }

    /** One piece of the controller's or the browser's work, in any order. */
    method Step()
      requires Inv()
      modifies this
      ensures Inv() && old(effected) <= effected && old(confirmed) <= confirmed
    {
      var choice: nat := *;
      if choice == 0 {
        var script: string, epoch: int := *, *;
        var _ := Enqueue(script, epoch);
      } else if active.Idle? && tail != [] && choice == 1 {
        Begin();
      } else if active.Setting? && choice == 2 {
        SetResolves();
      } else if active.Setting? && choice == 3 {
        SetRejects();
      } else if active.Setting? && choice == 4 {
        SetTimesOut();
      } else if active.Reading? && choice == 5 {
        var completed: bool := *;
        ReadBack(completed);
      } else if active.Judging? && choice == 6 {
        Judge();
      } else if choice == 7 {
        var revision: nat, fails: bool := *, *;
        if revision in inFlight && (active.Setting? ==> active.install.revision != revision) {
          if fails { FailsLate(revision); } else { LandsLate(revision); }
        }
      } else if choice == 8 {
        var completed: nat := *;
        if completed in reactions { RepairAfterLateMutation(completed); }
      } else {
        AdvanceEpoch();
      }
    }

    /** However many steps, in whatever order: once nothing is outstanding, the latest install stands. */
    method Run(steps: nat)
      requires Inv()
      modifies this
      ensures Inv() && old(effected) <= effected && old(confirmed) <= confirmed
      ensures !Outstanding() && desired.Some? && desired.value.epoch == controlEpoch &&
              mutationRevision < MAX_SAFE_INTEGER && desired.value.revision in confirmed ==>
                browserPac == desired.value.script
    {
      for i := 0 to steps
        invariant Inv() && old(effected) <= effected && old(confirmed) <= confirmed
      {
        Step();
      }
      if !Outstanding() && desired.Some? && desired.value.epoch == controlEpoch &&
      mutationRevision < MAX_SAFE_INTEGER &&
         desired.value.revision in confirmed
      {
        Converged();
      }
    }
  }
}
