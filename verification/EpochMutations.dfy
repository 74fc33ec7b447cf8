/** SerializedEpochMutationController of extension/src/proxy-lifecycle.js, which the service worker uses
    for its alarms: queued mutations, each cut at its one await. */
module EpochMutations {
  import opened Basics

  /** A call of run().  Its number, given as it is accepted, stands for its promise. */
  datatype Call = Call(number: nat, epoch: nat)

  datatype Outcome = Superseded | Failed | Done

  /** Numbers increase along the line and epochs do not decrease. */
  ghost predicate InOrder(line: seq<Call>, accepted: nat, epoch: nat) {
    (forall i, j :: 0 <= i < j < |line| ==> line[i].number < line[j].number && line[i].epoch <= line[j].epoch) &&
    forall i :: 0 <= i < |line| ==> line[i].number < accepted && line[i].epoch <= epoch
  }

  lemma WithoutOne(before: seq<Call>, call: Call, after: seq<Call>, accepted: nat, epoch: nat)
    requires InOrder(before + [call] + after, accepted, epoch)
    ensures InOrder(before + after, accepted, epoch)
    ensures forall i :: 0 <= i < |after| ==> call.number < after[i].number
  {
    var line := before + [call] + after;
    var shorter := before + after;
    assert forall i :: 0 <= i < |shorter| ==> shorter[i] == line[if i < |before| then i else i + 1];
    assert line[|before|] == call && forall i :: 0 <= i < |after| ==> line[|before| + 1 + i] == after[i];
  }

  lemma OneMore(line: seq<Call>, accepted: nat, epoch: nat)
    requires InOrder(line, accepted, epoch)
    ensures InOrder(line + [Call(accepted, epoch)], accepted + 1, epoch)
  {
  }

  class SerializedEpochMutationController {
    var tail: seq<Call>
    var running: Option<Call>
    var accepted: nat
    // The surroundings: the epoch, and whether the awaited mutation has had its effect already.
    var controlEpoch: nat
    var landed: bool
    // History: calls in the order in which their mutations had effect, calls not settled, and outcomes.
    ghost var effects: seq<Call>
    ghost var unsettled: set<nat>
    ghost var settled: map<nat, Outcome>

    /** Everything that has had effect or may still have, in order. */
    ghost function Line(): (line: seq<Call>)
      reads this`effects, this`running, this`landed, this`tail
    {
      effects + (if running.Some? && !landed then [running.value] else []) + tail
    }

    /** Every accepted call is either settled, or queued or running. */
    ghost predicate Accounted()
      reads this`running, this`tail, this`accepted, this`unsettled, this`settled
    {
      (forall n: nat :: n < accepted <==> n in unsettled || n in settled) && unsettled !! settled.Keys &&
      (running.Some? ==> running.value.number in unsettled) &&
      (forall i :: 0 <= i < |tail| ==> tail[i].number in unsettled) &&
      |unsettled| == |tail| + if running.Some? then 1 else 0
    }

    ghost predicate Inv()
      reads this
    {
      InOrder(Line(), accepted, controlEpoch) && Accounted() &&
      (running.Some? && landed ==> effects != [] && effects[|effects| - 1] == running.value)
    }

    constructor (controlEpoch: nat)
      ensures Inv() && this.controlEpoch == controlEpoch && tail == [] && running.None? && effects == []
    {
      tail, running, this.controlEpoch, landed := [], None, controlEpoch, false;
      accepted, effects, unsettled, settled := 0, [], {}, map[];
    }

    /** run(): refused at once unless the epoch is current; refused, it changes nothing. */
    method Enqueue(expectedEpoch: nat) returns (ok: bool)
      requires Inv()
      modifies this`tail, this`accepted, this`unsettled
      ensures Inv() && ok == (expectedEpoch == controlEpoch)
      ensures if ok then tail == old(tail) + [Call(old(accepted), expectedEpoch)] && accepted == old(accepted) + 1
              else tail == old(tail) && accepted == old(accepted)
    {
      if expectedEpoch != controlEpoch {
        return false;
      }
      hide InOrder;
      var call := Call(accepted, expectedEpoch);
      OneMore(Line(), accepted, controlEpoch);
      unsettled := unsettled + {accepted};
      tail, accepted := tail + [call], accepted + 1;
      assert Line() == old(Line()) + [call];
      return true;
    }

    /** The turn of the next call.  A superseded mutation is not begun. */
    method TakeTurn()
      requires Inv() && running.None? && tail != []
      modifies this`tail, this`running, this`landed, this`unsettled, this`settled
      ensures Inv() && tail == old(tail)[1..]
      ensures var call := old(tail)[0];
              if call.epoch == controlEpoch then running == Some(call) && !landed && settled == old(settled)
              else running.None? && settled == old(settled)[call.number := Superseded]
    {
      hide InOrder;
      var call := tail[0];
      assert Line() == effects + [call] + tail[1..];
      WithoutOne(effects, call, tail[1..], accepted, controlEpoch);
      tail, landed := tail[1..], false;
      if call.epoch == controlEpoch {
        running := Some(call);
      } else {
        unsettled, settled := unsettled - {call.number}, settled[call.number := Superseded];
        assert Line() == effects + tail;
      }
    }

    /** The awaited mutation has its effect, at any time before it settles. */
    method Lands()
      requires Inv() && running.Some? && !landed
      modifies this`landed, this`effects
      ensures Inv() && landed && effects == old(effects) + [running.value]
    {
      landed, effects := true, effects + [running.value];
      assert Line() == old(Line());
    }

    /** The awaited mutation resolves, having had its effect, or rejects.  It is reported as done only if
        no epoch change came between, and then no other mutation has had effect since. */
    method Settles(resolved: bool) returns (o: Outcome)
      requires Inv() && running.Some? && (resolved ==> landed)
      modifies this`running, this`unsettled, this`settled
      ensures Inv() && running.None?
      ensures old(running).value.number !in old(settled) && settled == old(settled)[old(running).value.number := o]
      ensures o == if !resolved then Failed else if old(running).value.epoch == controlEpoch then Done else Superseded
      ensures o.Done? ==> effects != [] && effects[|effects| - 1] == old(running).value
    {
      hide InOrder;
      var call := running.value;
      o := if !resolved then Failed else if call.epoch == controlEpoch then Done else Superseded;
      ghost var before := if landed then effects[..|effects| - 1] else effects;
      assert Line() == before + [call] + tail;
      WithoutOne(before, call, tail, accepted, controlEpoch);
      running := None;
      unsettled, settled := unsettled - {call.number}, settled[call.number := o];
      assert Line() == if landed then before + [call] + tail else before + tail;
    }

    method AdvanceEpoch()
      requires Inv()
      modifies this`controlEpoch
      ensures Inv() && controlEpoch == old(controlEpoch) + 1
    {
      controlEpoch := controlEpoch + 1;
    }

    method Step()
      requires Inv()
      modifies this
      ensures Inv() && old(effects) <= effects
      ensures forall n :: n in old(settled) ==> n in settled && settled[n] == old(settled)[n]
    {
      var choice: nat := *;
      if choice == 0 {
        var epoch: nat := *;
        var _ := Enqueue(epoch);
      } else if choice == 1 && running.None? && tail != [] {
        assert tail[0].number in unsettled;
        TakeTurn();
      } else if choice == 2 && running.Some? && !landed {
        Lands();
      } else if choice == 3 && running.Some? {
        var resolved: bool := *;
        if !resolved || landed {
          var _ := Settles(resolved);
        }
      } else if choice == 4 {
        AdvanceEpoch();
      }
    }

    /** Any interleaving.  Mutations have effect one at a time, in the order of the calls, so one of an
        earlier epoch never after one of a later; what is settled stays as it was settled, and once the
        queue is empty every call is. */
    method Run(steps: nat)
      requires Inv()
      modifies this
      ensures Inv() && old(effects) <= effects
      ensures forall i, j :: 0 <= i < j < |effects| ==>
                effects[i].number < effects[j].number && effects[i].epoch <= effects[j].epoch
      ensures forall n :: n in old(settled) ==> n in settled && settled[n] == old(settled)[n]
      ensures running.None? && tail == [] ==> forall n: nat :: n < accepted <==> n in settled
    {
      for i := 0 to steps
        invariant Inv() && old(effects) <= effects
        invariant forall n :: n in old(settled) ==> n in settled && settled[n] == old(settled)[n]
      {
        Step();
      }
      assert effects <= Line();
    }
  }
}
