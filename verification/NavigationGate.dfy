/** NavigationGateController of extension/src/navigation-gate.js: queued openings and closings, each cut
    at its awaits.  The browser's two rules are fields beside the controller's own. */
module NavigationGate {
  import opened Basics

  /** The text of a revision is its clock and its number. */
  datatype Revision = Revision(now: nat, sequence: nat)

  datatype Call = Open(epoch: int) | Close(epoch: int)

  datatype Phase =
    | Idle
    | RemovingAllow(epoch: int)
    | RepairingRedirect(epoch: int)
    | AddingRedirect(epoch: int)
    | AddingAllow(epoch: int)

  datatype Outcome =
    Waiting | Superseded | Failed | Closed | AlreadyOpen(was: Option<Revision>) | Opened(revision: Revision)

  class NavigationGateController {
    var queue: seq<Call>
    var phase: Phase
    var openConfirmed: bool
    var openSequence: nat
    var openRevision: Option<Revision>
    // The surroundings.
    var controlEpoch: int
    var allowRule: bool
    var redirectRule: bool
    // History: every revision an opening was given.
    ghost var issued: set<Revision>

    ghost predicate Inv()
      reads this
    {
      (openConfirmed ==>
        allowRule && redirectRule && phase.Idle? && openRevision.Some? && openRevision.value in issued) &&
      (!openConfirmed ==> openRevision.None?) &&
      (phase.RepairingRedirect? ==> !allowRule) && (phase.AddingAllow? ==> redirectRule) &&
      forall r :: r in issued ==> r.sequence <= openSequence
    }

    constructor (controlEpoch: int, allowRule: bool, redirectRule: bool)
      ensures Inv() && queue == [] && phase == Idle && !openConfirmed
      ensures this.controlEpoch == controlEpoch && this.allowRule == allowRule && this.redirectRule == redirectRule
    {
      queue, phase, openConfirmed, openSequence, openRevision := [], Idle, false, 0, None;
      this.controlEpoch, this.allowRule, this.redirectRule := controlEpoch, allowRule, redirectRule;
      issued := {};
    }

    method Enqueue(call: Call)
      requires Inv()
      modifies this`queue
      ensures Inv() && queue == old(queue) + [call]
    {
      queue := queue + [call];
    }

    /** The turn of the next call.  A superseded one has no effect. */
    method TakeTurn() returns (o: Outcome)
      requires Inv() && phase.Idle? && queue != []
      modifies this`queue, this`phase, this`openConfirmed, this`openRevision
      ensures Inv() && queue == old(queue)[1..]
      ensures var call := old(queue)[0];
              if call.epoch != controlEpoch then
                o == Superseded && phase == Idle && openConfirmed == old(openConfirmed) &&
                  openRevision == old(openRevision)
              else if call.Close? then
                o == Waiting && phase == RemovingAllow(call.epoch) && !openConfirmed
              else if old(openConfirmed) then
                o == AlreadyOpen(openRevision) && openRevision == old(openRevision) && phase == Idle && openConfirmed
              else
                o == Waiting && phase == AddingRedirect(call.epoch) && !openConfirmed
    {
      var call := queue[0];
      queue := queue[1..];
      if call.epoch != controlEpoch {
        return Superseded;
      }
      match call {
        case Close(epoch) =>
          openConfirmed, openRevision := false, None;
          phase := RemovingAllow(epoch);
          return Waiting;
        case Open(epoch) =>
          if openConfirmed {
            return AlreadyOpen(openRevision);
          }
          phase := AddingRedirect(epoch);
          return Waiting;
      }
    }

    /** The rule update that is waited for resolves. */
    method UpdateResolves(now: nat) returns (o: Outcome)
      requires Inv() && !phase.Idle?
      modifies this`phase, this`allowRule, this`redirectRule, this`openConfirmed, this`openSequence, this`openRevision,
        this`issued
      ensures Inv() && old(issued) <= issued
      ensures allowRule == (if old(phase).RemovingAllow? then false else if old(phase).AddingAllow? then true
                else old(allowRule))
      ensures redirectRule == (if old(phase).RepairingRedirect? || old(phase).AddingRedirect? then true
                else old(redirectRule))
      ensures o == (if old(phase).epoch != controlEpoch then Superseded
                    else if old(phase).RemovingAllow? || old(phase).AddingRedirect? then Waiting
                    else if old(phase).RepairingRedirect? then Closed
                    else Opened(Revision(now, old(openSequence) + 1)))
      ensures o.Superseded? || o.Closed? ==> phase == Idle && !openConfirmed && openSequence == old(openSequence)
      ensures o.Closed? ==> !allowRule && redirectRule
      ensures o.Opened? ==>
                openConfirmed && allowRule && redirectRule && o.revision !in old(issued) &&
                openRevision == Some(o.revision)
      ensures o.Waiting? ==> phase == if old(phase).RemovingAllow? then RepairingRedirect(controlEpoch)
              else AddingAllow(controlEpoch)
    {
      var epoch := phase.epoch;
      var next := Idle;
      o := Superseded;
      match phase {
        case RemovingAllow(_) =>
          allowRule := false;
          if epoch == controlEpoch { next, o := RepairingRedirect(epoch), Waiting; }
        case RepairingRedirect(_) =>
          redirectRule := true;
          if epoch == controlEpoch {
            openConfirmed, openRevision := false, None;
            o := Closed;
          }
        case AddingRedirect(_) =>
          redirectRule := true;
          if epoch == controlEpoch { next, o := AddingAllow(epoch), Waiting; }
        case AddingAllow(_) =>
          allowRule := true;
          if epoch == controlEpoch {
            openSequence := openSequence + 1;
            var revision := Revision(now, openSequence);
            issued := issued + {revision};
            openRevision, openConfirmed := Some(revision), true;
            o := Opened(revision);
          }
      }
      phase := next;
    }

    /** A rejected update may have done anything to the rule that it was to change. */
    method UpdateRejects(rule: bool) returns (o: Outcome)
      requires Inv() && !phase.Idle?
      modifies this`phase, this`allowRule, this`redirectRule
      ensures Inv() && phase == Idle && !openConfirmed && o == Failed
      ensures old(phase).RemovingAllow? || old(phase).AddingAllow? ==>
                allowRule == rule && redirectRule == old(redirectRule)
      ensures old(phase).RepairingRedirect? || old(phase).AddingRedirect? ==>
                redirectRule == rule && allowRule == old(allowRule)
    {
      if phase.RemovingAllow? || phase.AddingAllow? { allowRule := rule; } else { redirectRule := rule; }
      phase := Idle;
      return Failed;
    }

    method AdvanceEpoch()
      requires Inv()
      modifies this`controlEpoch
      ensures Inv() && controlEpoch == old(controlEpoch) + 1
    {
      controlEpoch := controlEpoch + 1;
    }

    /** What status() reports as ready: confirmed, and the runtime ready. */
    method Status(runtimeReady: bool) returns (ready: bool, revision: Option<Revision>)
      requires Inv()
      ensures ready ==> allowRule && redirectRule && revision.Some? && revision.value in issued
      ensures ready == (openConfirmed && runtimeReady) && (!ready ==> revision.None?)
    {
      ready := openConfirmed && runtimeReady;
      revision := if ready then openRevision else None;
    }

    method Step()
      requires Inv()
      modifies this
      ensures Inv() && old(issued) <= issued
    {
      var choice: nat := *;
      if choice == 0 {
        var call: Call := *;
        Enqueue(call);
      } else if phase.Idle? && queue != [] && choice == 1 {
        var _ := TakeTurn();
      } else if !phase.Idle? && choice == 2 {
        var now: nat := *;
        var _ := UpdateResolves(now);
      } else if !phase.Idle? && choice == 3 {
        var rule: bool := *;
        var _ := UpdateRejects(rule);
      } else if choice == 4 {
        AdvanceEpoch();
      }
    }

    /** Any interleaving of calls, turns, rule updates that resolve or reject, and epoch changes. */
    method Run(steps: nat)
      requires Inv()
      modifies this
      ensures Inv() && (openConfirmed ==> allowRule && redirectRule) && old(issued) <= issued
    {
      for i := 0 to steps
        invariant Inv() && old(issued) <= issued
      {
        Step();
      }
    }
  }
}
