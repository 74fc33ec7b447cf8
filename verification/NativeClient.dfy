/** NativeClient of extension/src/native-client.js: its request table, connection epochs and event order. */
module NativeClient {
  import opened Basics

  const MAX_PENDING_REQUESTS := 32
  const MAX_REQUEST_TIMEOUT_MS := 900000

  datatype Settlement = Result | NativeError | TimedOut | SendFailed | Disconnected

  datatype Message =
    | Malformed
    | Event(session: string, eventSequence: int)
    | Reply(session: string, eventSequence: int, request: nat, ok: bool)
    | Unaddressed(session: string, eventSequence: int)

  /** How a request ends before it is entered in the table, or its number once it is. */
  datatype Entry = CapacityExhausted | TimeoutOutOfBounds | Entered(request: nat)

  class NativeClient {
    var port: Option<nat>
    /** Each entry with the connection epoch in which it was made. */
    var pending: map<nat, nat>
    var sequence: nat
    var runtimeSession: Option<string>
    var lastEventSequence: int
    var lifecycleEpoch: nat
    // The surroundings: the timers that are set.
    var timers: set<nat>
    // History: how each entered request was settled, and the port each connection epoch was issued for.
    ghost var entered: set<nat>
    ghost var settlements: map<nat, Settlement>
    ghost var issued: map<nat, nat>

    /** Every entered request is either in the table, with its timer set, or was settled. */
    ghost predicate Table()
      reads this`pending, this`timers, this`sequence, this`entered, this`settlements
    {
      (forall r :: r in entered <==> r in pending || r in settlements) &&
      (forall r :: r in pending ==> r !in settlements) && (forall r :: r in timers <==> r in pending) &&
      |pending| <= MAX_PENDING_REQUESTS && forall r :: r in entered ==> r <= sequence
    }

    ghost predicate Connections()
      reads this`port, this`lifecycleEpoch, this`issued
    {
      (forall e :: e in issued ==> 1 <= e <= lifecycleEpoch && (e == lifecycleEpoch ==> port == Some(issued[e]))) &&
      (port.Some? ==> lifecycleEpoch in issued && issued[lifecycleEpoch] == port.value)
    }

    ghost predicate Inv()
      reads this
    {
      Table() && Connections() && forall r :: r in pending ==> port.Some? && pending[r] == lifecycleEpoch
    }

    /** More requests were settled, and those settled before are settled as they were. */
    ghost predicate SettledMore(before: map<nat, Settlement>)
      reads this`settlements
    {
      forall r :: r in before ==> r in settlements && settlements[r] == before[r]
    }

    /** What was in the table is settled as disconnected, and nothing else is settled anew. */
    ghost predicate DisconnectedAll(table: map<nat, nat>, before: map<nat, Settlement>)
      reads this`settlements
    {
      SettledMore(before) && (forall r :: r in settlements <==> r in before || r in table) &&
      forall r :: r in table ==> settlements[r] == Disconnected
    }

    constructor ()
      ensures Inv() && port.None? && pending == map[] && lifecycleEpoch == 0
    {
      port, pending, sequence, runtimeSession, lastEventSequence, lifecycleEpoch := None, map[], 0, None, 0, 0;
      timers, entered, settlements, issued := {}, {}, map[], map[];
    }

    function CurrentConnectionEpoch(): Option<nat>
      reads this`port, this`lifecycleEpoch
    {
      if port.None? then None else Some(lifecycleEpoch)
    }

    predicate ConnectionIsCurrent(epoch: int)
      reads this`port, this`lifecycleEpoch
    {
      0 < epoch <= MAX_SAFE_INTEGER && port.Some? && lifecycleEpoch == epoch
    }

    /** An epoch is current only during the connection it was issued for; once over, no step revives it. */
    lemma EpochIsOfOneConnection(epoch: nat)
      requires Inv()
      ensures ConnectionIsCurrent(epoch) ==> epoch in issued && port == Some(issued[epoch])
      ensures epoch in issued && CurrentConnectionEpoch() != Some(epoch) ==> epoch < lifecycleEpoch
    {
      assert epoch in issued && epoch == lifecycleEpoch ==> port == Some(issued[epoch]);
    }

    /** Opens a new port unless there is one. */
    method Connect(newPort: nat)
      requires Inv()
      modifies this`port, this`lifecycleEpoch, this`issued
      ensures Inv() && port.Some? && (forall e :: e in old(issued) ==> e in issued && issued[e] == old(issued)[e])
      ensures if old(port).Some? then port == old(port) && lifecycleEpoch == old(lifecycleEpoch) &&
              issued == old(issued)
              else port == Some(newPort) && lifecycleEpoch == old(lifecycleEpoch) + 1 && lifecycleEpoch !in old(issued)
    {
      if port.Some? { return; }
      port := Some(newPort);
      lifecycleEpoch := lifecycleEpoch + 1;
      issued := issued[lifecycleEpoch := newPort];
    }

    /** One request is settled, for the first time. */
    method Settle(request: nat, how: Settlement)
      requires Table() && request in pending
      modifies this`pending, this`timers, this`settlements
      ensures Table() && pending == old(pending) - {request}
      ensures request !in old(settlements) && settlements == old(settlements)[request := how]
    {
      timers := timers - {request};
      assert (pending - {request}).Keys == pending.Keys - {request};
      pending := pending - {request};
      settlements := settlements[request := how];
    }

    method Request(newPort: nat, timeoutMs: int, sent: bool) returns (e: Entry)
      requires Inv()
      modifies this
      ensures Inv() && port.Some? && lifecycleEpoch == (if old(port).Some? then old(lifecycleEpoch)
                else old(lifecycleEpoch) + 1)
      ensures forall c :: c in old(issued) ==> c in issued && issued[c] == old(issued)[c]
      ensures e == (if |old(pending)| >= 32 then CapacityExhausted
                    else if timeoutMs < 1 || timeoutMs > 900000 then TimeoutOutOfBounds
                    else Entered(old(sequence) + 1))
      ensures if !e.Entered? then pending == old(pending) && entered == old(entered) && settlements == old(settlements)
              else e.request !in old(entered) && entered == old(entered) + {e.request} &&
                   (if sent then pending == old(pending)[e.request := lifecycleEpoch] && settlements == old(settlements)
                    else pending == old(pending) && settlements == old(settlements)[e.request := SendFailed])
    {
      hide Table;
      Connect(newPort);
      if |pending| >= MAX_PENDING_REQUESTS {
        return CapacityExhausted;
      }
      if timeoutMs < 1 || timeoutMs > MAX_REQUEST_TIMEOUT_MS {
        return TimeoutOutOfBounds;
      }
      var request := Enter();
      if !sent {
        Settle(request, SendFailed);
        assert pending == old(pending);
      }
      return Entered(request);
    }

    /** A new number, an entry and its timer. */
    method Enter() returns (request: nat)
      requires Table() && |pending| < MAX_PENDING_REQUESTS
      modifies this`sequence, this`entered, this`timers, this`pending
      ensures Table() && request == sequence == old(sequence) + 1 && request !in old(entered) &&
              request !in old(pending)
      ensures entered == old(entered) + {request} && pending == old(pending)[request := lifecycleEpoch]
    {
      hide Connections;
      sequence := sequence + 1;
      request := sequence;
      entered := entered + {request};
      timers := timers + {request};
      assert pending[request := lifecycleEpoch].Keys == pending.Keys + {request};
      pending := pending[request := lifecycleEpoch];
    }

    method TimerFires(request: nat)
      requires Inv() && request in timers
      modifies this`pending, this`timers, this`settlements
      ensures Inv() && request in old(pending) && request !in old(settlements)
      ensures pending == old(pending) - {request} && settlements == old(settlements)[request := TimedOut]
    {
      Settle(request, TimedOut);
    }

    /** Everything pending is rejected, once each. */
    method RejectPending()
      requires Table()
      modifies this`pending, this`timers, this`settlements
      ensures Table() && pending == map[] && DisconnectedAll(old(pending), old(settlements))
    {
      while |pending| > 0
        invariant Table() && SettledMore(old(settlements))
        invariant forall r :: r in pending ==> r in old(pending)
        invariant forall r :: r in old(pending) && r !in pending ==> r in settlements && settlements[r] == Disconnected
        decreases |pending|
      {
        var request :| request in pending;
        assert (pending - {request}).Keys == pending.Keys - {request};
        Settle(request, Disconnected);
      }
    }

    /** The connection and its epoch end, then everything pending is rejected. */
    method EndConnection()
      requires Inv() && port.Some?
      modifies this`port, this`lifecycleEpoch, this`pending, this`timers, this`settlements
      ensures Inv() && port.None? && lifecycleEpoch == old(lifecycleEpoch) + 1 && pending == map[]
      ensures DisconnectedAll(old(pending), old(settlements))
    {
      port := None;
      lifecycleEpoch := lifecycleEpoch + 1;
      RejectPending();
    }

    method DisconnectIfCurrent(epoch: int) returns (disconnected: bool)
      requires Inv()
      modifies this`port, this`lifecycleEpoch, this`pending, this`timers, this`settlements
      ensures Inv() && disconnected == old(ConnectionIsCurrent(epoch))
      ensures if disconnected then
                port.None? && pending == map[] && lifecycleEpoch == old(lifecycleEpoch) + 1 &&
                DisconnectedAll(old(pending), old(settlements))
              else
                port == old(port) && pending == old(pending) && lifecycleEpoch == old(lifecycleEpoch) &&
                settlements == old(settlements)
    {
      if !ConnectionIsCurrent(epoch) {
        return false;
      }
      EndConnection();
      return true;
    }

    method HandleDisconnect(from: nat)
      requires Inv()
      modifies this`port, this`lifecycleEpoch, this`pending, this`timers, this`settlements
      ensures Inv()
      ensures if old(port) == Some(from) then
                port.None? && pending == map[] && lifecycleEpoch == old(lifecycleEpoch) + 1 &&
                DisconnectedAll(old(pending), old(settlements))
              else
                port == old(port) && pending == old(pending) && lifecycleEpoch == old(lifecycleEpoch) &&
                settlements == old(settlements)
    {
      if port == Some(from) {
        EndConnection();
      }
    }

    ghost predicate InOrder(m: Message)
      reads this`runtimeSession, this`lastEventSequence
    {
      !m.Malformed? && 1 <= m.eventSequence <= MAX_SAFE_INTEGER &&
      (runtimeSession == Some(m.session) ==> m.eventSequence > lastEventSequence)
    }

    /** Only messages of the current port, in order, reach a request or an observer; anything else from that
        port ends the connection. */
    method HandleMessage(from: nat, m: Message) returns (observed: bool)
      requires Inv()
      modifies this`port, this`lifecycleEpoch, this`pending, this`timers, this`settlements, this`runtimeSession,
        this`lastEventSequence
      ensures Inv() && lifecycleEpoch >= old(lifecycleEpoch) && SettledMore(old(settlements))
      ensures observed == (old(port) == Some(from) && old(InOrder(m)) && m.Event?)
      ensures old(port) != Some(from) ==>
                port == old(port) && pending == old(pending) && settlements == old(settlements) &&
                runtimeSession == old(runtimeSession) && lastEventSequence == old(lastEventSequence)
      ensures old(port) == Some(from) && (!old(InOrder(m)) || m.Unaddressed?) ==>
                port.None? && pending == map[] && lifecycleEpoch == old(lifecycleEpoch) + 1 &&
                DisconnectedAll(old(pending), old(settlements))
      ensures old(port) == Some(from) && old(InOrder(m)) ==>
                runtimeSession == Some(m.session) && lastEventSequence == m.eventSequence
      ensures old(port) == Some(from) && old(InOrder(m)) && (m.Event? || m.Reply?) ==>
                port == old(port) && lifecycleEpoch == old(lifecycleEpoch) &&
                if m.Reply? && m.request in old(pending) then
                  pending == old(pending) - {m.request} &&
                  m.request !in old(settlements) &&
                  settlements == old(settlements)[m.request := if m.ok then Result else NativeError]
                else pending == old(pending) && settlements == old(settlements)
    {
      hide Table, Connections;
      if port != Some(from) {
        return false;
      }
      if m.Malformed? || m.eventSequence < 1 || m.eventSequence > MAX_SAFE_INTEGER {
        EndConnection();
        return false;
      }
      if runtimeSession == Some(m.session) {
        if m.eventSequence <= lastEventSequence {
          EndConnection();
          return false;
        }
      } else {
        runtimeSession := Some(m.session);
      }
      lastEventSequence := m.eventSequence;
      if m.Event? {
        return true;
      }
      if m.Unaddressed? {
        EndConnection();
        return false;
      }
      if m.request in pending {
        Settle(m.request, if m.ok then Result else NativeError);
      }
      return false;
    }

    method Step()
      requires Inv()
      modifies this
      ensures Inv() && old(entered) <= entered && SettledMore(old(settlements))
      ensures forall e :: e in old(issued) ==> e in issued && issued[e] == old(issued)[e]
      ensures forall e :: e in old(issued) && old(CurrentConnectionEpoch()) != Some(e) ==>
                e in issued && CurrentConnectionEpoch() != Some(e)
    {
      forall e: nat { EpochIsOfOneConnection(e); }
      var choice: nat, number: nat := *, *;
      if choice == 0 {
        var timeoutMs: int, sent: bool := *, *;
        var _ := Request(number, timeoutMs, sent);
      } else if choice == 1 {
        if number in timers { TimerFires(number); }
      } else if choice == 2 {
        HandleDisconnect(number);
      } else if choice == 3 {
        var _ := DisconnectIfCurrent(number);
      } else {
        var m: Message := *;
        var _ := HandleMessage(number, m);
      }
    }

    /** Any number of steps in any order: every request entered is settled at most once, and is either settled or
        still in the table of the current connection; no connection epoch that is over becomes current again. */
    method Run(steps: nat)
      requires Inv()
      modifies this
      ensures Inv() && old(entered) <= entered && SettledMore(old(settlements))
      ensures forall r :: r in entered ==>
                (r in settlements <==> r !in pending) && (r in pending ==> CurrentConnectionEpoch() == Some(pending[r]))
      ensures forall e :: e in old(issued) && old(CurrentConnectionEpoch()) != Some(e) ==>
                e in issued && issued[e] == old(issued)[e] && CurrentConnectionEpoch() != Some(e)
    {
      for i := 0 to steps
        invariant Inv() && old(entered) <= entered && SettledMore(old(settlements))
        invariant forall e :: e in old(issued) ==> e in issued && issued[e] == old(issued)[e]
        invariant forall e :: e in old(issued) && old(CurrentConnectionEpoch()) != Some(e) ==>
                    CurrentConnectionEpoch() != Some(e)
      {
        Step();
      }
    }
  }
}
