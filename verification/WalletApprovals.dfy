/** The wallet approvals of extension/src/service-worker.js: registration, decision, window closing, expiry
    and invalidation, each cut at its awaits.  A context is the instance that registration made; what is
    keyed by its identifier may by then be another instance, or none. */
module WalletApprovals {
  import opened Basics

  const MAX_PENDING_WALLET_APPROVALS := 8

  /** A flow that waits: what it will touch when it resumes.  Registering and deciding flows know an
      identifier; the others hold the context they took out of the map. */
  datatype Flow =
    | Registering(id: string)
    | Opening(id: string)
    | Checking(id: string, captured: bool)
    | Failing(id: string)
    | Removing(id: string, context: Option<nat>)
    | Revalidating(id: string, held: nat)
    | Dispatched(id: string, held: nat)
    | Completing(id: string, held: nat)
    | ClosingRemoval(held: nat)
    | ClosingRevalidation(held: nat)
  {
    predicate Deciding() {
      Checking? || Failing? || Removing? || Revalidating? || Dispatched? || Completing?
    }

    function Holds(): Option<nat> {
      match this
      case Registering(_) => None
      case Opening(_) => None
      case Checking(_, _) => None
      case Failing(_) => None
      case Removing(_, context) => context
      case Revalidating(_, held) => Some(held)
      case Dispatched(_, held) => Some(held)
      case Completing(_, held) => Some(held)
      case ClosingRemoval(held) => Some(held)
      case ClosingRevalidation(held) => Some(held)
    }
  }

  predicate Distinct(s: seq<nat>) {
    forall i, j :: 0 <= i < j < |s| ==> s[i] != s[j]
  }

  class WalletApprovals {
    var contexts: map<string, nat>
    var claims: set<string>
    // The flows that wait.
    var flows: map<nat, Flow>
    var next: nat
    /** The flow that made each claim. */
    ghost var claimants: map<string, nat>
    // History: contexts for which a native decision was dispatched, or whose page promise was settled.
    ghost var dispatched: seq<nat>
    ghost var settled: seq<nat>

    ghost predicate Untouched(context: nat)
      reads this`next, this`dispatched, this`settled
    {
      context < next && context !in dispatched && context !in settled
    }

    /** How far the flow that holds a context has got with it. */
    ghost predicate Progress(f: Flow)
      reads this`next, this`dispatched, this`settled
    {
      match f
      case Removing(_, context) => context.Some? ==> Untouched(context.value)
      case Revalidating(_, held) => Untouched(held)
      case Dispatched(_, held) => held < next && held in dispatched && held !in settled
      case Completing(_, held) => held < next && held in dispatched && held !in settled
      case ClosingRemoval(held) => Untouched(held)
      case ClosingRevalidation(held) => held < next && held in settled && held !in dispatched
      case _ => true
    }

    /** A context is in the map once, or held by one flow, or neither. */
    ghost predicate OneHolder()
      reads this`contexts, this`flows
    {
      (forall i, j :: i in contexts && j in contexts && i != j ==> contexts[i] != contexts[j]) &&
      (forall i, f :: i in contexts && f in flows ==> flows[f].Holds() != Some(contexts[i])) &&
      forall f, g :: f in flows && g in flows && f != g && flows[f].Holds().Some? ==>
          flows[f].Holds() != flows[g].Holds()
    }

    /** The claims are those of the flows that are deciding, one for each. */
    ghost predicate Claimed()
      reads this`claims, this`claimants, this`flows
    {
      (forall i :: i in claims ==>
        i in claimants && claimants[i] in flows && flows[claimants[i]].Deciding() && flows[claimants[i]].id == i) &&
      forall f :: f in flows && flows[f].Deciding() ==> flows[f].id in claims && claimants[flows[f].id] == f
    }

    ghost predicate Inv()
      reads this
    {
      OneHolder() && (forall i :: i in contexts ==> Untouched(contexts[i])) &&
      (forall f :: f in flows ==> Progress(flows[f])) &&
      Claimed() &&
      (forall c :: c in dispatched || c in settled ==> c < next) && Distinct(dispatched) && Distinct(settled)
    }

    constructor ()
      ensures Inv() && contexts == map[] && claims == {} && flows == map[]
    {
      contexts, claims, flows, next := map[], {}, map[], 0;
      dispatched, settled, claimants := [], [], map[];
    }

    /** A native decision for a context, the first. */
    ghost method Dispatch(context: nat)
      requires context !in dispatched
      modifies this`dispatched
      ensures dispatched == old(dispatched) + [context]
    {
      dispatched := dispatched + [context];
    }

    /** resolveRequest or rejectRequest of a context, called for the first time. */
    ghost method Settle(context: nat)
      requires context !in settled
      modifies this`settled
      ensures settled == old(settled) + [context]
    {
      settled := settled + [context];
    }

    // ---- registration ----

    /** `originFull`: two contexts of the prompt's origin are pending already. */
    method BeginRegistration(flow: nat, id: string, originFull: bool) returns (refused: bool)
      requires Inv() && flow !in flows
      modifies this`flows
      ensures Inv() && refused == (|contexts| >= 8 || originFull || id in contexts)
      ensures flows == if refused then old(flows) else old(flows)[flow := Registering(id)]
    {
      refused := |contexts| >= MAX_PENDING_WALLET_APPROVALS || originFull || id in contexts;
      if !refused { flows := flows[flow := Registering(id)]; }
    }

    /** Storage was read: unless it has the identifier, the context is made, over any other of that identifier. */
    method Register(flow: nat, stored: bool)
      requires Inv() && flow in flows && flows[flow].Registering?
      modifies this`flows, this`contexts, this`next
      ensures Inv()
      ensures stored ==> contexts == old(contexts) && next == old(next) && flows == old(flows) - {flow}
      ensures !stored ==> contexts == old(contexts)[old(flows)[flow].id := old(next)] && next == old(next) + 1
    {
      hide Inv;
      if stored { Abandon(flow); } else { MakeContext(flow); }
    }

    method Abandon(flow: nat)
      requires Inv() && flow in flows && flows[flow].Registering?
      modifies this`flows
      ensures Inv() && flows == old(flows) - {flow}
    {
      flows := flows - {flow};
    }

    method MakeContext(flow: nat)
      requires Inv() && flow in flows && flows[flow].Registering?
      modifies this`flows, this`contexts, this`next
      ensures Inv() && contexts == old(contexts)[old(flows)[flow].id := old(next)] && next == old(next) + 1
    {
      var id := flows[flow].id;
      contexts := contexts[id := next];
      next := next + 1;
      flows := flows[flow := Opening(id)];
    }

    /** Storage and window follow; if they fail, whatever context has the identifier is dropped. */
    method FinishRegistration(flow: nat, failed: bool)
      requires Inv() && flow in flows && flows[flow].Opening?
      modifies this`flows, this`contexts
      ensures Inv() && flows == old(flows) - {flow}
      ensures contexts == if failed then old(contexts) - {old(flows)[flow].id} else old(contexts)
    {
      if failed { contexts := contexts - {flows[flow].id}; }
      flows := flows - {flow};
    }

    // ---- expiry, invalidation, closing ----

    /** expireWalletApproval: the context now in the map is taken out and its page promise rejected. */
    method Expire(id: string)
      requires Inv()
      modifies this`contexts, this`settled
      ensures Inv() && contexts == old(contexts) - {id}
      ensures settled == if id in old(contexts) then old(settled) + [old(contexts)[id]] else old(settled)
    {
      if id in contexts {
        Settle(contexts[id]);
        contexts := contexts - {id};
      }
    }

    method CloseWindow(flow: nat, id: string)
      requires Inv() && flow !in flows
      modifies this`contexts, this`flows
      ensures Inv()
      ensures if id in claims || id !in old(contexts) then contexts == old(contexts) && flows == old(flows)
              else contexts == old(contexts) - {id} && flows == old(flows)[flow := ClosingRemoval(old(contexts)[id])]
    {
      if id in claims || id !in contexts { return; }
      var context := contexts[id];
      contexts := contexts - {id};
      flows := flows[flow := ClosingRemoval(context)];
    }

    /** The closed window's promise is rejected before anything else is tried. */
    method RejectClosed(flow: nat)
      requires Inv() && flow in flows && flows[flow].ClosingRemoval?
      modifies this`flows, this`settled
      ensures Inv() && flows == old(flows)[flow := ClosingRevalidation(old(flows)[flow].held)]
      ensures old(flows)[flow].held !in old(settled) && settled == old(settled) + [old(flows)[flow].held]
    {
      var context := flows[flow].held;
      Settle(context);
      flows := flows[flow := ClosingRevalidation(context)];
    }

    method DispatchClosed(flow: nat, stale: bool)
      requires Inv() && flow in flows && flows[flow].ClosingRevalidation?
      modifies this`flows, this`dispatched
      ensures Inv() && flows == old(flows) - {flow}
      ensures old(flows)[flow].held !in old(dispatched)
      ensures dispatched == if stale then old(dispatched) else old(dispatched) + [old(flows)[flow].held]
    {
      if !stale { Dispatch(flows[flow].held); }
      flows := flows - {flow};
    }

    // ---- decisions ----

    method BeginDecision(flow: nat, id: string) returns (claimed: bool)
      requires Inv() && flow !in flows
      modifies this`claims, this`claimants, this`flows
      ensures Inv() && claimed == (id !in old(claims))
      ensures if claimed then claims == old(claims) + {id} && flows == old(flows)[flow := Checking(id, id in contexts)]
              else claims == old(claims) && flows == old(flows)
    {
      if id in claims { return false; }
      claims := claims + {id};
      claimants := claimants[id := flow];
      flows := flows[flow := Checking(id, id in contexts)];
      return true;
    }

    /** The stored prompt was read.  The context taken is the one in the map now, if there still is one. */
    method ResumeChecking(flow: nat, matches: bool)
      requires Inv() && flow in flows && flows[flow].Checking?
      modifies this`contexts, this`flows, this`settled
      ensures Inv() && contexts == (if old(flows)[flow].captured then old(contexts) - {old(flows)[flow].id}
                else old(contexts))
      ensures var id := old(flows)[flow].id; var found := if id in old(contexts) then Some(old(contexts)[id]) else None;
              if old(flows)[flow].captured && matches then
                flows == old(flows)[flow := Removing(id, found)] && settled == old(settled)
              else
                flows == old(flows)[flow := Failing(id)] &&
                settled == if old(flows)[flow].captured && found.Some? then old(settled) + [found.value]
                  else old(settled)
    {
      hide Inv;
      var id, captured := flows[flow].id, flows[flow].captured;
      if captured && matches {
        TakeContext(flow);
      } else {
        if captured { Expire(id); }
        FailDecision(flow);
      }
    }

    method TakeContext(flow: nat)
      requires Inv() && flow in flows && flows[flow].Checking?
      modifies this`contexts, this`flows
      ensures Inv() && contexts == old(contexts) - {old(flows)[flow].id}
      ensures var id := old(flows)[flow].id; var found := if id in old(contexts) then Some(old(contexts)[id]) else None;
              flows == old(flows)[flow := Removing(id, found)]
    {
      var id := flows[flow].id;
      var context := if id in contexts then Some(contexts[id]) else None;
      contexts := contexts - {id};
      flows := flows[flow := Removing(id, context)];
    }

    method FailDecision(flow: nat)
      requires Inv() && flow in flows && flows[flow].Checking?
      modifies this`flows
      ensures Inv() && flows == old(flows)[flow := Failing(old(flows)[flow].id)]
    {
      flows := flows[flow := Failing(flows[flow].id)];
    }

    /** A deciding flow ends: its claim is given up, and what it holds is rejected if it was not settled. */
    method EndDecision(flow: nat)
      requires Inv() && flow in flows && flows[flow].Deciding() && !flows[flow].Checking?
      modifies this`claims, this`flows, this`settled
      ensures Inv() && flows == old(flows) - {flow} && claims == old(claims) - {old(flows)[flow].id}
      ensures var held := old(flows)[flow].Holds();
              (held.Some? ==> held.value !in old(settled)) &&
              settled == if held.Some? then old(settled) + [held.value] else old(settled)
    {
      var f := flows[flow];
      if f.Holds().Some? { Settle(f.Holds().value); }
      claims := claims - {f.id};
      flows := flows - {flow};
    }

    /** The prompt was removed from storage; without a context there is nothing to revalidate. */
    method ResumeRemoving(flow: nat, failed: bool)
      requires Inv() && flow in flows && flows[flow].Removing?
      modifies this`claims, this`flows, this`settled
      ensures Inv()
      ensures var f := old(flows)[flow];
              if failed || f.context.None? then
                flows == old(flows) - {flow} && claims == old(claims) - {f.id} &&
                settled == if f.context.Some? then old(settled) + [f.context.value] else old(settled)
              else flows == old(flows)[flow := Revalidating(old(flows)[flow].id, old(flows)[flow].context.value)] &&
                   settled == old(settled) && claims == old(claims)
    {
      var f := flows[flow];
      if failed || f.context.None? {
        EndDecision(flow);
      } else {
        flows := flows[flow := Revalidating(f.id, f.context.value)];
      }
    }

    /** Revalidated, the decision is dispatched to the native host; stale, the page is refused. */
    method ResumeRevalidating(flow: nat, stale: bool)
      requires Inv() && flow in flows && flows[flow].Revalidating?
      modifies this`claims, this`flows, this`settled, this`dispatched
      ensures Inv()
      ensures if stale then
                flows == old(flows) - {flow} && dispatched == old(dispatched) &&
                  settled == old(settled) + [old(flows)[flow].held]
              else flows == old(flows)[flow := Dispatched(old(flows)[flow].id, old(flows)[flow].held)] &&
                   settled == old(settled) && old(flows)[flow].held !in old(dispatched) &&
                   dispatched == old(dispatched) + [old(flows)[flow].held]
    {
      hide Inv;
      if stale { EndDecision(flow); } else { DispatchDecision(flow); }
    }

    method DispatchDecision(flow: nat)
      requires Inv() && flow in flows && flows[flow].Revalidating?
      modifies this`flows, this`dispatched
      ensures Inv() && flows == old(flows)[flow := Dispatched(old(flows)[flow].id, old(flows)[flow].held)]
      ensures old(flows)[flow].held !in old(dispatched) && dispatched == old(dispatched) + [old(flows)[flow].held]
    {
      var f := flows[flow];
      Dispatch(f.held);
      flows := flows[flow := Dispatched(f.id, f.held)];
    }

    method ResumeDispatched(flow: nat, failed: bool)
      requires Inv() && flow in flows && flows[flow].Dispatched?
      modifies this`claims, this`flows, this`settled
      ensures Inv()
      ensures if failed then flows == old(flows) - {flow} && settled == old(settled) + [old(flows)[flow].held]
              else settled == old(settled) &&
                   flows == old(flows)[flow := Completing(old(flows)[flow].id, old(flows)[flow].held)]
    {
      var f := flows[flow];
      if failed { EndDecision(flow); } else { flows := flows[flow := Completing(f.id, f.held)]; }
    }

    // ---- every interleaving ----

    method StepDecision(flow: nat, bad: bool)
      requires Inv() && flow in flows && flows[flow].Deciding()
      modifies this`contexts, this`claims, this`flows, this`settled, this`dispatched
      ensures Inv() && old(dispatched) <= dispatched && old(settled) <= settled
    {
      var f := flows[flow];
      if f.Checking? { ResumeChecking(flow, !bad); }
      else if f.Removing? { ResumeRemoving(flow, bad); }
      else if f.Revalidating? { ResumeRevalidating(flow, bad); }
      else if f.Dispatched? { ResumeDispatched(flow, bad); }
      else { EndDecision(flow); }
    }

    method Step()
      requires Inv()
      modifies this
      ensures Inv() && old(next) <= next && old(dispatched) <= dispatched && old(settled) <= settled
    {
      var choice: int, flow: int, id: string, bad: bool := *, *, *, *;
      if flow < 0 { return; }
      if flow in flows {
        match flows[flow] {
          case Registering(_) => Register(flow, bad);
          case Opening(_) => FinishRegistration(flow, bad);
          case ClosingRemoval(_) => RejectClosed(flow);
          case ClosingRevalidation(_) => DispatchClosed(flow, bad);
          case _ => StepDecision(flow, bad);
        }
      } else if choice == 0 {
        var _ := BeginRegistration(flow, id, bad);
      } else if choice == 1 {
        var _ := BeginDecision(flow, id);
      } else if choice == 2 {
        CloseWindow(flow, id);
      } else {
        Expire(id);
      }
    }

    /** Under any interleaving, no context has two native decisions or two settlements in the history, which only
        grows; and no context is made twice. */
    method Run(steps: nat)
      requires Inv()
      modifies this
      ensures Inv() && Distinct(dispatched) && Distinct(settled)
      ensures old(next) <= next && old(dispatched) <= dispatched && old(settled) <= settled
    {
      for i := 0 to steps
        invariant Inv() && old(next) <= next && old(dispatched) <= dispatched && old(settled) <= settled
      {
        Step();
      }
    }
  }
}
