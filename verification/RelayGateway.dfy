/**
 * The code of the two kinds of relay delivery (apps/api/src/server.ts:1464-1554, 2722-2752,
 * 2943-2964), store call by store call, for whatever plan the delivery decided on. Before each
 * call everybody else may move. The contracts say that a delivery is a run of the step machine
 * of WaitingContracts.
 */
module RelayGateway {
  import opened Wrappers
  import opened MentionRouting
  import opened WaitingContracts

  predicate IsOther(d: nat, step: Step) {
    (step.Own? || step.Deliver? || step.Crash?) ==> step.d != d
  }

  predicate OthersOnly(window: nat, w: World, d: nat, steps: seq<Step>) {
    IsRun(window, w, steps) && forall i :: 0 <= i < |steps| ==> IsOther(d, steps[i])
  }

  lemma {:induction false} OthersKeepDelivery(window: nat, w: World, d: nat, steps: seq<Step>)
    requires OthersOnly(window, w, d, steps) && d in w.deliveries
    ensures d in After(window, w, steps).deliveries
    ensures After(window, w, steps).deliveries[d] == w.deliveries[d]
    ensures Grows(w, After(window, w, steps))
    decreases |steps|
  {
    if steps != [] {
      var next := Apply(window, w, steps[0]);
      StepGrows(window, w, steps[0]);
      if steps[0].Own? {
        EffectGrows(window, w, w.deliveries[steps[0].d], steps[0].call);
      }
      assert forall i :: 0 <= i < |steps[1..]| ==> steps[1..][i] == steps[i + 1];
      OthersKeepDelivery(window, next, d, steps[1..]);
      GrowsTransitive(w, next, After(window, next, steps[1..]));
    }
  }

  datatype Reply = Threw | AlreadyAcked | Contract(id: nat)

  class Gateway {
    /** How long the chat remembers a uuid. */
    const window: nat
    var w: World

    constructor (window: nat, now: int)
      ensures this.window == window && w == Initial(now)
    {
      this.window := window;
      w := Initial(now);
    }

    predicate At(d: nat, scope: Scope, agentId: string, plan: Plan, pc: Pc)
      reads this
    {
      Stands(w, d, scope, agentId, plan, pc)
    }

    predicate IsAcked(scope: Scope, agentId: string)
      reads this
    {
      RowKey(scope, agentId) in w.contracts && w.contracts[RowKey(scope, agentId)].ack.Some?
    }

    /** Any steps of the others, between two calls of `d`. */
    method Pause(ghost origin: World, d: nat)
      requires Reaches(window, origin, w) && d in w.deliveries
      modifies this
      ensures Reaches(window, origin, w) && Grows(old(w), w)
      ensures d in w.deliveries && w.deliveries[d] == old(w.deliveries[d])
    {
      assert OthersOnly(window, w, d, []);
      var steps :| OthersOnly(window, w, d, steps);
      OthersKeepDelivery(window, w, d, steps);
      ReachesFurther(window, origin, w, steps);
      w := After(window, w, steps);
    }

    /** One call of `d`, with its outcome. */
    method Make(ghost origin: World, d: nat, ghost m: Delivery, call: Call)
      requires Reaches(window, origin, w) && d in w.deliveries && w.deliveries[d] == m && Fits(w, m, call)
      modifies this
      ensures Reaches(window, origin, w) && Grows(old(w), w)
      ensures w == Apply(window, old(w), Own(d, call))
      ensures d in w.deliveries && w.deliveries[d] == m.(pc := Next(window, old(w), m, call))
    {
      ghost var next := Extend(window, origin, w, Own(d, call));
      StepGrows(window, w, Own(d, call));
      w := Apply(window, w, Own(d, call));
    }

    method Begin(d: nat, scope: Scope, agentId: string, plan: Plan)
      requires ProperScope(scope) && HasPart(plan, agentId) && d !in w.deliveries
      modifies this
      ensures w == Apply(window, old(w), Deliver(d, scope, agentId, plan))
      ensures Reaches(window, old(w), w)
    {
      ReachesItself(window, w);
      ghost var next := Extend(window, w, w, Deliver(d, scope, agentId, plan));
      w := Apply(window, w, Deliver(d, scope, agentId, plan));
    }

    /** `createWaitingContract` for the i-th deferred agent. */
    method CreateWaitingContract(ghost origin: World, d: nat, scope: Scope, plan: Plan, i: nat) returns (threw: bool)
      requires i < |plan.contracts| && Reaches(window, origin, w)
      requires At(d, scope, plan.primary.agentId, plan, AtContract(i))
      modifies this
      ensures Reaches(window, origin, w) && Grows(old(w), w)
      ensures At(d, scope, plan.primary.agentId, plan, if threw then Done(false) else AtContract(i + 1))
      ensures !threw ==> RowKey(scope, plan.contracts[i].agent.agentId) in w.contracts
    {
      Pause(origin, d);
      var outcome: Outcome := *;
      Make(origin, d, Delivery(scope, plan.primary.agentId, plan, AtContract(i)), CreateContract(outcome));
      threw := outcome != Works;
    }

    /** The loop over the deferred agents: the first failure aborts the event. */
    method PersistContracts(ghost origin: World, d: nat, scope: Scope, plan: Plan) returns (threw: bool)
      requires Reaches(window, origin, w) && At(d, scope, plan.primary.agentId, plan, AtContract(0))
      modifies this
      ensures Reaches(window, origin, w)
      ensures At(d, scope, plan.primary.agentId, plan, if threw then Done(false) else AtContract(|plan.contracts|))
      ensures !threw ==> AllCovered(w, scope, plan)
    {
      for i := 0 to |plan.contracts|
        invariant Reaches(window, origin, w)
        invariant At(d, scope, plan.primary.agentId, plan, AtContract(i))
        invariant Covered(w, scope, plan, i)
      {
        var failed := CreateWaitingContract(origin, d, scope, plan, i);
        if failed {
          return true;
        }
      }
      threw := false;
    }

    /** What the start of the task brings: a task, a failure, or an answer without a task. */
    method StartTask(ghost origin: World, d: nat, scope: Scope, plan: Plan) returns (result: TaskOutcome)
      requires Reaches(window, origin, w) && At(d, scope, plan.primary.agentId, plan, AtContract(|plan.contracts|))
      modifies this
      ensures Reaches(window, origin, w) && Grows(old(w), w)
      ensures (result.Created? || result.AnsweredInstead?) ==> At(d, scope, plan.primary.agentId, plan, AtPrimaryBind)
      ensures result.Ended? ==> At(d, scope, plan.primary.agentId, plan, Done(true))
      ensures (result.Failed? || result.CreatedThenFailed?) ==> At(d, scope, plan.primary.agentId, plan, Done(false))
      ensures result.Created? ==> TaskFor(scope, plan.primary.agentId) in w.tasks
    {
      Pause(origin, d);
      result := *;
      Make(origin, d, Delivery(scope, plan.primary.agentId, plan, AtContract(|plan.contracts|)), CreateTask(result));
    }

    /** Best effort: a failed bind is logged and the event is still marked processed. */
    method BindFromPrimary(ghost origin: World, d: nat, scope: Scope, plan: Plan) returns (failed: bool)
      requires Reachable(window, origin) && Reaches(window, origin, w)
      requires At(d, scope, plan.primary.agentId, plan, AtPrimaryBind)
      modifies this
      ensures Reaches(window, origin, w) && Grows(old(w), w)
      ensures At(d, scope, plan.primary.agentId, plan, Done(true))
      ensures !failed && OneLead(w, scope, plan.primary.agentId) ==>
        forall spec :: spec in plan.contracts ==> IsBoundTo(w, scope, spec.agent.agentId, plan.primary.agentId)
    {
      Pause(origin, d);
      var outcome: Outcome := *;
      ghost var before := w;
      Make(origin, d, Delivery(scope, plan.primary.agentId, plan, AtPrimaryBind), Bind(outcome));
      failed := outcome != Works;
      ghost var now :| Reaches(window, Initial(now), origin);
      ReachesTransitive(window, Initial(now), origin, before);
      if !failed && OneLead(w, scope, plan.primary.agentId) {
        ReachesItself(window, w);
        BoundForGood(window, before, d, outcome, w);
      }
    }

    /** The delivery of the primary agent; `processed` unless the event is left for redelivery. */
    method DispatchPrimary(d: nat, scope: Scope, plan: Plan) returns (processed: bool, started: bool, bindFailed: bool)
      requires Reachable(window, w) && ProperScope(scope) && d !in w.deliveries
      modifies this
      ensures Reaches(window, old(w), w)
      ensures At(d, scope, plan.primary.agentId, plan, Done(processed))
      ensures started ==> AllCovered(w, scope, plan) && TaskFor(scope, plan.primary.agentId) in w.tasks
      ensures started && !bindFailed && OneLead(w, scope, plan.primary.agentId) ==>
        forall spec :: spec in plan.contracts ==> IsBoundTo(w, scope, spec.agent.agentId, plan.primary.agentId)
    {
      ghost var origin := w;
      started, bindFailed := false, false;
      Begin(d, scope, plan.primary.agentId, plan);
      var threw := PersistContracts(origin, d, scope, plan);
      if threw {
        return false, false, false;
      }
      var result := StartTask(origin, d, scope, plan);
      if result.Failed? || result.CreatedThenFailed? {
        return false, false, false;
      }
      if result.Ended? {
        return true, false, false;
      }
      started := result.Created?;
      bindFailed := BindFromPrimary(origin, d, scope, plan);
      processed := true;
    }

    /** Writes the contract, or finds it and looks whether its ack is recorded. */
    method CreateOwnContract(ghost origin: World, d: nat, scope: Scope, agentId: string, plan: Plan)
      returns (contract: Reply, readAt: int)
      requires Reaches(window, origin, w) && At(d, scope, agentId, plan, AtOwnContract)
      modifies this
      ensures Reaches(window, origin, w)
      ensures contract.Threw? ==> At(d, scope, agentId, plan, Done(false))
      ensures contract.AlreadyAcked? ==> At(d, scope, agentId, plan, Done(true)) && IsAcked(scope, agentId)
      ensures contract.Contract? ==>
        At(d, scope, agentId, plan, AtLookup(contract.id, readAt)) && !IsAcked(scope, agentId)
    {
      Pause(origin, d);
      var outcome: Outcome := *;
      var found, nextId := RowKey(scope, agentId) in w.contracts, w.nextId;
      Make(origin, d, Delivery(scope, agentId, plan, AtOwnContract), CreateContract(outcome));
      readAt := w.now;
      if outcome != Works {
        return Threw, readAt;
      }
      if !found {
        return Contract(nextId), readAt;
      }
      contract, readAt := ReadOwnContract(origin, d, scope, agentId, plan);
    }

    method ReadOwnContract(ghost origin: World, d: nat, scope: Scope, agentId: string, plan: Plan)
      returns (contract: Reply, readAt: int)
      requires Reaches(window, origin, w) && At(d, scope, agentId, plan, AtReadBack)
      requires RowKey(scope, agentId) in w.contracts
      modifies this
      ensures Reaches(window, origin, w)
      ensures contract.Threw? ==> At(d, scope, agentId, plan, Done(false))
      ensures contract.AlreadyAcked? ==> At(d, scope, agentId, plan, Done(true)) && IsAcked(scope, agentId)
      ensures contract.Contract? ==>
        At(d, scope, agentId, plan, AtLookup(contract.id, readAt)) && !IsAcked(scope, agentId)
    {
      Pause(origin, d);
      var works: bool := *;
      var row := w.contracts[RowKey(scope, agentId)];
      Make(origin, d, Delivery(scope, agentId, plan, AtReadBack), ReadContract(works));
      readAt := w.now;
      contract := if !works then Threw else if row.ack.Some? then AlreadyAcked else Contract(row.id);
    }

    /** Best effort: attaches the contracts if the primary delivery already made its task. */
    method BindIfStarted(ghost origin: World, d: nat, scope: Scope, agentId: string, plan: Plan, id: nat, readAt: int)
      requires Reaches(window, origin, w) && At(d, scope, agentId, plan, AtLookup(id, readAt))
      modifies this
      ensures Reaches(window, origin, w) && At(d, scope, agentId, plan, AtAck(id, readAt))
    {
      Pause(origin, d);
      var works: bool := *;
      var found := works && TaskFor(scope, plan.primary.agentId) in w.tasks;
      Make(origin, d, Delivery(scope, agentId, plan, AtLookup(id, readAt)), FindTask(works));
      if found {
        Pause(origin, d);
        var outcome: Outcome := *;
        Make(origin, d, Delivery(scope, agentId, plan, AtBind(id, readAt)), Bind(outcome));
      }
    }

    /** Posts the ack under the contract's uuid and records the message; a failure is only logged. */
    method PostAck(ghost origin: World, d: nat, scope: Scope, agentId: string, plan: Plan, id: nat, readAt: int)
      returns (posted: bool)
      requires Reaches(window, origin, w) && At(d, scope, agentId, plan, AtAck(id, readAt))
      modifies this
      ensures Reaches(window, origin, w) && At(d, scope, agentId, plan, Done(true))
      ensures posted ==> exists i :: 0 <= i < |w.acks| && w.acks[i].id == id
    {
      Pause(origin, d);
      var sent: Outcome := *;
      ghost var messageId := MessageOf(window, w.acks, id, w.now);
      Make(origin, d, Delivery(scope, agentId, plan, AtAck(id, readAt)), SendAck(sent));
      if sent != Works {
        return false;
      }
      posted := true;
      assert w.acks[messageId].id == id;
      Pause(origin, d);
      assert w.acks[messageId].id == id;
      var recorded: Outcome := *;
      Make(origin, d, Delivery(scope, agentId, plan, AtRecord(id, messageId)), RecordAck(recorded));
    }

    /** The delivery of a deferred agent. */
    method HandleDeferredMentionDelivery(d: nat, scope: Scope, agentId: string, plan: Plan) returns (processed: bool)
      requires ProperScope(scope) && HasPart(plan, agentId) && agentId != plan.primary.agentId && d !in w.deliveries
      modifies this
      ensures Reaches(window, old(w), w)
      ensures At(d, scope, agentId, plan, Done(processed))
    {
      ghost var origin := w;
      Begin(d, scope, agentId, plan);
      var contract, readAt := CreateOwnContract(origin, d, scope, agentId, plan);
      if contract.Threw? {
        return false;
      }
      if contract.Contract? {
        BindIfStarted(origin, d, scope, agentId, plan, contract.id, readAt);
        var posted := PostAck(origin, d, scope, agentId, plan, contract.id, readAt);
      }
      processed := true;
    }
  }
}
