/**
 * The Slack inbound dispatch as code (apps/api/src/slack-events.ts,
 * apps/api/src/neutral-dispatch.ts): its control flow, store call by store call, over the
 * stores of NeutralDispatch. Each call first lets everybody else move (Yield), then has one
 * of its outcomes. The contracts say that a call of `Dispatch` is a run of the step machine,
 * whatever the others do, and that it is accepted only with the message settled.
 */
module SlackGateway {
  import opened Wrappers
  import opened NeutralDispatch

  /** What an awaited call gives its caller. */
  datatype Reply<+T> = Returned(value: T) | Threw

  datatype CreateResult = DirectReply | TaskCreated | TaskDuplicate

  /** A step of somebody else than delivery `d`. */
  predicate IsOther(d: nat, step: Step) {
    (step.Own? || step.Deliver? || step.Crash?) ==> step.d != d
  }

  predicate OthersOnly(w: World, d: nat, steps: seq<Step>) {
    IsRun(w, steps) && forall i :: 0 <= i < |steps| ==> IsOther(d, steps[i])
  }

  lemma OtherStepKeepsDelivery(w: World, d: nat, step: Step)
    requires Enabled(w, step) && IsOther(d, step) && d in w.deliveries
    ensures d in Apply(w, step).deliveries && Apply(w, step).deliveries[d] == w.deliveries[d]
  {
  }

  lemma {:induction false} OthersKeepDelivery(w: World, d: nat, steps: seq<Step>)
    requires OthersOnly(w, d, steps) && d in w.deliveries
    ensures d in After(w, steps).deliveries && After(w, steps).deliveries[d] == w.deliveries[d]
    ensures Grows(w, After(w, steps))
    decreases |steps|
  {
    if steps != [] {
      OtherStepKeepsDelivery(w, d, steps[0]);
      StepGrows(w, steps[0]);
      assert forall i :: 0 <= i < |steps[1..]| ==> steps[1..][i] == steps[i + 1];
      OthersKeepDelivery(Apply(w, steps[0]), d, steps[1..]);
    }
  }

  class Gateway {
    var w: World

    constructor (now: int)
      ensures w == Initial(now) && Reachable(w)
    {
      w := Initial(now);
      new;
      ReachesItself(Initial(now));
    }

    /** Delivery `d` of `m` is about to make the call `pc`. */
    predicate Stands(d: nat, m: Message, pc: Pc)
      reads this
    {
      d in w.deliveries && w.deliveries[d] == Delivery(m, pc)
    }

    /** One store call: an atomic step of the machine. */
    method Do(step: Step)
      requires Enabled(w, step)
      modifies this
      ensures w == Apply(old(w), step)
      ensures Reaches(old(w), w)
    {
      ReachesByStep(w, step);
      w := Apply(w, step);
    }

    /** Any steps of the others, between two calls of `d`. */
    method Yield(d: nat)
      requires d in w.deliveries
      modifies this
      ensures Reaches(old(w), w) && Grows(old(w), w)
      ensures d in w.deliveries && w.deliveries[d] == old(w.deliveries[d])
    {
      assert OthersOnly(w, d, []);
      var steps :| OthersOnly(w, d, steps);
      OthersKeepDelivery(w, d, steps);
      w := After(w, steps);
    }

    /** Yield, then one call with one of its outcomes. */
    method Make(ghost origin: World, d: nat, m: Message, pc: Pc, call: Call)
      requires Reaches(origin, w) && Stands(d, m, pc) && Fits(w, m, pc, call)
      modifies this
      ensures w == Apply(old(w), Own(d, call)) && Reaches(origin, w)
      ensures Stands(d, m, Next(old(w), m, pc, call))
      ensures Grows(old(w), w)
    {
      ghost var was := w;
      StepGrows(w, Own(d, call));
      Do(Own(d, call));
      ReachesTransitive(origin, was, w);
    }

    method Pause(ghost origin: World, d: nat)
      requires Reaches(origin, w) && d in w.deliveries
      modifies this
      ensures Reaches(origin, w) && Grows(old(w), w)
      ensures d in w.deliveries && w.deliveries[d] == old(w.deliveries[d])
    {
      ghost var was := w;
      Yield(d);
      ReachesTransitive(origin, was, w);
    }

    method CheckAndRecordEvent(ghost origin: World, d: nat, m: Message) returns (duplicate: Reply<bool>)
      requires Reaches(origin, w) && Stands(d, m, AtClaim)
      modifies this
      ensures Reaches(origin, w)
      ensures Stands(d, m, if duplicate == Returned(false) then AtGate else Done(duplicate.Returned?))
    {
      Pause(origin, d);
      var outcome: Outcome := *;
      var free := Reclaimable(w, m.dedupeKey);
      Make(origin, d, m, AtClaim, CheckAndRecord(outcome));
      duplicate := if outcome == Works then Returned(!free) else Threw;
    }

    method ResolveBotUserId(ghost origin: World, d: nat, m: Message) returns (bot: Reply<Option<string>>)
      requires Reaches(origin, w) && Stands(d, m, AtGate)
      modifies this
      ensures Reaches(origin, w)
      ensures Stands(d, m, if bot.Threw? then Done(false) else if IsAddressed(m, bot.value) then AtSession else AtMark)
    {
      Pause(origin, d);
      var works: bool, found: Option<string> := *, *;
      Make(origin, d, m, AtGate, ResolveBot(if works then Some(found) else None));
      bot := if works then Returned(found) else Threw;
    }

    method ResolveSessionOf(ghost origin: World, d: nat, m: Message) returns (session: Reply<string>)
      requires Reaches(origin, w) && Stands(d, m, AtSession)
      modifies this
      ensures Reaches(origin, w)
      ensures Stands(d, m, if session.Returned? then AtCreate(session.value) else AtRelease)
    {
      Pause(origin, d);
      var found: Option<string> := *;
      Make(origin, d, m, AtSession, ResolveSession(found));
      session := if found.Some? then Returned(found.value) else Threw;
    }

    /** `handleEvent`: an ops command is answered, an existing row must match, else insert. */
    method HandleEvent(ghost origin: World, d: nat, m: Message, sessionId: string)
      returns (result: Reply<CreateResult>)
      requires Reaches(origin, w) && Stands(d, m, AtCreate(sessionId))
      modifies this
      ensures Reaches(origin, w)
      ensures result.Threw? ==> Stands(d, m, AtRelease)
      ensures result == Returned(DirectReply) ==> Stands(d, m, AtMark)
      ensures result == Returned(TaskCreated) ==> Stands(d, m, AtQueue(sessionId, true)) && TaskKey(m) in w.tasks
      ensures result == Returned(TaskDuplicate) ==> Stands(d, m, AtStatus(sessionId)) && TaskKey(m) in w.tasks
    {
      Pause(origin, d);
      var outcome: Outcome := *;
      var known := TaskKey(m) in w.tasks;
      var matches := known && w.tasks[TaskKey(m)].values == ValuesOf(m, sessionId);
      Make(origin, d, m, AtCreate(sessionId), CreateTask(outcome));
      result :=
        if outcome != Works then Threw
        else if m.isOpsCommand then Returned(DirectReply)
        else if !known then Returned(TaskCreated)
        else if matches then Returned(TaskDuplicate)
        else Threw;
    }

    method GetTaskStatus(ghost origin: World, d: nat, m: Message, sessionId: string)
      returns (status: Reply<Status>)
      requires Reaches(origin, w) && Stands(d, m, AtStatus(sessionId)) && TaskKey(m) in w.tasks
      modifies this
      ensures Reaches(origin, w) && TaskKey(m) in w.tasks
      ensures Stands(d, m, if status.Threw? then AtRelease
                           else if IsTerminal(status.value) then AtMark else AtQueue(sessionId, false))
    {
      Pause(origin, d);
      var works: bool := *;
      status := if works then Returned(w.tasks[TaskKey(m)].status) else Threw;
      Make(origin, d, m, AtStatus(sessionId), GetStatus(works));
    }

    /** An invalid transition is a benign no-op; any other failure propagates. */
    method EnsureQueued(ghost origin: World, d: nat, m: Message, sessionId: string, created: bool)
      returns (threw: bool)
      requires Reaches(origin, w) && Stands(d, m, AtQueue(sessionId, created)) && TaskKey(m) in w.tasks
      modifies this
      ensures Reaches(origin, w) && TaskKey(m) in w.tasks
      ensures Stands(d, m, if threw then AtRelease else if created then AtAck(sessionId) else AtLoad(sessionId))
    {
      Pause(origin, d);
      var outcome: Outcome := *;
      Make(origin, d, m, AtQueue(sessionId, created), TransitionToQueued(outcome));
      threw := outcome != Works;
    }

    /** Never throws: without a message id there is no handle. */
    method SendNeutralAck(ghost origin: World, d: nat, m: Message, sessionId: string)
      returns (handle: Option<AckHandle>)
      requires Reaches(origin, w) && Stands(d, m, AtAck(sessionId)) && TaskKey(m) in w.tasks
      modifies this
      ensures Reaches(origin, w) && TaskKey(m) in w.tasks
      ensures Stands(d, m, if handle.Some? then AtPersist(sessionId, handle.value) else AtEnqueue(sessionId, None))
    {
      Pause(origin, d);
      var ack: AckOutcome := *;
      if ack.Posted? && ack.messageId == "" {
        ack := PostedWithoutId;
      }
      Make(origin, d, m, AtAck(sessionId), SendAck(ack));
      handle := if ack.Posted? then Some(AckHandle(m.kind, m.scopeId, ack.messageId)) else None;
    }

    method PersistAckDeliveryBestEffort(ghost origin: World, d: nat, m: Message, sessionId: string,
                                        handle: AckHandle)
      requires Reaches(origin, w) && Stands(d, m, AtPersist(sessionId, handle)) && TaskKey(m) in w.tasks
      modifies this
      ensures Reaches(origin, w) && Stands(d, m, AtEnqueue(sessionId, Some(handle))) && TaskKey(m) in w.tasks
    {
      Pause(origin, d);
      var written: bool := *;
      Make(origin, d, m, AtPersist(sessionId, handle), PersistAck(written));
    }

    method LoadAckDelivery(ghost origin: World, d: nat, m: Message, sessionId: string)
      returns (ack: Reply<Option<AckHandle>>)
      requires Reaches(origin, w) && Stands(d, m, AtLoad(sessionId)) && TaskKey(m) in w.tasks
      modifies this
      ensures Reaches(origin, w) && TaskKey(m) in w.tasks
      ensures Stands(d, m, if ack.Threw? then AtRelease else AtEnqueue(sessionId, ack.value))
    {
      Pause(origin, d);
      var works: bool := *;
      ack := if works then Returned(w.tasks[TaskKey(m)].ack) else Threw;
      Make(origin, d, m, AtLoad(sessionId), LoadAck(works));
    }

    method Enqueue(ghost origin: World, d: nat, m: Message, sessionId: string, ack: Option<AckHandle>)
      returns (threw: bool)
      requires Reaches(origin, w) && Stands(d, m, AtEnqueue(sessionId, ack)) && TaskKey(m) in w.tasks
      modifies this
      ensures Reaches(origin, w) && Stands(d, m, if threw then AtRelease else AtMark)
    {
      Pause(origin, d);
      var outcome: Outcome := *;
      Make(origin, d, m, AtEnqueue(sessionId, ack), EnqueueJob(outcome));
      threw := outcome != Works;
    }

    method DispatchNeutralMessage(ghost origin: World, d: nat, m: Message) returns (threw: bool)
      requires Reaches(origin, w) && Stands(d, m, AtSession)
      modifies this
      ensures Reaches(origin, w)
      ensures Stands(d, m, if threw then AtRelease else AtMark)
    {
      var session := ResolveSessionOf(origin, d, m);
      if session.Threw? {
        return true;
      }
      var sessionId := session.value;
      var result := HandleEvent(origin, d, m, sessionId);
      if result.Threw? {
        return true;
      }
      if result.value.DirectReply? {
        return false;
      }
      if result.value.TaskDuplicate? {
        var status := GetTaskStatus(origin, d, m, sessionId);
        if status.Threw? {
          return true;
        }
        if IsTerminal(status.value) {
          return false;
        }
      }
      var queueFailed := EnsureQueued(origin, d, m, sessionId, result.value.TaskCreated?);
      if queueFailed {
        return true;
      }
      var ackDelivery: Option<AckHandle> := None;
      if result.value.TaskCreated? {
        ackDelivery := SendNeutralAck(origin, d, m, sessionId);
        if ackDelivery.Some? {
          PersistAckDeliveryBestEffort(origin, d, m, sessionId, ackDelivery.value);
        }
      } else {
        var loaded := LoadAckDelivery(origin, d, m, sessionId);
        if loaded.Threw? {
          return true;
        }
        ackDelivery := loaded.value;
      }
      threw := Enqueue(origin, d, m, sessionId, ackDelivery);
    }

    method ReleaseClaimBestEffort(ghost origin: World, d: nat, m: Message)
      requires Reaches(origin, w) && Stands(d, m, AtRelease)
      modifies this
      ensures Reaches(origin, w) && Stands(d, m, Done(false))
    {
      Pause(origin, d);
      var written: bool := *;
      Make(origin, d, m, AtRelease, ReleaseClaim(written));
    }

    method MarkEventProcessedBestEffort(ghost origin: World, d: nat, m: Message)
      requires Reachable(origin) && Reaches(origin, w) && Stands(d, m, AtMark)
      modifies this
      ensures Reaches(origin, w) && Stands(d, m, Done(true)) && Settled(w, m)
    {
      Pause(origin, d);
      var written: bool := *;
      ghost var was := w;
      Make(origin, d, m, AtMark, MarkProcessed(written));
      ghost var start :| Reaches(Initial(start), origin);
      ReachesTransitive(Initial(start), origin, was);
      ReachableInv(was);
      assert DeliverySound(was, m, AtMark);
      SettledStays(was, w, m);
    }

    /** One delivery: `threw` makes the route answer 500 so that Slack sends it again. */
    method Dispatch(d: nat, m: Message) returns (threw: bool, duplicate: bool)
      requires Reachable(w) && d !in w.deliveries
      modifies this
      ensures Reaches(old(w), w)
      ensures Stands(d, m, Done(!threw))
      ensures !threw && !duplicate ==> Settled(w, m)
    {
      ghost var origin := w;
      duplicate := false;
      Do(Deliver(d, m));
      var dedup := CheckAndRecordEvent(origin, d, m);
      if dedup.Threw? {
        return true, false;
      }
      if dedup.value {
        return false, true;
      }
      var bot := ResolveBotUserId(origin, d, m);
      if bot.Threw? {
        return true, false;
      }
      if IsAddressed(m, bot.value) {
        threw := DispatchNeutralMessage(origin, d, m);
        if threw {
          ReleaseClaimBestEffort(origin, d, m);
          return true, false;
        }
      }
      MarkEventProcessedBestEffort(origin, d, m);
      return false, false;
    }
  }
}
