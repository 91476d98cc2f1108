/**
 * The retry part of `handleTaskCardAction` as code (apps/api/src/card-action-handler.ts:484-620),
 * call by call. Before each call other handlers may move. Its contract: a run of the machine of
 * CardRetries, and a success only with the retry task and its job there.
 */
module CardRetryHandler {
  import opened Wrappers
  import opened CardRetries

  predicate OthersOnly(w: World, h: nat, steps: seq<Step>) {
    IsRun(w, steps) && forall i :: 0 <= i < |steps| ==> steps[i].h != h
  }

  predicate Grows(w: World, w': World) {
    w.receipts.Keys <= w'.receipts.Keys && w.tasks.Keys <= w'.tasks.Keys && w.jobs <= w'.jobs
  }

  lemma StepGrows(w: World, step: Step)
    requires Enabled(w, step)
    ensures Grows(w, Apply(w, step))
  {
  }

  lemma {:induction false} OthersKeepHandler(w: World, h: nat, steps: seq<Step>)
    requires OthersOnly(w, h, steps) && h in w.handlers
    ensures var w' := After(w, steps); h in w'.handlers && w'.handlers[h] == w.handlers[h] && Grows(w, w')
    decreases |steps|
  {
    if steps != [] {
      StepGrows(w, steps[0]);
      if steps[0].Own? {
        EffectGrows(w, w.handlers[steps[0].h], steps[0].call);
      }
      assert forall i :: 0 <= i < |steps[1..]| ==> steps[1..][i] == steps[i + 1];
      OthersKeepHandler(Apply(w, steps[0]), h, steps[1..]);
    }
  }

  datatype ReceiptReply = NotWritten | Taken | Granted(newTask: nat)

  datatype Ending = AlreadyProcessed | Succeeded | QueueingFailed | Threw

  class Handlers {
    var w: World

    constructor ()
      ensures w == Initial()
    {
      w := Initial();
    }

    predicate Stands(h: nat, click: Click, pc: Pc)
      reads this
    {
      h in w.handlers && w.handlers[h] == Handler(click, pc)
    }

    method Pause(ghost origin: World, h: nat)
      requires Reaches(origin, w) && h in w.handlers
      modifies this
      ensures Reaches(origin, w) && Grows(old(w), w)
      ensures h in w.handlers && w.handlers[h] == old(w.handlers[h])
    {
      assert OthersOnly(w, h, []);
      var steps :| OthersOnly(w, h, steps);
      OthersKeepHandler(w, h, steps);
      ReachesFurther(origin, w, steps);
      w := After(w, steps);
    }

    method Make(ghost origin: World, h: nat, ghost handler: Handler, call: Call)
      requires Reaches(origin, w) && h in w.handlers && w.handlers[h] == handler && Fits(handler.pc, call)
      modifies this
      ensures Reaches(origin, w) && Grows(old(w), w)
      ensures w == Apply(old(w), Own(h, call))
      ensures h in w.handlers && w.handlers[h] == handler.(pc := Next(old(w), handler, call))
    {
      StepGrows(w, Own(h, call));
      ghost var next := Extend(origin, w, Own(h, call));
      w := Apply(w, Own(h, call));
    }

    method InsertReceipt(ghost origin: World, h: nat, click: Click) returns (receipt: ReceiptReply)
      requires Reaches(origin, w) && Stands(h, click, AtReceipt)
      modifies this
      ensures Reaches(origin, w) && Stands(h, click, if receipt.Granted? then AtInsert(receipt.newTask) else Done)
      ensures receipt.Taken? ==> ReceiptKey(click) in w.receipts
    {
      Pause(origin, h);
      var outcome: Outcome := *;
      var taken, newTask := ReceiptKey(click) in w.receipts, w.nextTask;
      Make(origin, h, Handler(click, AtReceipt), WriteReceipt(outcome));
      receipt := if outcome != Works then NotWritten else if taken then Taken else Granted(newTask);
    }

    method InsertRetryTask(ghost origin: World, h: nat, click: Click, task: nat) returns (threw: bool)
      requires Reaches(origin, w) && Stands(h, click, AtInsert(task))
      modifies this
      ensures Reaches(origin, w) && Stands(h, click, if threw then Done else AtQueue(task))
      ensures !threw ==> task in w.tasks
    {
      Pause(origin, h);
      var outcome: Outcome := *;
      Make(origin, h, Handler(click, AtInsert(task)), InsertTask(outcome));
      threw := outcome != Works;
    }

    method TransitionTask(ghost origin: World, h: nat, click: Click, task: nat) returns (threw: bool)
      requires Reaches(origin, w) && Stands(h, click, AtQueue(task)) && task in w.tasks
      modifies this
      ensures Reaches(origin, w) && Stands(h, click, if threw then Done else AtEnqueue(task)) && task in w.tasks
    {
      Pause(origin, h);
      var outcome: Outcome := *;
      Make(origin, h, Handler(click, AtQueue(task)), TransitionToQueued(outcome));
      threw := outcome != Works;
    }

    /** A failed enqueue marks the task failed, if that works, and tells the user. */
    method EnqueueJob(ghost origin: World, h: nat, click: Click, task: nat) returns (ending: Ending)
      requires Reaches(origin, w) && Stands(h, click, AtEnqueue(task)) && task in w.tasks
      modifies this
      ensures Reaches(origin, w) && Stands(h, click, Done) && task in w.tasks
      ensures ending != AlreadyProcessed && (ending == Succeeded ==> task in w.jobs)
    {
      Pause(origin, h);
      var outcome: Outcome := *;
      Make(origin, h, Handler(click, AtEnqueue(task)), Enqueue(outcome));
      if outcome == Works {
        return Succeeded;
      }
      Pause(origin, h);
      var marked: Outcome := *;
      Make(origin, h, Handler(click, AtMarkFailed(task, outcome)), MarkFailed(marked));
      ending := QueueingFailed;
    }

    /** What the handler does once it has the receipt. */
    method RunRetry(ghost origin: World, h: nat, click: Click, task: nat) returns (ending: Ending)
      requires Reaches(origin, w) && Stands(h, click, AtInsert(task))
      modifies this
      ensures Reaches(origin, w) && Stands(h, click, Done) && ending != AlreadyProcessed
      ensures ending == Succeeded ==> task in w.tasks && task in w.jobs
    {
      var threw := InsertRetryTask(origin, h, click, task);
      if threw {
        return Threw;
      }
      threw := TransitionTask(origin, h, click, task);
      if threw {
        return Threw;
      }
      ending := EnqueueJob(origin, h, click, task);
    }

    method HandleRetry(h: nat, click: Click) returns (ending: Ending, newTask: Option<nat>)
      requires ProperClick(click) && h !in w.handlers
      modifies this
      ensures Reaches(old(w), w) && Stands(h, click, Done)
      ensures ending == AlreadyProcessed ==> ReceiptKey(click) in w.receipts
      ensures ending == Succeeded ==> newTask.Some? && newTask.value in w.tasks && newTask.value in w.jobs
    {
      ghost var origin := w;
      ReachesItself(w);
      ghost var begun := Extend(w, w, Start(h, click));
      w := Apply(w, Start(h, click));
      var receipt := InsertReceipt(origin, h, click);
      match receipt
      case NotWritten =>
        return Threw, None;
      case Taken =>
        return AlreadyProcessed, None;
      case Granted(task) =>
        ending := RunRetry(origin, h, click, task);
        newTask := Some(task);
    }
  }
}
