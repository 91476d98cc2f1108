/**
 * What becomes of a retry (apps/api/src/card-action-handler.ts:501-620): a receipt gets its
 * task, and a task its job or the mark of a failure, exactly unless a step of the run broke off
 * between the writes. Either way the receipt refuses every further click.
 */
module CardRetryEndings {
  import opened Wrappers
  import opened TaskKeys
  import opened CardRetries

  // ---- Receipts without a task ----

  ghost predicate HasRetry(w: World, key: string) {
    exists t :: t in w.tasks && ReceiptKey(w.tasks[t].click) == key
  }

  /** A handler that has written the receipt and is about to insert the task. */
  predicate IsInserter(handler: Handler, key: string) {
    handler.pc.AtInsert? && ReceiptKey(handler.click) == key
  }

  ghost predicate WillInsert(w: World, key: string) {
    exists h :: h in w.handlers && IsInserter(w.handlers[h], key)
  }

  /** The receipt whose handler a step takes away before it inserted the task. */
  function SpentBy(w: World, step: Step): set<string>
    requires Enabled(w, step)
  {
    match step
    case Start(_, _) => {}
    case Crash(h) => if w.handlers[h].pc.AtInsert? then {ReceiptKey(w.handlers[h].click)} else {}
    case Own(h, call) =>
      var key := ReceiptKey(w.handlers[h].click);
      match call
      case WriteReceipt(outcome) => if outcome == Torn && key !in w.receipts then {key} else {}
      case InsertTask(outcome) => if outcome == Lost then {key} else {}
      case _ => {}
  }

  function Spent(w: World, steps: seq<Step>): set<string>
    requires IsRun(w, steps)
    decreases |steps|
  {
    if steps == [] then {} else SpentBy(w, steps[0]) + Spent(Apply(w, steps[0]), steps[1..])
  }

  /** A receipt that neither has its task nor a handler to insert it. */
  ghost predicate IsSpent(w: World, key: string) {
    key in w.receipts && !HasRetry(w, key) && !WillInsert(w, key)
  }

  /** A task once there keeps its click, and only a handler about to insert brings a new one. */
  lemma TasksAfter(w: World, step: Step, t: nat)
    requires Inv(w) && Enabled(w, step)
    ensures t in w.tasks ==> t in Apply(w, step).tasks && Apply(w, step).tasks[t].click == w.tasks[t].click
    ensures t in Apply(w, step).tasks && t !in w.tasks ==>
      && step.Own? && step.call.InsertTask? && step.call.outcome != Lost
      && w.handlers[step.h].pc == AtInsert(t)
      && Apply(w, step).tasks[t].click == w.handlers[step.h].click
  {
    assert step.Own? ==> Undone(w, w.handlers[step.h]);
  }

  /** A retry that is there stays; a new one comes from an insert with effect. */
  lemma RetryAfter(w: World, step: Step, key: string)
    requires Inv(w) && Enabled(w, step)
    ensures HasRetry(w, key) ==> HasRetry(Apply(w, step), key)
    ensures HasRetry(Apply(w, step), key) && !HasRetry(w, key) ==>
      step.Own? && step.call.InsertTask? && step.call.outcome != Lost && IsInserter(w.handlers[step.h], key)
    ensures step.Own? && step.call.InsertTask? && step.call.outcome != Lost && IsInserter(w.handlers[step.h], key) ==>
      HasRetry(Apply(w, step), key)
  {
    var w' := Apply(w, step);
    if HasRetry(w, key) {
      var t :| t in w.tasks && ReceiptKey(w.tasks[t].click) == key;
      TasksAfter(w, step, t);
      assert t in w'.tasks && ReceiptKey(w'.tasks[t].click) == key;
    } else if HasRetry(w', key) {
      var t :| t in w'.tasks && ReceiptKey(w'.tasks[t].click) == key;
      TasksAfter(w, step, t);
    }
    if step.Own? && step.call.InsertTask? && step.call.outcome != Lost && IsInserter(w.handlers[step.h], key) {
      assert ReceiptKey(w'.tasks[w.handlers[step.h].pc.newTask].click) == key;
    }
  }

  /** At most one handler is about to insert for a receipt, and the receipt has no task yet. */
  lemma InserterIsAlone(w: World, h: nat, key: string)
    requires Inv(w) && h in w.handlers && IsInserter(w.handlers[h], key)
    ensures key in w.receipts && !HasRetry(w, key)
    ensures forall g :: g in w.handlers && IsInserter(w.handlers[g], key) ==> g == h
  {
    assert HandlerSound(w, w.handlers[h]) && Undone(w, w.handlers[h]);
    forall t | t in w.tasks ensures ReceiptKey(w.tasks[t].click) != key {
      assert Holds(w, w.tasks[t].click, t);
    }
    forall g | g in w.handlers && IsInserter(w.handlers[g], key) ensures g == h {
      assert HandlerSound(w, w.handlers[g]) && SameTask(w.handlers[g], w.handlers[h]);
    }
  }

  /** A step that takes the inserter away without the task. */
  lemma SpendingSpends(w: World, step: Step, key: string)
    requires Inv(w) && Enabled(w, step) && key in SpentBy(w, step)
    ensures IsSpent(Apply(w, step), key)
  {
    var w' := Apply(w, step);
    RetryAfter(w, step, key);
    var handler := w.handlers[step.h];
    if handler.pc.AtInsert? {
      InserterIsAlone(w, step.h, key);
    } else {
      NoTraceOf(w, key);
    }
    forall g | g in w'.handlers ensures !IsInserter(w'.handlers[g], key) {
      if g != step.h {
        assert w'.handlers[g] == w.handlers[g];
      }
    }
  }

  /** Without a receipt there is neither a task nor a handler about to insert one. */
  lemma NoTraceOf(w: World, key: string)
    requires Inv(w) && key !in w.receipts
    ensures !HasRetry(w, key) && !WillInsert(w, key)
  {
    forall t | t in w.tasks ensures ReceiptKey(w.tasks[t].click) != key {
      assert Holds(w, w.tasks[t].click, t);
    }
    forall h | h in w.handlers ensures !IsInserter(w.handlers[h], key) {
      assert HandlerSound(w, w.handlers[h]);
    }
  }

  /** A spent receipt stays spent. */
  lemma SpentStays(w: World, step: Step, key: string)
    requires Inv(w) && Enabled(w, step) && IsSpent(w, key)
    ensures IsSpent(Apply(w, step), key)
  {
    var w' := Apply(w, step);
    RetryAfter(w, step, key);
    forall g | g in w'.handlers ensures !IsInserter(w'.handlers[g], key) {
      assert g in w.handlers ==> !IsInserter(w.handlers[g], key);
    }
  }

  /** A receipt becomes spent by such a step only. */
  lemma SpentOnlyBy(w: World, step: Step, key: string)
    requires Inv(w) && Enabled(w, step) && IsSpent(Apply(w, step), key) && !IsSpent(w, key)
    ensures key in SpentBy(w, step)
  {
    var w' := Apply(w, step);
    RetryAfter(w, step, key);
    if key in w.receipts {
      var h :| h in w.handlers && IsInserter(w.handlers[h], key);
      assert h in w'.handlers ==> !IsInserter(w'.handlers[h], key);
      assert !step.Start? && step.h == h;
    } else {
      assert step.Own? && step.call.WriteReceipt?;
      assert step.h in w'.handlers && !IsInserter(w'.handlers[step.h], key);
    }
  }

  lemma StepSpends(w: World, step: Step, key: string)
    requires Inv(w) && Enabled(w, step)
    ensures IsSpent(Apply(w, step), key) <==> IsSpent(w, key) || key in SpentBy(w, step)
  {
    if key in SpentBy(w, step) {
      SpendingSpends(w, step, key);
    } else if IsSpent(w, key) {
      SpentStays(w, step, key);
    } else if IsSpent(Apply(w, step), key) {
      SpentOnlyBy(w, step, key);
    }
  }

  lemma {:induction false} RunSpends(w: World, steps: seq<Step>, key: string)
    requires Inv(w) && IsRun(w, steps)
    ensures IsSpent(After(w, steps), key) <==> IsSpent(w, key) || key in Spent(w, steps)
    decreases |steps|
  {
    if steps != [] {
      StepSpends(w, steps[0], key);
      StepKeepsInv(w, steps[0]);
      RunSpends(Apply(w, steps[0]), steps[1..], key);
    }
  }

  /**
   * Over every run, a receipt has its task or a handler about to insert it, exactly unless a
   * step took its handler away in between: a write of the receipt that failed after its effect,
   * an insert without effect, or a crash before the insert.
   */
  lemma EveryReceiptGetsItsTask(steps: seq<Step>, key: string)
    requires IsRun(Initial(), steps) && key in After(Initial(), steps).receipts
    ensures var w := After(Initial(), steps);
      HasRetry(w, key) || WillInsert(w, key) <==> key !in Spent(Initial(), steps)
  {
    RunSpends(Initial(), steps, key);
  }

  /** Once that happened, no click of the same source task, action and operator ever makes a task. */
  lemma SpentReceiptsBlockForever(steps: seq<Step>, w': World, key: string)
    requires IsRun(Initial(), steps) && key in Spent(Initial(), steps)
    requires Reaches(After(Initial(), steps), w')
    ensures key in w'.receipts && !HasRetry(w', key)
  {
    var w := After(Initial(), steps);
    RunSpends(Initial(), steps, key);
    RunKeepsInv(Initial(), steps);
    var more :| IsRun(w, more) && After(w, more) == w';
    RunSpends(w, more, key);
  }

  // ---- Tasks without a job ----

  predicate WorksOn(handler: Handler, t: nat) {
    TaskOf(handler.pc) == Some(t)
  }

  ghost predicate IsBusy(w: World, t: nat) {
    exists h :: h in w.handlers && WorksOn(w.handlers[h], t)
  }

  /** The task that a step leaves open without a job and without a handler. */
  function StalledBy(w: World, step: Step): set<nat>
    requires Enabled(w, step)
  {
    match step
    case Start(_, _) => {}
    case Crash(h) =>
      (match w.handlers[h].pc
       case AtQueue(t) => {t}
       case AtEnqueue(t) => {t}
       case AtMarkFailed(t, enqueue) => if enqueue == Lost then {t} else {}
       case _ => {})
    case Own(h, call) =>
      var pc := w.handlers[h].pc;
      match call
      case InsertTask(outcome) => if outcome == Torn then {pc.newTask} else {}
      case TransitionToQueued(outcome) => if outcome != Works then {pc.newTask} else {}
      case MarkFailed(outcome) => if outcome == Lost && pc.enqueue == Lost then {pc.newTask} else {}
      case _ => {}
  }

  function Stalled(w: World, steps: seq<Step>): set<nat>
    requires IsRun(w, steps)
    decreases |steps|
  {
    if steps == [] then {} else StalledBy(w, steps[0]) + Stalled(Apply(w, steps[0]), steps[1..])
  }

  /** Open, without a job, and nobody works on it. */
  ghost predicate IsStalled(w: World, t: nat) {
    IsOpen(w, t) && t !in w.jobs && !IsBusy(w, t)
  }

  /** Who works on a task works on it alone. */
  lemma WorkerIsAlone(w: World, h: nat, t: nat)
    requires Inv(w) && h in w.handlers && WorksOn(w.handlers[h], t)
    ensures forall g :: g in w.handlers && WorksOn(w.handlers[g], t) ==> g == h
  {
    assert forall g :: g in w.handlers && WorksOn(w.handlers[g], t) ==> SameTask(w.handlers[g], w.handlers[h]);
  }

  /** A task that nobody works on stays as it is, unless an insert brings it. */
  lemma UntouchedTask(w: World, step: Step, t: nat)
    requires Inv(w) && Enabled(w, step) && !IsBusy(w, t)
    ensures t in w.tasks ==> !IsBusy(Apply(w, step), t)
    ensures IsOpen(Apply(w, step), t) <==> IsOpen(w, t)
    ensures t in Apply(w, step).jobs <==> t in w.jobs
  {
    var w' := Apply(w, step);
    if step.Own? {
      assert !WorksOn(w.handlers[step.h], t);
    }
    forall g | t in w.tasks && g in w'.handlers ensures !WorksOn(w'.handlers[g], t) {
      assert g in w.handlers ==> !WorksOn(w.handlers[g], t);
      if step.Own? && g == step.h {
        NextTask(w, w.handlers[g], step.call);
        assert t < w.nextTask;
      }
    }
  }

  /** The worker of a task decides what becomes of it. */
  lemma WorkersStep(w: World, h: nat, call: Call, t: nat)
    requires Inv(w) && Enabled(w, Own(h, call)) && WorksOn(w.handlers[h], t)
    ensures IsStalled(Apply(w, Own(h, call)), t) <==> t in StalledBy(w, Own(h, call))
  {
    var w' := Apply(w, Own(h, call));
    WorkerIsAlone(w, h, t);
    assert Undone(w, w.handlers[h]);
    forall g | g in w'.handlers && g != h ensures !WorksOn(w'.handlers[g], t) {
      assert w'.handlers[g] == w.handlers[g];
    }
    assert IsBusy(w', t) <==> WorksOn(w'.handlers[h], t);
  }

  lemma WorkersCrash(w: World, h: nat, t: nat)
    requires Inv(w) && Enabled(w, Crash(h)) && WorksOn(w.handlers[h], t)
    ensures IsStalled(Apply(w, Crash(h)), t) <==> t in StalledBy(w, Crash(h))
  {
    WorkerIsAlone(w, h, t);
    assert Undone(w, w.handlers[h]);
    assert !IsBusy(Apply(w, Crash(h)), t);
  }

  /** A worker that is not concerned by the step goes on working. */
  lemma WorkerStays(w: World, step: Step, h: nat, t: nat)
    requires Inv(w) && Enabled(w, step) && h in w.handlers && WorksOn(w.handlers[h], t)
    requires step.Start? || step.h != h
    ensures IsBusy(Apply(w, step), t) && t !in StalledBy(w, step)
  {
    var w' := Apply(w, step);
    assert h in w'.handlers && w'.handlers[h] == w.handlers[h];
    WorkerIsAlone(w, h, t);
  }

  lemma StepStalls(w: World, step: Step, t: nat)
    requires Inv(w) && Enabled(w, step)
    ensures IsStalled(Apply(w, step), t) <==> IsStalled(w, t) || t in StalledBy(w, step)
  {
    if h :| h in w.handlers && WorksOn(w.handlers[h], t) {
      match step {
        case Start(_, _) => WorkerStays(w, step, h, t);
        case Own(g, call) =>
          if g == h {
            WorkersStep(w, h, call, t);
          } else {
            WorkerStays(w, step, h, t);
          }
        case Crash(g) =>
          if g == h {
            WorkersCrash(w, h, t);
          } else {
            WorkerStays(w, step, h, t);
          }
      }
    } else {
      UntouchedTask(w, step, t);
      assert t !in StalledBy(w, step);
    }
  }

  lemma {:induction false} RunStalls(w: World, steps: seq<Step>, t: nat)
    requires Inv(w) && IsRun(w, steps)
    ensures IsStalled(After(w, steps), t) <==> IsStalled(w, t) || t in Stalled(w, steps)
    decreases |steps|
  {
    if steps != [] {
      StepStalls(w, steps[0], t);
      StepKeepsInv(w, steps[0]);
      RunStalls(Apply(w, steps[0]), steps[1..], t);
    }
  }

  /**
   * Over every run, a retry task has a job, is marked failed, or is still worked on, exactly
   * unless a step left it: an insert that failed after its effect, a failed transition, a crash
   * before the enqueue, or a crash or failed update instead of the mark after an enqueue without
   * effect.
   */
  lemma EveryRetryEnds(steps: seq<Step>, t: nat)
    requires IsRun(Initial(), steps) && t in After(Initial(), steps).tasks
    ensures var w := After(Initial(), steps);
      t in w.jobs || w.tasks[t].status == Failed || IsBusy(w, t) <==> t !in Stalled(Initial(), steps)
  {
    RunStalls(Initial(), steps, t);
  }

  /** Such a task never gets a job, and its receipt refuses every click for another. */
  lemma StalledRetriesStay(steps: seq<Step>, w': World, t: nat)
    requires IsRun(Initial(), steps) && t in Stalled(Initial(), steps)
    requires Reaches(After(Initial(), steps), w')
    ensures IsOpen(w', t) && t !in w'.jobs && ReceiptKey(w'.tasks[t].click) in w'.receipts
  {
    var w := After(Initial(), steps);
    RunStalls(Initial(), steps, t);
    RunKeepsInv(Initial(), steps);
    var more :| IsRun(w, more) && After(w, more) == w';
    RunStalls(w, more, t);
    RunKeepsInv(w, more);
    assert Holds(w', w'.tasks[t].click, t);
  }

  // ---- It happens ----

  /** A handler of the click with its receipt. */
  lemma ReceiptWritten(click: Click) returns (w: World, steps: seq<Step>)
    requires ProperClick(click)
    ensures steps == [Start(0, click), Own(0, WriteReceipt(Works))]
    ensures IsRun(Initial(), steps) && After(Initial(), steps) == w
    ensures w.handlers == map[0 := Handler(click, AtInsert(0))] && w.receipts == map[ReceiptKey(click) := 0]
    ensures w.tasks == map[] && w.jobs == [] && Spent(Initial(), steps) == {}
  {
    steps := [Start(0, click), Own(0, WriteReceipt(Works))];
    var started := Apply(Initial(), steps[0]);
    w := Apply(started, steps[1]);
    assert steps[1..] == [Own(0, WriteReceipt(Works))] && steps[1..][1..] == [];
    assert IsRun(started, steps[1..]) && After(started, steps[1..]) == w;
    assert Spent(started, steps[1..]) == {};
  }

  /** A crash, or an insert that fails, right after the receipt is enough. */
  lemma ABreakSpendsAReceipt(click: Click, crash: bool) returns (w: World, steps: seq<Step>)
    requires ProperClick(click)
    ensures IsRun(Initial(), steps) && After(Initial(), steps) == w
    ensures ReceiptKey(click) in Spent(Initial(), steps)
    ensures w.tasks == map[] && ReceiptKey(click) in w.receipts
  {
    var before;
    w, before := ReceiptWritten(click);
    var last := if crash then Crash(0) else Own(0, InsertTask(Lost));
    steps := before + [last];
    assert [last][1..] == [];
    assert IsRun(w, [last]) && After(w, [last]) == Apply(w, last);
    RunConcat(Initial(), before, [last]);
    SpentConcat(Initial(), before, [last]);
    assert Spent(w, [last]) == SpentBy(w, last) + {};
    w := Apply(w, last);
  }

  lemma {:induction false} SpentConcat(w: World, first: seq<Step>, second: seq<Step>)
    requires IsRun(w, first) && IsRun(After(w, first), second) && IsRun(w, first + second)
    ensures Spent(w, first + second) == Spent(w, first) + Spent(After(w, first), second)
    decreases |first|
  {
    if first == [] {
      assert first + second == second;
    } else {
      assert (first + second)[1..] == first[1..] + second;
      SpentConcat(Apply(w, first[0]), first[1..], second);
    }
  }

  /** So is a receipt whose write took effect and failed. */
  lemma ATornReceiptIsSpent(click: Click) returns (w: World, steps: seq<Step>)
    requires ProperClick(click)
    ensures IsRun(Initial(), steps) && After(Initial(), steps) == w
    ensures ReceiptKey(click) in Spent(Initial(), steps)
    ensures w.tasks == map[] && ReceiptKey(click) in w.receipts
  {
    steps := [Start(0, click), Own(0, WriteReceipt(Torn))];
    var started := Apply(Initial(), steps[0]);
    w := Apply(started, steps[1]);
    assert steps[1..] == [Own(0, WriteReceipt(Torn))] && steps[1..][1..] == [];
    assert IsRun(started, steps[1..]) && After(started, steps[1..]) == w;
    assert Spent(started, steps[1..]) == SpentBy(started, steps[1]) + {};
  }

  /** And a crash right after the insert leaves a pending task without a job. */
  lemma ACrashStallsARetry(click: Click) returns (w: World, t: nat)
    requires ProperClick(click)
    ensures Reaches(Initial(), w) && w.handlers == map[]
    ensures t in w.tasks && w.tasks[t] == Task(click, Pending) && w.jobs == []
  {
    var steps;
    w, steps := ReceiptWritten(click);
    w := Extend(Initial(), w, Own(0, InsertTask(Works)));
    w := Extend(Initial(), w, Crash(0));
    t := 0;
  }
}
