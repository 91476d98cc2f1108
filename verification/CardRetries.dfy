/**
 * The retry buttons of a task card (apps/api/src/card-action-handler.ts:140-159, 496-620): the
 * receipt that makes a retry unique is written before the retry task. Handlers of repeated
 * clicks interleave, in one process or several, and any call may fail before or after its
 * effect.
 */
module CardRetries {
  import opened Wrappers
  import opened TaskKeys

  datatype Click = Click(sourceTaskId: string, action: string, operator: Option<string>)

  function ReceiptKey(click: Click): string {
    Join(["task-card-action", click.sourceTaskId, click.action, OperatorName(click)])
  }

  function OperatorName(click: Click): string {
    if click.operator.Some? then click.operator.value else "unknown-operator"
  }

  /** Source ids are UUIDs and the actions are two fixed words: neither holds a colon. */
  predicate ProperClick(click: Click) {
    ColonFree(click.sourceTaskId) && ColonFree(click.action)
  }

  /** Receipts tell clicks apart by source task, action and operator, and by nothing else. */
  lemma ReceiptKeysAgreeExactly(a: Click, b: Click)
    requires ProperClick(a) && ProperClick(b)
    ensures ReceiptKey(a) == ReceiptKey(b) <==>
      a.sourceTaskId == b.sourceTaskId && a.action == b.action && OperatorName(a) == OperatorName(b)
  {
    var p := ["task-card-action", a.sourceTaskId, a.action, OperatorName(a)];
    var q := ["task-card-action", b.sourceTaskId, b.action, OperatorName(b)];
    if ReceiptKey(a) == ReceiptKey(b) {
      JoinIsInjective(p, q);
      assert p[1] == q[1] && p[2] == q[2] && p[3] == q[3];
    }
  }

  /** Where a handler stands; before marking its task failed it knows how the enqueue failed. */
  datatype Pc =
    | AtReceipt
    | AtInsert(newTask: nat)
    | AtQueue(newTask: nat)
    | AtEnqueue(newTask: nat)
    | AtMarkFailed(newTask: nat, enqueue: Outcome)
    | Done

  datatype Handler = Handler(click: Click, pc: Pc)

  datatype Outcome = Works | Lost | Torn

  datatype TaskStatus = Pending | Queued | Failed

  datatype Task = Task(click: Click, status: TaskStatus)

  datatype Call =
    | WriteReceipt(outcome: Outcome)
    | InsertTask(outcome: Outcome)
    | TransitionToQueued(outcome: Outcome)
    | Enqueue(outcome: Outcome)
    | MarkFailed(outcome: Outcome)

  datatype Step =
    | Start(h: nat, click: Click)
    | Own(h: nat, call: Call)
    | Crash(h: nat)

  /** `receipts` maps a key to the id of the retry task it was written for. */
  datatype World = World(
    receipts: map<string, nat>,
    nextTask: nat,
    tasks: map<nat, Task>,
    jobs: seq<nat>,
    handlers: map<nat, Handler>)

  function Initial(): World {
    World(map[], 0, map[], [], map[])
  }

  predicate Fits(pc: Pc, call: Call) {
    match call
    case WriteReceipt(_) => pc.AtReceipt?
    case InsertTask(_) => pc.AtInsert?
    case TransitionToQueued(_) => pc.AtQueue?
    case Enqueue(_) => pc.AtEnqueue?
    case MarkFailed(_) => pc.AtMarkFailed?
  }

  predicate Enabled(w: World, step: Step) {
    match step
    case Start(h, click) => h !in w.handlers && ProperClick(click)
    case Own(h, call) => h in w.handlers && Fits(w.handlers[h].pc, call)
    case Crash(h) => h in w.handlers
  }

  function SetStatus(w: World, task: nat, status: TaskStatus): World {
    if task in w.tasks then w.(tasks := w.tasks[task := w.tasks[task].(status := status)]) else w
  }

  function Effect(w: World, handler: Handler, call: Call): World
    requires Fits(handler.pc, call)
  {
    var key := ReceiptKey(handler.click);
    match call
    case WriteReceipt(outcome) =>
      if outcome == Lost || key in w.receipts then w
      else w.(receipts := w.receipts[key := w.nextTask], nextTask := w.nextTask + 1)
    case InsertTask(outcome) =>
      if outcome == Lost then w else w.(tasks := w.tasks[handler.pc.newTask := Task(handler.click, Pending)])
    case TransitionToQueued(outcome) =>
      if outcome == Lost then w else SetStatus(w, handler.pc.newTask, Queued)
    case Enqueue(outcome) =>
      if outcome == Lost then w else w.(jobs := w.jobs + [handler.pc.newTask])
    case MarkFailed(outcome) =>
      if outcome == Lost then w else SetStatus(w, handler.pc.newTask, Failed)
  }

  function Next(w: World, handler: Handler, call: Call): Pc
    requires Fits(handler.pc, call)
  {
    match call
    case WriteReceipt(outcome) =>
      if outcome == Works && ReceiptKey(handler.click) !in w.receipts then AtInsert(w.nextTask) else Done
    case InsertTask(outcome) => if outcome == Works then AtQueue(handler.pc.newTask) else Done
    case TransitionToQueued(outcome) => if outcome == Works then AtEnqueue(handler.pc.newTask) else Done
    case Enqueue(outcome) => if outcome == Works then Done else AtMarkFailed(handler.pc.newTask, outcome)
    case MarkFailed(_) => Done
  }

  function Apply(w: World, step: Step): World
    requires Enabled(w, step)
  {
    match step
    case Start(h, click) => w.(handlers := w.handlers[h := Handler(click, AtReceipt)])
    case Own(h, call) =>
      var handler := w.handlers[h];
      Effect(w, handler, call).(handlers := w.handlers[h := handler.(pc := Next(w, handler, call))])
    case Crash(h) => w.(handlers := w.handlers - {h})
  }

  predicate IsRun(w: World, steps: seq<Step>)
    decreases |steps|
  {
    steps == [] || (Enabled(w, steps[0]) && IsRun(Apply(w, steps[0]), steps[1..]))
  }

  function After(w: World, steps: seq<Step>): World
    requires IsRun(w, steps)
    decreases |steps|
  {
    if steps == [] then w else After(Apply(w, steps[0]), steps[1..])
  }

  ghost predicate Reaches(w: World, w': World) {
    exists steps :: IsRun(w, steps) && After(w, steps) == w'
  }

  // ---- Invariant ----

  predicate Holds(w: World, click: Click, task: nat) {
    ReceiptKey(click) in w.receipts && w.receipts[ReceiptKey(click)] == task
  }

  function TaskOf(pc: Pc): Option<nat> {
    match pc
    case AtReceipt => None
    case Done => None
    case AtInsert(t) => Some(t)
    case AtQueue(t) => Some(t)
    case AtEnqueue(t) => Some(t)
    case AtMarkFailed(t, _) => Some(t)
  }

  /** A handler past its receipt works on the task that the receipt names. */
  predicate HandlerSound(w: World, handler: Handler) {
    && ProperClick(handler.click)
    && (TaskOf(handler.pc).Some? ==> Holds(w, handler.click, TaskOf(handler.pc).value))
  }

  predicate HandlersSound(w: World) {
    forall h :: h in w.handlers ==> HandlerSound(w, w.handlers[h])
  }

  predicate TasksSound(w: World) {
    forall t :: t in w.tasks ==> ProperClick(w.tasks[t].click) && Holds(w, w.tasks[t].click, t)
  }

  predicate ReceiptsSound(w: World) {
    forall k :: k in w.receipts ==> w.receipts[k] < w.nextTask
  }

  predicate SameTask(g: Handler, h: Handler) {
    TaskOf(g.pc).Some? && TaskOf(g.pc) == TaskOf(h.pc)
  }

  /** No two receipts name the same task, and no two handlers work on one. */
  ghost predicate Apart(w: World) {
    && (forall k, l :: k in w.receipts && l in w.receipts && w.receipts[k] == w.receipts[l] ==> k == l)
    && (forall g, h :: g in w.handlers && h in w.handlers && SameTask(w.handlers[g], w.handlers[h]) ==> g == h)
  }

  /** Who is about to insert, enqueue or mark a task finds the work before it done and its own not yet. */
  predicate Undone(w: World, handler: Handler) {
    match handler.pc
    case AtInsert(t) => t !in w.tasks && t !in w.jobs
    case AtQueue(t) => IsOpen(w, t) && t !in w.jobs
    case AtEnqueue(t) => IsOpen(w, t) && t !in w.jobs
    case AtMarkFailed(t, enqueue) => IsOpen(w, t) && (t in w.jobs <==> enqueue == Torn) && enqueue != Works
    case _ => true
  }

  predicate IsOpen(w: World, task: nat) {
    task in w.tasks && w.tasks[task].status != Failed
  }

  predicate JobsSound(w: World) {
    && (forall h :: h in w.handlers ==> Undone(w, w.handlers[h]))
    && (forall i :: 0 <= i < |w.jobs| ==> w.jobs[i] < w.nextTask)
    && (forall i, j :: 0 <= i < j < |w.jobs| ==> w.jobs[i] != w.jobs[j])
    && (forall t :: t in w.tasks ==> t < w.nextTask)
  }

  ghost predicate Inv(w: World) {
    HandlersSound(w) && TasksSound(w) && ReceiptsSound(w) && Apart(w) && JobsSound(w)
  }

  predicate ReceiptsGrow(w: World, w': World) {
    && w.receipts.Keys <= w'.receipts.Keys
    && forall k :: k in w.receipts ==> w'.receipts[k] == w.receipts[k]
  }

  lemma EffectGrows(w: World, handler: Handler, call: Call)
    requires Fits(handler.pc, call)
    ensures ReceiptsGrow(w, Effect(w, handler, call))
    ensures Effect(w, handler, call).handlers == w.handlers
  {
  }

  lemma HandlerStaysSound(w: World, w': World, handler: Handler)
    requires HandlerSound(w, handler) && ReceiptsGrow(w, w')
    ensures HandlerSound(w', handler)
  {
  }

  lemma NextIsSound(w: World, handler: Handler, call: Call)
    requires HandlerSound(w, handler) && Fits(handler.pc, call)
    ensures HandlerSound(Effect(w, handler, call), handler.(pc := Next(w, handler, call)))
  {
    EffectGrows(w, handler, call);
  }

  lemma EffectKeepsTasks(w: World, handler: Handler, call: Call)
    requires TasksSound(w) && HandlerSound(w, handler) && Fits(handler.pc, call)
    ensures TasksSound(Effect(w, handler, call))
  {
    var w' := Effect(w, handler, call);
    EffectGrows(w, handler, call);
    forall t | t in w'.tasks ensures ProperClick(w'.tasks[t].click) && Holds(w', w'.tasks[t].click, t) {
      assert t in w.tasks ==> Holds(w, w.tasks[t].click, t);
    }
  }

  lemma StepKeepsReceipts(w: World, step: Step)
    requires Inv(w) && Enabled(w, step)
    ensures HandlersSound(Apply(w, step)) && TasksSound(Apply(w, step)) && ReceiptsSound(Apply(w, step))
  {
    if step.Own? {
      var handler := w.handlers[step.h];
      var stores, w' := Effect(w, handler, step.call), Apply(w, step);
      assert HandlerSound(w, handler);
      EffectGrows(w, handler, step.call);
      EffectKeepsTasks(w, handler, step.call);
      NextIsSound(w, handler, step.call);
      forall h | h in w'.handlers ensures HandlerSound(w', w'.handlers[h]) {
        if h == step.h {
          HandlerStaysSound(stores, w', w'.handlers[h]);
        } else {
          HandlerStaysSound(w, w', w.handlers[h]);
        }
      }
    }
  }

  lemma ReceiptsStayApart(w: World, handler: Handler, call: Call)
    requires ReceiptsSound(w) && Apart(w) && Fits(handler.pc, call)
    ensures var w' := Effect(w, handler, call);
      forall k, l :: k in w'.receipts && l in w'.receipts && w'.receipts[k] == w'.receipts[l] ==> k == l
  {
  }

  /** A handler keeps its task or lets go of it; only a new receipt brings one, and a new one. */
  lemma NextTask(w: World, handler: Handler, call: Call)
    requires Fits(handler.pc, call)
    ensures var task := TaskOf(Next(w, handler, call));
      task.None? || task == TaskOf(handler.pc) || task == Some(w.nextTask)
  {
  }

  lemma StepKeepsApart(w: World, step: Step)
    requires Inv(w) && Enabled(w, step)
    ensures Apart(Apply(w, step))
  {
    if step.Own? {
      var handler, w' := w.handlers[step.h], Apply(w, step);
      ReceiptsStayApart(w, handler, step.call);
      NextTask(w, handler, step.call);
      forall h | h in w.handlers && TaskOf(w.handlers[h].pc).Some?
        ensures TaskOf(w.handlers[h].pc) != Some(w.nextTask)
      {
        assert HandlerSound(w, w.handlers[h]);
        TaskIsKnown(w, w.handlers[h]);
      }
      forall g, h | g in w'.handlers && h in w'.handlers && SameTask(w'.handlers[g], w'.handlers[h]) ensures g == h {
        assert g != step.h ==> w'.handlers[g] == w.handlers[g];
        assert h != step.h ==> w'.handlers[h] == w.handlers[h];
        assert SameTask(w.handlers[g], w.handlers[h]) ==> g == h;
      }
    }
  }

  lemma TaskIsKnown(w: World, handler: Handler)
    requires ReceiptsSound(w) && HandlerSound(w, handler) && TaskOf(handler.pc).Some?
    ensures TaskOf(handler.pc).value < w.nextTask
  {
    assert w.receipts[ReceiptKey(handler.click)] == TaskOf(handler.pc).value;
  }

  /** The call of one handler leaves the work of another undone. */
  lemma OthersStayUndone(w: World, caller: Handler, call: Call, other: Handler)
    requires Fits(caller.pc, call) && Undone(w, other)
    requires TaskOf(caller.pc).None? || TaskOf(caller.pc) != TaskOf(other.pc)
    ensures Undone(Effect(w, caller, call), other)
  {
  }

  lemma OwnWorkStaysUndone(w: World, handler: Handler, call: Call)
    requires Inv(w) && HandlerSound(w, handler) && Fits(handler.pc, call) && Undone(w, handler)
    ensures Undone(Effect(w, handler, call), handler.(pc := Next(w, handler, call)))
  {
    if call.WriteReceipt? {
      assert w.nextTask !in w.jobs && w.nextTask !in w.tasks;
    }
  }

  lemma EffectKeepsJobs(w: World, handler: Handler, call: Call)
    requires JobsSound(w) && ReceiptsSound(w) && HandlerSound(w, handler) && Undone(w, handler)
    requires Fits(handler.pc, call)
    ensures var w' := Effect(w, handler, call);
      && (forall i :: 0 <= i < |w'.jobs| ==> w'.jobs[i] < w'.nextTask)
      && (forall i, j :: 0 <= i < j < |w'.jobs| ==> w'.jobs[i] != w'.jobs[j])
      && (forall t :: t in w'.tasks ==> t < w'.nextTask)
  {
    if TaskOf(handler.pc).Some? {
      TaskIsKnown(w, handler);
    }
  }

  lemma StepKeepsJobs(w: World, step: Step)
    requires Inv(w) && Enabled(w, step)
    ensures JobsSound(Apply(w, step))
  {
    if step.Own? {
      var handler := w.handlers[step.h];
      var w', stores := Apply(w, step), Effect(w, handler, step.call);
      assert HandlerSound(w, handler) && Undone(w, handler);
      EffectKeepsJobs(w, handler, step.call);
      forall h | h in w'.handlers ensures Undone(w', w'.handlers[h]) {
        if h == step.h {
          OwnWorkStaysUndone(w, handler, step.call);
        } else {
          assert Undone(w, w.handlers[h]) && !SameTask(handler, w.handlers[h]);
          OthersStayUndone(w, handler, step.call, w.handlers[h]);
        }
        assert Undone(stores, w'.handlers[h]);
      }
    }
  }

  lemma StepKeepsInv(w: World, step: Step)
    requires Inv(w) && Enabled(w, step)
    ensures Inv(Apply(w, step))
  {
    StepKeepsReceipts(w, step);
    StepKeepsApart(w, step);
    StepKeepsJobs(w, step);
  }

  lemma {:induction false} RunKeepsInv(w: World, steps: seq<Step>)
    requires Inv(w) && IsRun(w, steps)
    ensures Inv(After(w, steps))
    decreases |steps|
  {
    if steps != [] {
      StepKeepsInv(w, steps[0]);
      RunKeepsInv(Apply(w, steps[0]), steps[1..]);
    }
  }

  lemma ReachableInv(w: World)
    requires Reaches(Initial(), w)
    ensures Inv(w)
  {
    var steps :| IsRun(Initial(), steps) && After(Initial(), steps) == w;
    RunKeepsInv(Initial(), steps);
  }

  // ---- Theorems over all runs ----

  /** Source task, action and operator have at most one retry task, and it at most one job. */
  lemma AtMostOneRetry(w: World, s: nat, t: nat)
    requires Reaches(Initial(), w) && s in w.tasks && t in w.tasks
    requires w.tasks[s].click.sourceTaskId == w.tasks[t].click.sourceTaskId
    requires w.tasks[s].click.action == w.tasks[t].click.action
    requires OperatorName(w.tasks[s].click) == OperatorName(w.tasks[t].click)
    ensures s == t
    ensures forall i, j :: 0 <= i < j < |w.jobs| ==> w.jobs[i] != w.jobs[j]
  {
    ReachableInv(w);
    ReceiptKeysAgreeExactly(w.tasks[s].click, w.tasks[t].click);
  }

  lemma {:induction false} RunConcat(w: World, first: seq<Step>, second: seq<Step>)
    requires IsRun(w, first) && IsRun(After(w, first), second)
    ensures IsRun(w, first + second)
    ensures After(w, first + second) == After(After(w, first), second)
    decreases |first|
  {
    if first == [] {
      assert first + second == second;
    } else {
      RunConcat(Apply(w, first[0]), first[1..], second);
      assert (first + second)[1..] == first[1..] + second;
    }
  }

  lemma ReachesItself(w: World)
    ensures Reaches(w, w)
  {
    assert IsRun(w, []) && After(w, []) == w;
  }

  lemma ReachesFurther(origin: World, w: World, steps: seq<Step>)
    requires Reaches(origin, w) && IsRun(w, steps)
    ensures Reaches(origin, After(w, steps))
  {
    var first :| IsRun(origin, first) && After(origin, first) == w;
    RunConcat(origin, first, steps);
  }

  lemma Extend(origin: World, w: World, step: Step) returns (w': World)
    requires Reaches(origin, w) && Enabled(w, step)
    ensures w' == Apply(w, step) && Reaches(origin, w')
  {
    w' := Apply(w, step);
    assert [step][1..] == [];
    assert IsRun(w', []) && After(w', []) == w';
    ReachesFurther(origin, w, [step]);
  }
}
