/**
 * Polling a review request for new comments (apps/api/src/pr-polling-service.ts): each poll
 * hands the oldest unprocessed comments to one resolution task and moves the session's cursor
 * past them.
 *
 * The World is one session, its request's comments, its tasks and the poll under way. Polls do
 * not overlap. Comments arrive, with any time up to now, and time passes between any two steps
 * of a poll; every call may fail before or after its effect, and the process may crash anywhere.
 */
module PrPolling {
  import opened Wrappers
  import opened PrComments

  // ---- The poll as a state machine ----

  datatype TaskStatus = Queued | Cancelled

  /** The goal of a task names the comments it is to resolve. */
  datatype Task = Task(status: TaskStatus, goal: seq<Comment>)

  datatype EnqueueResult = Accepted | Collision | Rejected | RejectedAfterInsert

  /** Where the poll under way stands. */
  datatype Pc =
    | Idle
    | AtFetch(started: int)
    | AtInsert(batch: seq<Comment>)
    | AtEnqueue(batch: seq<Comment>, task: nat)
    | AtCancel(batch: seq<Comment>, task: nat, result: EnqueueResult)
    | AtAdvance(next: int, enqueued: seq<Comment>)

  datatype Outcome = Works | Lost | Torn

  datatype Step =
    | Tick(ms: nat)
    | Post(comment: Comment)
    | Open
    | Fetch(works: bool)
    | InsertTask(outcome: Outcome)
    | Enqueue(result: EnqueueResult)
    | Cancel(outcome: Outcome)
    | Advance(outcome: Outcome)
    | Crash

  /**
   * `jobs` are the tasks with a job.
   *
   * The rest is history. `runners` are the tasks that are left with a job and not cancelled: their
   * enqueue returned a job id, or it threw after the insert and they were not cancelled. `batches`
   * are the comments handed over to them, and `slipped` those of these batches whose poll then did
   * not move the cursor. `skipped` are the comments that the poll under way has not seen
   * although it is about to move the cursor past their time: they tie with the last of a
   * capped batch, or showed up after the fetch. `missed` are those whose poll did move the
   * cursor, and those that showed up when the cursor had passed their time already.
   */
  datatype World = World(
    now: int,
    comments: seq<Comment>,
    cursor: Option<int>,
    tasks: map<nat, Task>,
    nextTask: nat,
    jobs: set<nat>,
    pc: Pc,
    lastStart: Option<int>,
    runners: seq<nat>,
    batches: seq<seq<Comment>>,
    slipped: seq<seq<Comment>>,
    skipped: set<Comment>,
    missed: set<Comment>)

  function Initial(now: int): World {
    World(now, [], None, map[], 0, {}, Idle, None, [], [], [], {}, {})
  }

  predicate Behind(cursor: Option<int>, c: Comment) {
    cursor.Some? && c.at <= cursor.value
  }

  /** Where the poll under way is about to move the cursor. */
  function PollEnd(pc: Pc): Option<int> {
    match pc
    case AtInsert(batch) => Some(NextPolledAt(batch, 0))
    case AtEnqueue(batch, _) => Some(NextPolledAt(batch, 0))
    case AtAdvance(next, _) => Some(next)
    case _ => None
  }

  predicate Enabled(w: World, step: Step) {
    match step
    case Tick(_) => true
    case Post(c) => c.at <= w.now && c !in w.comments
    case Open => w.pc.Idle?
    case Fetch(_) => w.pc.AtFetch?
    case InsertTask(_) => w.pc.AtInsert?
    case Enqueue(_) => w.pc.AtEnqueue?
    case Cancel(_) => w.pc.AtCancel?
    case Advance(_) => w.pc.AtAdvance?
    case Crash => !w.pc.Idle?
  }

  /** Pending comments no later than the last of the batch that the cap cut off. */
  function CutOff(pending: seq<Comment>): set<Comment> {
    set c | c in pending && c !in FirstOf(pending) && c.at <= NextPolledAt(FirstOf(pending), 0)
  }

  /**
   * The poll ends here, by a crash or an exception, leaving its task as it is. If that has a job,
   * its batch is handed over although the cursor stays.
   */
  function Abandoned(w: World): World {
    if w.pc.AtAdvance? && w.pc.enqueued != [] then w.(pc := Idle, slipped := w.slipped + [w.pc.enqueued])
    else if w.pc.AtCancel? && w.pc.result.RejectedAfterInsert? then
      HandedOver(w, w.pc.task, w.pc.batch).(pc := Idle, slipped := w.slipped + [w.pc.batch])
    else w.(pc := Idle)
  }

  function HandedOver(w: World, task: nat, batch: seq<Comment>): World {
    w.(runners := w.runners + [task], batches := w.batches + [batch])
  }

  function CancelTask(tasks: map<nat, Task>, task: nat): map<nat, Task> {
    if task in tasks then tasks[task := tasks[task].(status := Cancelled)] else tasks
  }

  function FetchDone(w: World, bots: set<string>): World
    requires w.pc.AtFetch?
  {
    var pending := Pending(w.comments, bots, w.cursor);
    if pending == [] then w.(pc := AtAdvance(w.pc.started, []), skipped := {})
    else w.(pc := AtInsert(FirstOf(pending)), skipped := CutOff(pending))
  }

  function Posted(w: World, c: Comment): World {
    var w' := w.(comments := w.comments + [c]);
    if Behind(w.cursor, c) then w'.(missed := w.missed + {c})
    else if PollEnd(w.pc).Some? && c.at <= PollEnd(w.pc).value then w'.(skipped := w.skipped + {c})
    else w'
  }

  function Apply(bots: set<string>, w: World, step: Step): World
    requires Enabled(w, step)
  {
    match step
    case Tick(ms) => w.(now := w.now + ms)
    case Post(c) => Posted(w, c)
    case Open => w.(pc := AtFetch(w.now), lastStart := Some(w.now))
    case Fetch(works) => if works then FetchDone(w, bots) else w.(pc := Idle)
    case InsertTask(outcome) =>
      if outcome == Lost then w.(pc := Idle)
      else
        w.(tasks := w.tasks[w.nextTask := Task(Queued, w.pc.batch)], nextTask := w.nextTask + 1,
           pc := if outcome == Works then AtEnqueue(w.pc.batch, w.nextTask) else Idle)
    case Enqueue(result) =>
      (match result
       case Accepted =>
         HandedOver(w, w.pc.task, w.pc.batch).(
           jobs := w.jobs + {w.pc.task}, pc := AtAdvance(NextPolledAt(w.pc.batch, 0), w.pc.batch))
       case RejectedAfterInsert =>
         w.(jobs := w.jobs + {w.pc.task}, pc := AtCancel(w.pc.batch, w.pc.task, result))
       case Collision => w.(pc := AtCancel(w.pc.batch, w.pc.task, result))
       case Rejected => w.(pc := AtCancel(w.pc.batch, w.pc.task, result)))
    case Cancel(outcome) =>
      if outcome == Lost then Abandoned(w)
      else w.(tasks := CancelTask(w.tasks, w.pc.task), pc := Idle)
    case Advance(outcome) =>
      if outcome == Lost then Abandoned(w)
      else w.(cursor := Some(w.pc.next), missed := w.missed + w.skipped, pc := Idle)
    case Crash => Abandoned(w)
  }

  predicate IsRun(bots: set<string>, w: World, steps: seq<Step>)
    decreases |steps|
  {
    steps == [] || (Enabled(w, steps[0]) && IsRun(bots, Apply(bots, w, steps[0]), steps[1..]))
  }

  function After(bots: set<string>, w: World, steps: seq<Step>): World
    requires IsRun(bots, w, steps)
    decreases |steps|
  {
    if steps == [] then w else After(bots, Apply(bots, w, steps[0]), steps[1..])
  }

  ghost predicate Reaches(bots: set<string>, w: World, w': World) {
    exists steps :: IsRun(bots, w, steps) && After(bots, w, steps) == w'
  }

  ghost predicate Reachable(bots: set<string>, w: World) {
    exists now :: Reaches(bots, Initial(now), w)
  }

  lemma ReachesItself(bots: set<string>, w: World)
    ensures Reaches(bots, w, w)
  {
    assert IsRun(bots, w, []) && After(bots, w, []) == w;
  }

  lemma {:induction false} RunConcat(bots: set<string>, w: World, first: seq<Step>, second: seq<Step>)
    requires IsRun(bots, w, first) && IsRun(bots, After(bots, w, first), second)
    ensures IsRun(bots, w, first + second)
    ensures After(bots, w, first + second) == After(bots, After(bots, w, first), second)
    decreases |first|
  {
    if first == [] {
      assert first + second == second;
    } else {
      RunConcat(bots, Apply(bots, w, first[0]), first[1..], second);
      assert (first + second)[1..] == first[1..] + second;
    }
  }

  lemma ReachesFurther(bots: set<string>, origin: World, w: World, steps: seq<Step>)
    requires Reaches(bots, origin, w) && IsRun(bots, w, steps)
    ensures Reaches(bots, origin, After(bots, w, steps))
  {
    var first :| IsRun(bots, origin, first) && After(bots, origin, first) == w;
    RunConcat(bots, origin, first, steps);
  }

  lemma Extend(bots: set<string>, origin: World, w: World, step: Step) returns (w': World)
    requires Reaches(bots, origin, w) && Enabled(w, step)
    ensures w' == Apply(bots, w, step) && Reaches(bots, origin, w')
  {
    w' := Apply(bots, w, step);
    assert [step][1..] == [];
    assert IsRun(bots, w', []) && After(bots, w', []) == w';
    ReachesFurther(bots, origin, w, [step]);
  }

  // ---- Invariant ----

  /** How many of the batches hold the comment. */
  function Times(c: Comment, batches: seq<seq<Comment>>): nat {
    if batches == [] then 0
    else Times(c, batches[..|batches| - 1]) + (if c in batches[|batches| - 1] then 1 else 0)
  }

  lemma TimesAppend(c: Comment, batches: seq<seq<Comment>>, batch: seq<Comment>)
    ensures Times(c, batches + [batch]) == Times(c, batches) + (if c in batch then 1 else 0)
  {
    assert (batches + [batch])[..|batches|] == batches;
  }

  lemma {:induction false} NeverIn(c: Comment, batches: seq<seq<Comment>>)
    requires forall i :: 0 <= i < |batches| ==> c !in batches[i]
    ensures Times(c, batches) == 0
  {
    if batches != [] {
      NeverIn(c, batches[..|batches| - 1]);
    }
  }

  predicate IsPosted(w: World, bots: set<string>, c: Comment) {
    c in w.comments && c.login !in bots
  }

  predicate BatchSound(w: World, bots: set<string>, batch: seq<Comment>) {
    && batch != []
    && IsSorted(batch)
    && forall c :: c in batch ==> c in w.comments && IsNew(c, bots, w.cursor) && c !in w.skipped
  }

  /** Up to the end of the poll, every comment not behind the cursor is in its batch or skipped. */
  predicate Covers(w: World, bots: set<string>, batch: seq<Comment>, end: int) {
    && (forall c :: c in w.comments && IsNew(c, bots, w.cursor) && c.at <= end ==> c in batch || c in w.skipped)
    && (forall c :: c in w.skipped ==> c in w.comments && !Behind(w.cursor, c) && c.at <= end)
  }

  predicate PcSound(w: World, bots: set<string>) {
    match w.pc
    case Idle => true
    case AtFetch(started) => started <= w.now && (w.cursor.Some? ==> w.cursor.value <= started)
    case AtInsert(batch) => BatchSound(w, bots, batch) && Covers(w, bots, batch, NextPolledAt(batch, 0))
    case AtEnqueue(batch, _) => BatchSound(w, bots, batch) && Covers(w, bots, batch, NextPolledAt(batch, 0))
    case AtCancel(batch, _, _) => BatchSound(w, bots, batch)
    case AtAdvance(next, enqueued) =>
      && next <= w.now
      && (w.cursor.Some? ==> w.cursor.value <= next)
      && (enqueued != [] ==> BatchSound(w, bots, enqueued) && next == NextPolledAt(enqueued, 0))
      && Covers(w, bots, enqueued, next)
  }

  predicate ClockSound(w: World) {
    && (forall c :: c in w.comments ==> c.at <= w.now)
    && (w.cursor.Some? ==> w.cursor.value <= w.now)
  }

  predicate AllPosted(w: World, bots: set<string>, batch: seq<Comment>) {
    forall c :: c in batch ==> IsPosted(w, bots, c)
  }

  /** Only posted comments get into batches, and missed ones are behind the cursor. */
  predicate HistorySound(w: World, bots: set<string>) {
    && (forall i :: 0 <= i < |w.batches| ==> AllPosted(w, bots, w.batches[i]))
    && (forall i :: 0 <= i < |w.slipped| ==> AllPosted(w, bots, w.slipped[i]))
    && (forall c :: c in w.missed ==> c in w.comments && Behind(w.cursor, c))
  }

  /** The cursor has passed the comment, or is about to, right after it was enqueued. */
  predicate Accounted(w: World, c: Comment) {
    Behind(w.cursor, c) || (w.pc.AtAdvance? && c in w.pc.enqueued)
  }

  /** The handovers of a comment besides those that slipped. */
  function Proper(w: World, bots: set<string>, c: Comment): nat {
    if IsPosted(w, bots, c) && Accounted(w, c) && c !in w.missed then 1 else 0
  }

  predicate Counted(w: World, bots: set<string>, c: Comment) {
    Times(c, w.batches) == Times(c, w.slipped) + Proper(w, bots, c)
  }

  ghost predicate Inv(w: World, bots: set<string>) {
    && ClockSound(w)
    && PcSound(w, bots)
    && HistorySound(w, bots)
    && forall c :: Counted(w, bots, c)
  }

  // ---- Every step keeps it ----

  lemma FirstOfSorted(pending: seq<Comment>)
    requires IsSorted(pending)
    ensures IsSorted(FirstOf(pending)) && (FirstOf(pending) == [] <==> pending == [])
    ensures forall c :: c in FirstOf(pending) ==> c in pending
  {
  }

  lemma BatchFetchIsSound(w: World, bots: set<string>, pending: seq<Comment>)
    requires IsSorted(pending) && pending != []
    requires forall c :: c in pending <==> c in w.comments && IsNew(c, bots, w.cursor)
    ensures var w', batch := w.(pc := AtInsert(FirstOf(pending)), skipped := CutOff(pending)), FirstOf(pending);
      BatchSound(w', bots, batch) && Covers(w', bots, batch, NextPolledAt(batch, 0))
  {
    FirstOfSorted(pending);
  }

  lemma FetchIsSound(w: World, bots: set<string>)
    requires w.pc.AtFetch? && ClockSound(w) && PcSound(w, bots)
    ensures PcSound(FetchDone(w, bots), bots)
  {
    var pending := Pending(w.comments, bots, w.cursor);
    PendingMembers(w.comments, bots, w.cursor);
    SortSorts(Filter(w.comments, bots, w.cursor));
    if pending != [] {
      BatchFetchIsSound(w, bots, pending);
    }
  }

  lemma InBatchIsBeforeItsEnd(batch: seq<Comment>, c: Comment)
    requires IsSorted(batch) && c in batch
    ensures c.at <= NextPolledAt(batch, 0)
  {
  }

  lemma StepKeepsClock(bots: set<string>, w: World, step: Step)
    requires Inv(w, bots) && Enabled(w, step)
    ensures ClockSound(Apply(bots, w, step))
  {
  }

  lemma PostKeepsPc(bots: set<string>, w: World, c: Comment)
    requires PcSound(w, bots) && Enabled(w, Post(c))
    ensures PcSound(Posted(w, c), bots)
  {
  }

  lemma EnqueueKeepsPc(bots: set<string>, w: World, result: EnqueueResult)
    requires ClockSound(w) && PcSound(w, bots) && w.pc.AtEnqueue?
    ensures PcSound(Apply(bots, w, Enqueue(result)), bots)
  {
    assert w.pc.batch[|w.pc.batch| - 1] in w.pc.batch;
  }

  lemma StepKeepsPc(bots: set<string>, w: World, step: Step)
    requires Inv(w, bots) && Enabled(w, step)
    ensures PcSound(Apply(bots, w, step), bots)
  {
    match step {
      case Post(c) => PostKeepsPc(bots, w, c);
      case Fetch(_) => FetchIsSound(w, bots);
      case Enqueue(result) => EnqueueKeepsPc(bots, w, result);
      case _ =>
    }
  }

  lemma StepKeepsHistory(bots: set<string>, w: World, step: Step)
    requires Inv(w, bots) && Enabled(w, step)
    ensures HistorySound(Apply(bots, w, step), bots)
  {
    var w' := Apply(bots, w, step);
    forall i | 0 <= i < |w'.batches| ensures AllPosted(w', bots, w'.batches[i]) {
      assert i < |w.batches| ==> AllPosted(w, bots, w.batches[i]);
    }
    forall i | 0 <= i < |w'.slipped| ensures AllPosted(w', bots, w'.slipped[i]) {
      assert i < |w.slipped| ==> AllPosted(w, bots, w.slipped[i]);
    }
  }

  lemma UnpostedIsUncounted(w: World, bots: set<string>, c: Comment)
    requires HistorySound(w, bots) && !IsPosted(w, bots, c)
    ensures Times(c, w.batches) == 0 && Times(c, w.slipped) == 0
  {
    forall i | 0 <= i < |w.batches| ensures c !in w.batches[i] {
      assert AllPosted(w, bots, w.batches[i]);
    }
    forall i | 0 <= i < |w.slipped| ensures c !in w.slipped[i] {
      assert AllPosted(w, bots, w.slipped[i]);
    }
    NeverIn(c, w.batches);
    NeverIn(c, w.slipped);
  }

  lemma PostKeepsCounted(bots: set<string>, w: World, posted: Comment, c: Comment)
    requires Inv(w, bots) && Enabled(w, Post(posted))
    ensures Counted(Posted(w, posted), bots, c)
  {
    assert Counted(w, bots, c);
    if c == posted {
      UnpostedIsUncounted(w, bots, c);
    }
  }

  lemma AdvanceKeepsCounted(bots: set<string>, w: World, c: Comment)
    requires Inv(w, bots) && w.pc.AtAdvance?
    ensures Counted(Apply(bots, w, Advance(Works)), bots, c)
  {
    assert Counted(w, bots, c);
    if c in w.pc.enqueued {
      InBatchIsBeforeItsEnd(w.pc.enqueued, c);
    }
  }

  lemma AbandonKeepsCounted(bots: set<string>, w: World, c: Comment)
    requires Inv(w, bots) && !w.pc.AtCancel?
    ensures Counted(Abandoned(w), bots, c)
  {
    assert Counted(w, bots, c);
    if w.pc.AtAdvance? {
      TimesAppend(c, w.slipped, w.pc.enqueued);
    }
  }

  lemma CancelKeepsCounted(bots: set<string>, w: World, c: Comment)
    requires Inv(w, bots) && w.pc.AtCancel?
    ensures Counted(Abandoned(w), bots, c)
    ensures Counted(Apply(bots, w, Cancel(Works)), bots, c)
  {
    assert Counted(w, bots, c);
    TimesAppend(c, w.slipped, w.pc.batch);
    TimesAppend(c, w.batches, w.pc.batch);
  }

  lemma EnqueueKeepsCounted(bots: set<string>, w: World, result: EnqueueResult, c: Comment)
    requires Inv(w, bots) && w.pc.AtEnqueue?
    ensures Counted(Apply(bots, w, Enqueue(result)), bots, c)
  {
    assert Counted(w, bots, c);
    TimesAppend(c, w.batches, w.pc.batch);
  }

  lemma FetchKeepsCounted(bots: set<string>, w: World, c: Comment)
    requires Counted(w, bots, c) && w.pc.AtFetch?
    ensures Counted(FetchDone(w, bots), bots, c)
  {
  }

  lemma StepKeepsCounted(bots: set<string>, w: World, step: Step, c: Comment)
    requires Inv(w, bots) && Enabled(w, step)
    ensures Counted(Apply(bots, w, step), bots, c)
  {
    assert Counted(w, bots, c);
    match step {
      case Post(posted) => PostKeepsCounted(bots, w, posted, c);
      case Enqueue(result) => EnqueueKeepsCounted(bots, w, result, c);
      case Fetch(_) => FetchKeepsCounted(bots, w, c);
      case Advance(outcome) =>
        if outcome == Lost {
          AbandonKeepsCounted(bots, w, c);
        } else {
          AdvanceKeepsCounted(bots, w, c);
        }
      case Cancel(_) => CancelKeepsCounted(bots, w, c);
      case Crash =>
        if w.pc.AtCancel? {
          CancelKeepsCounted(bots, w, c);
        } else {
          AbandonKeepsCounted(bots, w, c);
        }
      case _ =>
    }
  }

  lemma StepKeepsInv(bots: set<string>, w: World, step: Step)
    requires Inv(w, bots) && Enabled(w, step)
    ensures Inv(Apply(bots, w, step), bots)
  {
    StepKeepsClock(bots, w, step);
    StepKeepsPc(bots, w, step);
    StepKeepsHistory(bots, w, step);
    forall c ensures Counted(Apply(bots, w, step), bots, c) {
      StepKeepsCounted(bots, w, step, c);
    }
  }

  /** The cursor is a time or nothing, and never an earlier one. */
  predicate NotBack(cursor: Option<int>, cursor': Option<int>) {
    cursor.Some? ==> cursor'.Some? && cursor.value <= cursor'.value
  }

  lemma {:induction false} RunKeepsInv(bots: set<string>, w: World, steps: seq<Step>)
    requires Inv(w, bots) && IsRun(bots, w, steps)
    ensures Inv(After(bots, w, steps), bots)
    ensures NotBack(w.cursor, After(bots, w, steps).cursor)
    ensures w.missed <= After(bots, w, steps).missed
    decreases |steps|
  {
    if steps != [] {
      StepKeepsInv(bots, w, steps[0]);
      RunKeepsInv(bots, Apply(bots, w, steps[0]), steps[1..]);
    }
  }

  lemma ReachableInv(bots: set<string>, w: World)
    requires Reachable(bots, w)
    ensures Inv(w, bots)
  {
    var now :| Reaches(bots, Initial(now), w);
    var steps :| IsRun(bots, Initial(now), steps) && After(bots, Initial(now), steps) == w;
    RunKeepsInv(bots, Initial(now), steps);
  }

  // ---- Handovers are live tasks ----

  /** The poll has inserted the task and not yet learnt what its enqueue does, or not yet cancelled it. */
  predicate InFlight(w: World, task: nat) {
    (w.pc.AtEnqueue? || w.pc.AtCancel?) && w.pc.task == task
  }

  predicate FlightSound(w: World) {
    w.pc.AtEnqueue? || w.pc.AtCancel? ==>
      && w.pc.task in w.tasks && w.tasks[w.pc.task] == Task(Queued, w.pc.batch)
      && (w.pc.task in w.jobs <==> w.pc.AtCancel? && w.pc.result.RejectedAfterInsert?)
  }

  /** The i-th handover is a queued task with a job and that batch as its goal. */
  predicate Runs(w: World, i: nat)
    requires i < |w.runners| == |w.batches|
  {
    var t := w.runners[i];
    t in w.jobs && t in w.tasks && w.tasks[t] == Task(Queued, w.batches[i]) && !InFlight(w, t)
  }

  predicate Apart(ids: seq<nat>) {
    forall i, j :: 0 <= i < j < |ids| ==> ids[i] != ids[j]
  }

  predicate IsLive(w: World, t: nat) {
    t in w.tasks && w.tasks[t].status == Queued && t in w.jobs && !InFlight(w, t)
  }

  predicate RunnersSound(w: World) {
    && FlightSound(w)
    && (forall t :: t in w.tasks ==> t < w.nextTask)
    && (forall t :: t in w.jobs ==> t in w.tasks)
    && |w.runners| == |w.batches|
    && (forall i :: 0 <= i < |w.runners| ==> Runs(w, i))
    && Apart(w.runners)
    && (forall t :: t in w.jobs && IsLive(w, t) ==> t in w.runners)
  }

  lemma StepKeepsRunners(bots: set<string>, w: World, step: Step)
    requires RunnersSound(w) && Enabled(w, step)
    ensures RunnersSound(Apply(bots, w, step))
  {
    var w' := Apply(bots, w, step);
    forall i | 0 <= i < |w'.runners| ensures Runs(w', i) {
      assert i < |w.runners| ==> Runs(w, i);
    }
    forall i, j | 0 <= i < j < |w'.runners| ensures w'.runners[i] != w'.runners[j] {
      assert Runs(w, i);
    }
    forall t | t in w'.jobs && IsLive(w', t) ensures t in w'.runners {
      assert IsLive(w, t) ==> t in w.runners;
      assert InFlight(w, t) && t !in w.runners ==> w'.runners[|w.runners|] == t;
    }
  }

  lemma {:induction false} RunKeepsRunners(bots: set<string>, w: World, steps: seq<Step>)
    requires RunnersSound(w) && IsRun(bots, w, steps)
    ensures RunnersSound(After(bots, w, steps))
    decreases |steps|
  {
    if steps != [] {
      StepKeepsRunners(bots, w, steps[0]);
      RunKeepsRunners(bots, Apply(bots, w, steps[0]), steps[1..]);
    }
  }

  /**
   * The handovers are exactly the queued tasks with a job, each once, with what its goal names,
   * except the task that the poll under way is about to enqueue or to cancel.
   */
  lemma HandoversAreTheLiveTasks(bots: set<string>, w: World)
    requires Reachable(bots, w)
    ensures |w.runners| == |w.batches| && Apart(w.runners)
    ensures forall i :: 0 <= i < |w.runners| ==> w.runners[i] in w.tasks && w.tasks[w.runners[i]].goal == w.batches[i]
    ensures forall t :: t in w.runners <==> IsLive(w, t)
  {
    var now :| Reaches(bots, Initial(now), w);
    var steps :| IsRun(bots, Initial(now), steps) && After(bots, Initial(now), steps) == w;
    RunKeepsRunners(bots, Initial(now), steps);
    forall i | 0 <= i < |w.runners|
      ensures w.runners[i] in w.tasks && w.tasks[w.runners[i]].goal == w.batches[i] && IsLive(w, w.runners[i])
    {
      assert Runs(w, i);
    }
  }

  // ---- Handovers over all runs ----

  lemma CursorNeverMovesBack(bots: set<string>, w: World, w': World)
    requires Reachable(bots, w) && Reaches(bots, w, w')
    ensures NotBack(w.cursor, w'.cursor)
  {
    ReachableInv(bots, w);
    var steps :| IsRun(bots, w, steps) && After(bots, w, steps) == w';
    RunKeepsInv(bots, w, steps);
  }

  /**
   * Whatever failed or crashed, for every comment: each batch that slipped counts, and exactly
   * one more if the comment is not a bot's, was not missed, and the cursor has passed it or is
   * about to after its enqueue. This does not even ask that the times are distinct.
   */
  lemma HandoversAreExactlyCounted(bots: set<string>, w: World, c: Comment)
    requires Reachable(bots, w)
    ensures Times(c, w.batches) == Times(c, w.slipped) +
      (if c in w.comments && c.login !in bots && Accounted(w, c) && c !in w.missed then 1 else 0)
  {
    ReachableInv(bots, w);
    assert Counted(w, bots, c);
  }

  /** A passed comment was handed over, exactly once iff none of its batches slipped, unless it was missed. */
  lemma EveryPassedCommentIsHandedOver(bots: set<string>, w: World, c: Comment)
    requires Reachable(bots, w)
    requires c in w.comments && c.login !in bots && Behind(w.cursor, c)
    ensures c !in w.missed ==> Times(c, w.batches) >= 1
    ensures c !in w.missed ==> (Times(c, w.batches) == 1 <==> Times(c, w.slipped) == 0)
    ensures Times(c, w.slipped) == 0 ==> (Times(c, w.batches) == 0 <==> c in w.missed)
  {
    HandoversAreExactlyCounted(bots, w, c);
  }

  /** A comment none of whose batches slipped is handed over at most once, and not before it is due. */
  lemma NeverTwiceWithoutASlip(bots: set<string>, w: World, c: Comment)
    requires Reachable(bots, w) && Times(c, w.slipped) == 0
    ensures Times(c, w.batches) <= 1
    ensures Times(c, w.batches) == 1 ==> Accounted(w, c)
  {
    HandoversAreExactlyCounted(bots, w, c);
  }

  lemma StepSettlesTimes(bots: set<string>, w: World, step: Step, c: Comment)
    requires Inv(w, bots) && Enabled(w, step) && Behind(w.cursor, c)
    ensures Times(c, Apply(bots, w, step).batches) == Times(c, w.batches)
  {
    if w.pc.AtEnqueue? || w.pc.AtCancel? {
      TimesAppend(c, w.batches, w.pc.batch);
      assert c in w.pc.batch ==> IsNew(c, bots, w.cursor);
    }
  }

  lemma {:induction false} RunSettlesTimes(bots: set<string>, w: World, steps: seq<Step>, c: Comment)
    requires Inv(w, bots) && IsRun(bots, w, steps) && Behind(w.cursor, c)
    ensures Times(c, After(bots, w, steps).batches) == Times(c, w.batches)
    decreases |steps|
  {
    if steps != [] {
      StepKeepsInv(bots, w, steps[0]);
      StepSettlesTimes(bots, w, steps[0], c);
      RunSettlesTimes(bots, Apply(bots, w, steps[0]), steps[1..], c);
    }
  }

  /** Once the cursor has passed a comment it is never handed over again. */
  lemma PassedIsSettled(bots: set<string>, w: World, w': World, c: Comment)
    requires Reachable(bots, w) && Reaches(bots, w, w') && Behind(w.cursor, c)
    ensures Times(c, w'.batches) == Times(c, w.batches)
  {
    ReachableInv(bots, w);
    var steps :| IsRun(bots, w, steps) && After(bots, w, steps) == w';
    RunSettlesTimes(bots, w, steps, c);
  }

  /** A comment that shows up with a time the cursor has passed is never handed over. */
  lemma TooLateIsNeverHandedOver(bots: set<string>, w: World, w': World, c: Comment)
    requires Reachable(bots, w) && Enabled(w, Post(c)) && Behind(w.cursor, c)
    requires Reaches(bots, Apply(bots, w, Post(c)), w')
    ensures Times(c, w'.batches) == 0
  {
    ReachableInv(bots, w);
    UnpostedIsUncounted(w, bots, c);
    StepKeepsInv(bots, w, Post(c));
    var steps :| IsRun(bots, Apply(bots, w, Post(c)), steps) && After(bots, Apply(bots, w, Post(c)), steps) == w';
    RunSettlesTimes(bots, Apply(bots, w, Post(c)), steps, c);
  }

  // ---- When nothing is missed ----

  /** Later than all comments so far and than the start of the last poll. */
  predicate IsPrompt(w: World, c: Comment) {
    && (w.lastStart.Some? ==> c.at > w.lastStart.value)
    && forall x :: x in w.comments ==> x.at < c.at
  }

  /** Comments show up in the order of their times, each later than the start of every earlier poll. */
  predicate PromptRun(bots: set<string>, w: World, steps: seq<Step>)
    requires IsRun(bots, w, steps)
    decreases |steps|
  {
    steps == [] || (
      && (steps[0].Post? ==> IsPrompt(w, steps[0].comment))
      && PromptRun(bots, Apply(bots, w, steps[0]), steps[1..]))
  }

  /** A time that a prompt comment is later than. */
  predicate Reached(w: World, t: int) {
    (w.lastStart.Some? && t <= w.lastStart.value) || exists x :: x in w.comments && t <= x.at
  }

  predicate NothingMissed(w: World) {
    && w.missed == {} && (PollEnd(w.pc).Some? ==> w.skipped == {})
    && DistinctTimes(w.comments)
    && (w.cursor.Some? ==> Reached(w, w.cursor.value))
    && (PollEnd(w.pc).Some? ==> Reached(w, PollEnd(w.pc).value))
    && (w.pc.AtFetch? ==> Reached(w, w.pc.started))
  }

  lemma PromptPostMissesNothing(bots: set<string>, w: World, c: Comment)
    requires NothingMissed(w) && Enabled(w, Post(c)) && IsPrompt(w, c)
    ensures NothingMissed(Posted(w, c))
  {
    var comments := w.comments + [c];
    assert forall i :: 0 <= i < |w.comments| ==> w.comments[i] in w.comments;
    assert forall x :: x in w.comments ==> x in comments;
  }

  /** In strict order nothing is cut off behind the last of the batch. */
  lemma NothingCutOff(pending: seq<Comment>)
    requires IsStrict(pending)
    ensures pending != [] ==> CutOff(pending) == {}
  {
    var batch := FirstOf(pending);
    forall c | c in pending && pending != [] && c.at <= NextPolledAt(batch, 0) ensures c in batch {
      var k :| 0 <= k < |pending| && pending[k] == c;
      assert batch[k] == c;
    }
  }

  lemma BatchMissesNothing(w: World, pending: seq<Comment>)
    requires NothingMissed(w) && w.pc.AtFetch? && pending != [] && IsStrict(pending)
    requires forall c :: c in pending ==> c in w.comments
    ensures NothingMissed(w.(pc := AtInsert(FirstOf(pending)), skipped := CutOff(pending)))
  {
    NothingCutOff(pending);
    var last := FirstOf(pending)[|FirstOf(pending)| - 1];
    assert last in pending;
    assert Reached(w, last.at);
  }

  lemma FetchMissesNothing(bots: set<string>, w: World)
    requires NothingMissed(w) && w.pc.AtFetch?
    ensures NothingMissed(FetchDone(w, bots))
  {
    var pending := Pending(w.comments, bots, w.cursor);
    PendingIsStrict(w.comments, bots, w.cursor);
    PendingMembers(w.comments, bots, w.cursor);
    if pending != [] {
      BatchMissesNothing(w, pending);
    }
  }

  lemma OpenMissesNothing(bots: set<string>, w: World)
    requires NothingMissed(w) && ClockSound(w) && w.pc.Idle?
    ensures NothingMissed(Apply(bots, w, Open))
  {
  }

  lemma OthersMissNothing(bots: set<string>, w: World, step: Step)
    requires NothingMissed(w) && Enabled(w, step) && !step.Post? && !step.Fetch? && !step.Open?
    ensures NothingMissed(Apply(bots, w, step))
  {
    var w' := Apply(bots, w, step);
    assert w'.comments == w.comments && w'.lastStart == w.lastStart;
    assert forall t :: Reached(w', t) <==> Reached(w, t);
  }

  lemma StepMissesNothing(bots: set<string>, w: World, step: Step)
    requires Inv(w, bots) && NothingMissed(w) && Enabled(w, step)
    requires step.Post? ==> IsPrompt(w, step.comment)
    ensures NothingMissed(Apply(bots, w, step))
  {
    match step {
      case Post(c) => PromptPostMissesNothing(bots, w, c);
      case Fetch(_) => FetchMissesNothing(bots, w);
      case Open => OpenMissesNothing(bots, w);
      case _ => OthersMissNothing(bots, w, step);
    }
  }

  lemma {:induction false} PromptRunMissesNothing(bots: set<string>, w: World, steps: seq<Step>)
    requires Inv(w, bots) && NothingMissed(w) && IsRun(bots, w, steps) && PromptRun(bots, w, steps)
    ensures NothingMissed(After(bots, w, steps))
    decreases |steps|
  {
    if steps != [] {
      StepMissesNothing(bots, w, steps[0]);
      StepKeepsInv(bots, w, steps[0]);
      PromptRunMissesNothing(bots, Apply(bots, w, steps[0]), steps[1..]);
    }
  }

  /**
   * With comments in the order of their times and later than the polls before them, none is
   * missed: each that the cursor has passed was handed over exactly once plus once per slip.
   */
  lemma PromptCommentsAreNeverMissed(bots: set<string>, now: int, steps: seq<Step>, c: Comment)
    requires IsRun(bots, Initial(now), steps) && PromptRun(bots, Initial(now), steps)
    ensures var w := After(bots, Initial(now), steps);
      c in w.comments && c.login !in bots && Behind(w.cursor, c) ==>
        Times(c, w.batches) == 1 + Times(c, w.slipped)
  {
    PromptRunMissesNothing(bots, Initial(now), steps);
    RunKeepsInv(bots, Initial(now), steps);
    assert Counted(After(bots, Initial(now), steps), bots, c);
  }

  // ---- Tasks ----

  /** The task that a step leaves queued without a job, by failing between its writes. */
  function StrandedBy(w: World, step: Step): set<nat>
    requires Enabled(w, step)
  {
    match step
    case InsertTask(outcome) => if outcome == Torn then {w.nextTask} else {}
    case Crash =>
      if w.pc.AtEnqueue? then {w.pc.task}
      else if w.pc.AtCancel? && !w.pc.result.RejectedAfterInsert? then {w.pc.task}
      else {}
    case Cancel(outcome) => if outcome == Lost && !w.pc.result.RejectedAfterInsert? then {w.pc.task} else {}
    case _ => {}
  }

  function Stranded(bots: set<string>, w: World, steps: seq<Step>): set<nat>
    requires IsRun(bots, w, steps)
    decreases |steps|
  {
    if steps == [] then {}
    else StrandedBy(w, steps[0]) + Stranded(bots, Apply(bots, w, steps[0]), steps[1..])
  }

  predicate TaskSound(w: World, stranded: set<nat>, t: nat) {
    if t !in w.tasks then t !in w.jobs && t !in stranded && !InFlight(w, t)
    else if InFlight(w, t) then
      && w.tasks[t].status == Queued && t !in stranded
      && (t in w.jobs <==> w.pc.AtCancel? && w.pc.result.RejectedAfterInsert?)
    else t in stranded <==> t !in w.jobs && w.tasks[t].status == Queued
  }

  ghost predicate TasksSound(w: World, stranded: set<nat>) {
    && (forall t :: t in w.tasks ==> t < w.nextTask)
    && (forall t :: TaskSound(w, stranded, t))
  }

  predicate ResultFits(pc: Pc) {
    pc.AtCancel? ==> !pc.result.Accepted?
  }

  lemma StepKeepsTasks(bots: set<string>, w: World, step: Step, stranded: set<nat>)
    requires TasksSound(w, stranded) && ResultFits(w.pc) && Enabled(w, step)
    ensures TasksSound(Apply(bots, w, step), stranded + StrandedBy(w, step)) && ResultFits(Apply(bots, w, step).pc)
  {
    var w' := Apply(bots, w, step);
    assert TaskSound(w, stranded, w.nextTask);
    assert step.Cancel? ==> TaskSound(w, stranded, w.pc.task);
    forall t ensures TaskSound(w', stranded + StrandedBy(w, step), t) {
      assert TaskSound(w, stranded, t);
    }
  }

  lemma {:induction false} RunKeepsTasks(bots: set<string>, w: World, steps: seq<Step>, stranded: set<nat>)
    requires TasksSound(w, stranded) && ResultFits(w.pc) && IsRun(bots, w, steps)
    ensures TasksSound(After(bots, w, steps), stranded + Stranded(bots, w, steps))
    decreases |steps|
  {
    if steps == [] {
      assert stranded + {} == stranded;
    } else {
      var now := StrandedBy(w, steps[0]);
      StepKeepsTasks(bots, w, steps[0], stranded);
      RunKeepsTasks(bots, Apply(bots, w, steps[0]), steps[1..], stranded + now);
      assert stranded + now + Stranded(bots, Apply(bots, w, steps[0]), steps[1..])
        == stranded + Stranded(bots, w, steps);
    }
  }

  /**
   * Between polls a task has a job or is cancelled, exactly if no step of the run left it: an
   * insert that took effect but failed, a crash before the enqueue, or a crash or a failed
   * update instead of the cancellation after an enqueue without effect.
   */
  lemma EveryTaskIsEnqueuedOrCancelled(bots: set<string>, now: int, steps: seq<Step>, task: nat)
    requires IsRun(bots, Initial(now), steps)
    requires After(bots, Initial(now), steps).pc.Idle? && task in After(bots, Initial(now), steps).tasks
    ensures var w := After(bots, Initial(now), steps);
      task in w.jobs || w.tasks[task].status == Cancelled <==> task !in Stranded(bots, Initial(now), steps)
  {
    RunKeepsTasks(bots, Initial(now), steps, {});
    assert TaskSound(After(bots, Initial(now), steps), {} + Stranded(bots, Initial(now), steps), task);
  }

  lemma CancelledTaskExists(bots: set<string>, w: World)
    requires Reachable(bots, w)
    ensures w.pc.AtCancel? ==> w.pc.task in w.tasks
  {
    var now :| Reaches(bots, Initial(now), w);
    var steps :| IsRun(bots, Initial(now), steps) && After(bots, Initial(now), steps) == w;
    RunKeepsTasks(bots, Initial(now), steps, {});
    assert w.pc.AtCancel? ==> TaskSound(w, {} + Stranded(bots, Initial(now), steps), w.pc.task);
  }

  // ---- Draining ----

  /** A poll in which every call works and nothing else happens. */
  function GoodPoll(bots: set<string>, w: World): World
    requires w.pc.Idle?
  {
    var fetched := Apply(bots, Apply(bots, w, Open), Fetch(true));
    if fetched.pc.AtAdvance? then Apply(bots, fetched, Advance(Works))
    else
      var enqueued := Apply(bots, Apply(bots, fetched, InsertTask(Works)), Enqueue(Accepted));
      Apply(bots, enqueued, Advance(Works))
  }

  lemma GoodPollIsARun(bots: set<string>, w: World)
    requires w.pc.Idle?
    ensures Reaches(bots, w, GoodPoll(bots, w))
  {
    ReachesItself(bots, w);
    var w' := Extend(bots, w, w, Open);
    w' := Extend(bots, w, w', Fetch(true));
    if w'.pc.AtAdvance? {
      w' := Extend(bots, w, w', Advance(Works));
    } else {
      w' := Extend(bots, w, w', InsertTask(Works));
      w' := Extend(bots, w, w', Enqueue(Accepted));
      w' := Extend(bots, w, w', Advance(Works));
    }
  }

  function PendingIn(bots: set<string>, w: World): seq<Comment> {
    Pending(w.comments, bots, w.cursor)
  }

  /** Hands over exactly the oldest pending comments, up to the cap, and leaves the others pending. */
  lemma GoodPollHandsOverTheOldest(bots: set<string>, w: World)
    requires ClockSound(w) && DistinctTimes(w.comments) && w.pc.Idle?
    ensures var w', pending := GoodPoll(bots, w), PendingIn(bots, w);
      && w'.pc.Idle? && w'.now == w.now && w'.comments == w.comments && ClockSound(w')
      && w'.slipped == w.slipped && w'.missed == w.missed + w'.skipped && w'.skipped == {}
      && w'.batches == w.batches + (if pending == [] then [] else [FirstOf(pending)])
      && PendingIn(bots, w') == Behead(pending, MAX_COMMENTS)
  {
    var pending := PendingIn(bots, w);
    PendingMembers(w.comments, bots, w.cursor);
    if pending == [] {
      PendingMembers(w.comments, bots, Some(w.now));
      BothOrNeitherEmpty(PendingIn(bots, GoodPoll(bots, w)), []);
    } else {
      var end := NextPolledAt(FirstOf(pending), 0);
      PendingIsStrict(w.comments, bots, w.cursor);
      NothingCutOff(pending);
      assert FirstOf(pending)[|FirstOf(pending)| - 1] in pending;
      BatchLeavesTheRest(w.comments, bots, w.cursor, end);
    }
  }

  /** Good polls with some quiet time after each. */
  function GoodPolls(bots: set<string>, w: World, pauses: seq<nat>): World
    requires w.pc.Idle?
    decreases |pauses|
  {
    if pauses == [] then w
    else GoodPolls(bots, Apply(bots, GoodPoll(bots, w), Tick(pauses[0])), pauses[1..])
  }

  /** The first k batches that a list of pending comments is cut into. */
  function Chunks(pending: seq<Comment>, k: nat): seq<seq<Comment>>
    decreases k
  {
    if k == 0 || pending == [] then []
    else [FirstOf(pending)] + Chunks(Behead(pending, MAX_COMMENTS), k - 1)
  }

  function Flatten(batches: seq<seq<Comment>>): seq<Comment> {
    if batches == [] then [] else batches[0] + Flatten(batches[1..])
  }

  /** Each comment once, oldest first, in as few batches as the cap allows. */
  lemma {:induction false} ChunksCoverInOrder(pending: seq<Comment>, k: nat)
    requires |pending| <= MAX_COMMENTS * k
    ensures Flatten(Chunks(pending, k)) == pending
    ensures |Chunks(pending, k)| == (|pending| + MAX_COMMENTS - 1) / MAX_COMMENTS
    ensures forall i :: 0 <= i < |Chunks(pending, k)| ==> 0 < |Chunks(pending, k)[i]| <= MAX_COMMENTS
    decreases k
  {
    if pending != [] {
      var first, rest := FirstOf(pending), Behead(pending, MAX_COMMENTS);
      ChunksCoverInOrder(rest, k - 1);
      assert ([first] + Chunks(rest, k - 1))[1..] == Chunks(rest, k - 1);
      assert first + rest == pending;
    }
  }

  lemma BeheadTwice(pending: seq<Comment>, left: seq<Comment>, k: nat)
    requires k > 0 && left == Behead(Behead(pending, MAX_COMMENTS), MAX_COMMENTS * (k - 1))
    ensures left == Behead(pending, MAX_COMMENTS * k)
  {
  }

  /** Between `w` and `w'` k polls handed over the first k chunks of what was pending, and nothing else. */
  ghost predicate Drained(bots: set<string>, w: World, w': World, k: nat) {
    && Reaches(bots, w, w')
    && w'.batches == w.batches + Chunks(PendingIn(bots, w), k)
    && PendingIn(bots, w') == Behead(PendingIn(bots, w), MAX_COMMENTS * k)
    && w'.slipped == w.slipped
    && w'.missed == w.missed
  }

  /**
   * From every idle state, k good polls hand over exactly the first k chunks of what is
   * pending and leave the rest: n comments drain in n / 20 polls, rounded up, oldest first.
   */
  lemma {:induction false} Drains(bots: set<string>, w: World, pauses: seq<nat>)
    requires ClockSound(w) && DistinctTimes(w.comments) && w.pc.Idle?
    ensures Drained(bots, w, GoodPolls(bots, w, pauses), |pauses|)
    decreases |pauses|
  {
    if pauses == [] {
      DrainedByNone(bots, w);
    } else {
      var next := OnePollAndPause(bots, w, pauses[0]);
      Drains(bots, next, pauses[1..]);
      DrainedByAllPolls(bots, w, next, pauses);
    }
  }

  lemma DrainedByAllPolls(bots: set<string>, w: World, next: World, pauses: seq<nat>)
    requires w.pc.Idle? && next.pc.Idle? && pauses != []
    requires next == Apply(bots, GoodPoll(bots, w), Tick(pauses[0])) && Reaches(bots, w, next)
    requires next.slipped == w.slipped && next.missed == w.missed
    requires next.batches == w.batches + (if PendingIn(bots, w) == [] then [] else [FirstOf(PendingIn(bots, w))])
    requires PendingIn(bots, next) == Behead(PendingIn(bots, w), MAX_COMMENTS)
    requires Drained(bots, next, GoodPolls(bots, next, pauses[1..]), |pauses| - 1)
    ensures Drained(bots, w, GoodPolls(bots, w, pauses), |pauses|)
  {
    GoodPollsFirst(bots, w, next, pauses);
    DrainedByOneMore(bots, w, next, GoodPolls(bots, w, pauses), |pauses|);
  }

  lemma GoodPollsFirst(bots: set<string>, w: World, next: World, pauses: seq<nat>)
    requires w.pc.Idle? && next.pc.Idle? && pauses != []
    requires next == Apply(bots, GoodPoll(bots, w), Tick(pauses[0]))
    ensures GoodPolls(bots, w, pauses) == GoodPolls(bots, next, pauses[1..])
  {
  }

  lemma DrainedByNone(bots: set<string>, w: World)
    ensures Drained(bots, w, w, 0)
  {
    ReachesItself(bots, w);
    assert Chunks(PendingIn(bots, w), 0) == [];
  }

  lemma DrainedByOneMore(bots: set<string>, w: World, next: World, last: World, k: nat)
    requires k > 0 && Reaches(bots, w, next) && Drained(bots, next, last, k - 1)
    requires next.slipped == w.slipped && next.missed == w.missed
    requires next.batches == w.batches + (if PendingIn(bots, w) == [] then [] else [FirstOf(PendingIn(bots, w))])
    requires PendingIn(bots, next) == Behead(PendingIn(bots, w), MAX_COMMENTS)
    ensures Drained(bots, w, last, k)
  {
    ReachesTransitive(bots, w, next, last);
    DrainedFurther(PendingIn(bots, w), PendingIn(bots, last), k, w.batches, next.batches, last.batches);
  }

  /** One chunk and the k - 1 that follow are the first k chunks. */
  lemma DrainedFurther(
    pending: seq<Comment>, left: seq<Comment>, k: nat,
    before: seq<seq<Comment>>, between: seq<seq<Comment>>, after: seq<seq<Comment>>)
    requires k > 0 && left == Behead(Behead(pending, MAX_COMMENTS), MAX_COMMENTS * (k - 1))
    requires between == before + (if pending == [] then [] else [FirstOf(pending)])
    requires after == between + Chunks(Behead(pending, MAX_COMMENTS), k - 1)
    ensures left == Behead(pending, MAX_COMMENTS * k)
    ensures after == before + Chunks(pending, k)
  {
    BeheadTwice(pending, left, k);
  }

  lemma OnePollAndPause(bots: set<string>, w: World, ms: nat) returns (next: World)
    requires ClockSound(w) && DistinctTimes(w.comments) && w.pc.Idle?
    ensures next == Apply(bots, GoodPoll(bots, w), Tick(ms)) && Reaches(bots, w, next)
    ensures ClockSound(next) && DistinctTimes(next.comments) && next.pc.Idle?
    ensures next.slipped == w.slipped && next.missed == w.missed
    ensures next.batches == w.batches + (if PendingIn(bots, w) == [] then [] else [FirstOf(PendingIn(bots, w))])
    ensures PendingIn(bots, next) == Behead(PendingIn(bots, w), MAX_COMMENTS)
  {
    GoodPollHandsOverTheOldest(bots, w);
    GoodPollIsARun(bots, w);
    next := Extend(bots, w, GoodPoll(bots, w), Tick(ms));
  }

  lemma ReachesTransitive(bots: set<string>, a: World, b: World, c: World)
    requires Reaches(bots, a, b) && Reaches(bots, b, c)
    ensures Reaches(bots, a, c)
  {
    var second :| IsRun(bots, b, second) && After(bots, b, second) == c;
    ReachesFurther(bots, a, b, second);
  }

  // ---- What is not kept ----

  /** A poll that enqueues its one comment and has not moved the cursor yet. */
  lemma OneBatch(w: World, c: Comment) returns (w': World)
    requires w.pc.Idle? && w.comments == [c] && w.cursor.None? && Reaches({}, Initial(0), w)
    ensures Reaches({}, Initial(0), w') && w'.pc == AtAdvance(c.at, [c])
    ensures w'.comments == [c] && w'.cursor.None? && w'.missed == w.missed && w'.slipped == w.slipped
    ensures w'.batches == w.batches + [[c]] && w'.skipped == {}
  {
    assert CutOff([c]) == {};
    assert Filter([c], {}, None) == [c];
    assert SortByTime([c]) == [c];
    w' := Extend({}, Initial(0), w, Open);
    w' := Extend({}, Initial(0), w', Fetch(true));
    w' := Extend({}, Initial(0), w', InsertTask(Works));
    w' := Extend({}, Initial(0), w', Enqueue(Accepted));
  }

  /** A failed cursor update after an enqueue hands the same batch over again. */
  lemma ASlipRepeatsTheBatch() returns (w: World, c: Comment)
    ensures Reachable({}, w) && c in w.comments && c !in w.missed
    ensures w.slipped == [[c]] && Times(c, w.batches) == 2
  {
    c := Comment(1, 0, "u");
    ReachesItself({}, Initial(0));
    w := Extend({}, Initial(0), Initial(0), Post(c));
    w := OneBatch(w, c);
    w := Extend({}, Initial(0), w, Advance(Lost));
    w := OneBatch(w, c);
    TimesAppend(c, [], [c]);
    TimesAppend(c, [[c]], [c]);
    assert [] + [[c]] == [[c]] && [[c]] + [[c]] == w.batches;
  }

  /**
   * So does an enqueue that throws after its insert, if the cancellation fails too: two live
   * tasks have the comment as their goal, although the cursor was moved with the second.
   */
  lemma AThrownEnqueueRepeatsTheBatch() returns (w: World, c: Comment, first: nat, second: nat)
    ensures Reachable({}, w) && w.pc.Idle? && w.comments == [c] && c !in w.missed && Behind(w.cursor, c)
    ensures first != second && IsLive(w, first) && IsLive(w, second)
    ensures w.tasks[first].goal == [c] == w.tasks[second].goal
    ensures w.slipped == [[c]] && Times(c, w.batches) == 2
  {
    c := Comment(1, 0, "u");
    w := ThrownEnqueue(c);
    w := OneBatch(w, c);
    w := Extend({}, Initial(0), w, Advance(Works));
    assert [[c]] + [[c]] == [[c], [c]];
    first, second := TwoRunners(w, c);
  }

  /** The first poll of the one comment has inserted its task. */
  lemma TaskInserted(c: Comment) returns (w: World)
    requires c.at <= 0
    ensures Reaches({}, Initial(0), w) && w.pc == AtEnqueue([c], 0)
    ensures w == Initial(0).(
      comments := [c], tasks := map[0 := Task(Queued, [c])], nextTask := 1, pc := w.pc, lastStart := Some(0))
  {
    assert Filter([c], {}, None) == [c];
    assert SortByTime([c]) == [c];
    assert CutOff([c]) == {};
    ReachesItself({}, Initial(0));
    w := Extend({}, Initial(0), Initial(0), Post(c));
    assert w.comments == [c];
    w := Extend({}, Initial(0), w, Open);
    w := Extend({}, Initial(0), w, Fetch(true));
    w := Extend({}, Initial(0), w, InsertTask(Works));
  }

  lemma ThrownEnqueue(c: Comment) returns (w: World)
    requires c.at <= 0
    ensures Reaches({}, Initial(0), w) && w.pc.Idle? && w.comments == [c] && w.cursor.None? && w.missed == {}
    ensures w.batches == [[c]] && w.slipped == [[c]]
  {
    w := TaskInserted(c);
    w := Extend({}, Initial(0), w, Enqueue(RejectedAfterInsert));
    w := Extend({}, Initial(0), w, Cancel(Lost));
    assert w.batches == [[c]] && w.slipped == [[c]];
  }

  lemma TwoRunners(w: World, c: Comment) returns (first: nat, second: nat)
    requires Reachable({}, w) && w.batches == [[c], [c]]
    ensures first != second && IsLive(w, first) && IsLive(w, second)
    ensures w.tasks[first].goal == [c] == w.tasks[second].goal
    ensures Times(c, w.batches) == 2
  {
    HandoversAreTheLiveTasks({}, w);
    first, second := w.runners[0], w.runners[1];
    assert first in w.runners && second in w.runners;
    TimesAppend(c, [], [c]);
    TimesAppend(c, [[c]], [c]);
    assert [] + [[c]] == [[c]] && [[c]] + [[c]] == w.batches;
  }

  /**
   * A comment that shows up with a time no later than the start of an earlier, empty poll (the
   * provider's clock counts whole seconds) is passed by for good.
   */
  lemma ATruncatedTimeIsMissed() returns (w: World, c: Comment)
    ensures Reachable({}, w) && c in w.comments && w.now - c.at < 1000
    ensures forall w' :: Reaches({}, w, w') ==> Times(c, w'.batches) == 0
  {
    c := Comment(1, 0, "u");
    assert Pending([], {}, None) == [];
    ReachesItself({}, Initial(300));
    w := Extend({}, Initial(300), Initial(300), Open);
    w := Extend({}, Initial(300), w, Fetch(true));
    w := Extend({}, Initial(300), w, Advance(Works));
    w := Extend({}, Initial(300), w, Tick(400));
    var before := w;
    w := Extend({}, Initial(300), w, Post(c));
    forall w' | Reaches({}, w, w') ensures Times(c, w'.batches) == 0 {
      TooLateIsNeverHandedOver({}, before, w', c);
    }
  }

  /** A crash between the insert and the enqueue leaves a queued task without a job. */
  lemma ACrashStrandsATask() returns (w: World, task: nat)
    ensures Reachable({}, w) && w.pc.Idle?
    ensures task in w.tasks && w.tasks[task].status == Queued && task !in w.jobs
  {
    w := TaskInserted(Comment(1, 0, "u"));
    task := w.pc.task;
    w := Extend({}, Initial(0), w, Crash);
  }

  lemma {:induction false} StrandedStays(bots: set<string>, w: World, steps: seq<Step>, stranded: set<nat>, task: nat)
    requires TasksSound(w, stranded) && ResultFits(w.pc) && IsRun(bots, w, steps) && task in stranded
    ensures var w' := After(bots, w, steps); task in w'.tasks && w'.tasks[task].status == Queued && task !in w'.jobs
    decreases |steps|
  {
    RunKeepsTasks(bots, w, steps, stranded);
    assert TaskSound(After(bots, w, steps), stranded + Stranded(bots, w, steps), task);
  }
}
