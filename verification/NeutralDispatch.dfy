/**
 * Neutral task dispatch inside the Slack dedupe claim (apps/api/src/neutral-dispatch.ts,
 * apps/api/src/slack-events.ts) over the stores it writes: the claim rows
 * (packages/feishu-adapter/src/dedup.ts), the task rows
 * (packages/orchestrator/src/orchestrator.ts, task-state-machine.ts) and the job queue
 * (packages/queue/src/task-queue.ts).
 *
 * A World is the stores plus every delivery under way. Each step is one call of one
 * delivery to a store, with its outcome; deliveries interleave freely, may crash between
 * any two steps, and workers, users and the clock move in between.
 */
module NeutralDispatch {
  import opened Wrappers
  import opened TaskKeys

  // ---- Messages, tasks and claims ----

  datatype Message = Message(
    kind: string,
    installationId: string,
    scopeId: string,
    dedupeKey: string,
    messageId: string,
    senderId: string,
    locale: string,
    goal: string,
    mentions: seq<string>,
    isOpsCommand: bool)

  /** The pre-image of the task id; the hash that turns it into a UUID is taken as injective. */
  function TaskKey(m: Message): string {
    Join(["neutral-task", m.kind, m.installationId, m.scopeId, m.dedupeKey])
  }

  datatype Status =
    | PENDING
    | QUEUED
    | RUNNING
    | WAITING_APPROVAL
    | WAITING_DELEGATION
    | COMPLETED
    | FAILED
    | CANCELLED

  predicate CanTransition(from: Status, to: Status) {
    match from
    case PENDING => to in {QUEUED, FAILED, CANCELLED}
    case QUEUED => to in {RUNNING, FAILED, CANCELLED}
    case RUNNING => to in {WAITING_APPROVAL, WAITING_DELEGATION, COMPLETED, FAILED, CANCELLED}
    case WAITING_APPROVAL => to in {COMPLETED, FAILED, CANCELLED}
    case WAITING_DELEGATION => to in {QUEUED, FAILED, CANCELLED}
    case COMPLETED => false
    case FAILED => to == PENDING
    case CANCELLED => false
  }

  predicate IsTerminal(status: Status) {
    status in {COMPLETED, FAILED, CANCELLED}
  }

  /** The columns that a redelivery must reproduce, or the task id is reported as conflicting. */
  datatype TaskValues = TaskValues(
    sessionId: string,
    goal: string,
    tenantKey: string,
    chatId: string,
    userMessageId: string,
    requesterId: string,
    replyLanguage: string)

  function ValuesOf(m: Message, sessionId: string): TaskValues {
    TaskValues(sessionId, m.goal, m.installationId, m.scopeId, m.messageId, m.senderId, m.locale)
  }

  datatype AckHandle = AckHandle(kind: string, scopeId: string, messageId: string)

  datatype Task = Task(values: TaskValues, status: Status, ack: Option<AckHandle>)

  datatype ClaimStatus = Received | Processed | Duplicate

  datatype Claim = Claim(status: ClaimStatus, createdAt: int)

  const STALE_CLAIM_TAKEOVER_MS := 5 * 60 * 1000

  datatype Post = Post(task: string, handle: Option<AckHandle>)

  datatype Job = Job(task: string, sessionId: string, ack: Option<AckHandle>)

  // ---- Deliveries ----

  /** Where a delivery stands: the next call it will make. */
  datatype Pc =
    | AtClaim
    | AtGate
    | AtSession
    | AtCreate(sessionId: string)
    | AtStatus(sessionId: string)
    | AtQueue(sessionId: string, created: bool)
    | AtAck(sessionId: string)
    | AtPersist(sessionId: string, handle: AckHandle)
    | AtLoad(sessionId: string)
    | AtEnqueue(sessionId: string, ack: Option<AckHandle>)
    | AtRelease
    | AtMark
    | Done(accepted: bool)

  datatype Delivery = Delivery(message: Message, pc: Pc)

  /** A store call succeeds, fails without effect, or has its effect and then fails. */
  datatype Outcome = Works | Lost | Torn

  datatype AckOutcome = Posted(messageId: string) | PostedWithoutId | PostedThenFailed | NotPosted

  /** One call of a delivery, with its outcome. */
  datatype Call =
    | CheckAndRecord(outcome: Outcome)
    | ResolveBot(bot: Option<Option<string>>)
    | ResolveSession(sessionId: Option<string>)
    | CreateTask(outcome: Outcome)
    | GetStatus(works: bool)
    | TransitionToQueued(outcome: Outcome)
    | SendAck(ack: AckOutcome)
    | PersistAck(written: bool)
    | LoadAck(works: bool)
    | EnqueueJob(outcome: Outcome)
    | ReleaseClaim(written: bool)
    | MarkProcessed(written: bool)

  datatype Step =
    | Deliver(d: nat, message: Message)
    | Own(d: nat, call: Call)
    | Crash(d: nat)
    // workers, users and time
    | Tick(ms: nat)
    | Work(task: string, status: Status)
    | Retire(task: string)

  /**
   * `live` are the tasks with a job that still runs or will run; `jobs` are all jobs ever
   * inserted and `posts` all ACK messages ever posted. `ignored`, `answered` and
   * `terminated` record what happened: messages a delivery found not addressed to the bot,
   * ops commands answered without a task, tasks that reached a terminal status; `delivered` are
   * all messages that ever came in.
   */
  datatype World = World(
    now: int,
    claims: map<string, Claim>,
    tasks: map<string, Task>,
    posts: seq<Post>,
    jobs: seq<Job>,
    live: set<string>,
    deliveries: map<nat, Delivery>,
    ignored: set<Message>,
    answered: set<Message>,
    terminated: set<string>,
    delivered: set<Message>)

  function Initial(now: int): World {
    World(now, map[], map[], [], [], {}, map[], {}, {}, {}, {})
  }

  /** Mention-only and off by default: without a configured bot user nothing is addressed. */
  predicate IsAddressed(m: Message, bot: Option<string>) {
    bot.Some? && bot.value != "" && bot.value in m.mentions
  }

  /** A redelivery may take the claim: no row, or a row left `received` for too long. */
  predicate Reclaimable(w: World, key: string) {
    key !in w.claims
    || (w.claims[key].status == Received && w.now - w.claims[key].createdAt > STALE_CLAIM_TAKEOVER_MS)
  }

  predicate Closed(w: World, key: string) {
    key in w.claims && w.claims[key].status != Received
  }

  /** A duplicate delivery leaves its trace on a processed row and nothing else. */
  function Recorded(w: World, key: string): World {
    if Reclaimable(w, key) then
      w.(claims := w.claims[key := Claim(Received, w.now)])
    else if w.claims[key].status == Processed then
      w.(claims := w.claims[key := w.claims[key].(status := Duplicate)])
    else
      w
  }

  function Enqueued(w: World, job: Job): World {
    if job.task in w.live then w
    else w.(jobs := w.jobs + [job], live := w.live + {job.task})
  }

  function Queued(w: World, task: string): World
    requires task in w.tasks
  {
    if CanTransition(w.tasks[task].status, QUEUED) then
      w.(tasks := w.tasks[task := w.tasks[task].(status := QUEUED)])
    else
      w
  }

  predicate At(w: World, d: nat, pc: Pc) {
    d in w.deliveries && w.deliveries[d].pc == pc
  }

  /** A delivery of `m` standing at `pc` can make this call. */
  predicate Fits(w: World, m: Message, pc: Pc, call: Call) {
    match call
    case CheckAndRecord(_) => pc.AtClaim?
    case ResolveBot(_) => pc.AtGate?
    case ResolveSession(_) => pc.AtSession?
    case CreateTask(_) => pc.AtCreate?
    case GetStatus(_) => pc.AtStatus? && TaskKey(m) in w.tasks
    case TransitionToQueued(_) => pc.AtQueue? && TaskKey(m) in w.tasks
    case SendAck(ack) => pc.AtAck? && TaskKey(m) in w.tasks && (ack.Posted? ==> ack.messageId != "")
    case PersistAck(_) => pc.AtPersist? && TaskKey(m) in w.tasks
    case LoadAck(_) => pc.AtLoad? && TaskKey(m) in w.tasks
    case EnqueueJob(_) => pc.AtEnqueue? && TaskKey(m) in w.tasks
    case ReleaseClaim(_) => pc.AtRelease?
    case MarkProcessed(_) => pc.AtMark?
  }

  predicate Enabled(w: World, step: Step) {
    match step
    case Tick(_) => true
    case Work(task, status) => task in w.tasks && CanTransition(w.tasks[task].status, status)
    case Retire(task) => task in w.live
    case Deliver(d, _) => d !in w.deliveries
    case Crash(d) => d in w.deliveries && !w.deliveries[d].pc.Done?
    case Own(d, call) =>
      d in w.deliveries && Fits(w, w.deliveries[d].message, w.deliveries[d].pc, call)
  }

  predicate CreateRefused(w: World, m: Message, sessionId: string) {
    TaskKey(m) in w.tasks && w.tasks[TaskKey(m)].values != ValuesOf(m, sessionId)
  }

  /** What a call does to the stores. */
  function Effect(w: World, m: Message, pc: Pc, call: Call): (w': World)
    requires Fits(w, m, pc, call)
  {
    var task := TaskKey(m);
    match call
    case CheckAndRecord(outcome) =>
      if outcome == Lost then w else Recorded(w, m.dedupeKey)
    case ResolveBot(bot) =>
      if bot.Some? && !IsAddressed(m, bot.value) then w.(ignored := w.ignored + {m}) else w
    case ResolveSession(_) => w
    case CreateTask(outcome) =>
      if outcome == Lost then w
      else if m.isOpsCommand then if outcome == Works then w.(answered := w.answered + {m}) else w
      else if task in w.tasks then w
      else w.(tasks := w.tasks[task := Task(ValuesOf(m, pc.sessionId), PENDING, None)])
    case GetStatus(_) => w
    case TransitionToQueued(outcome) =>
      if outcome == Lost then w else Queued(w, task)
    case SendAck(ack) =>
      if ack.NotPosted? then w else w.(posts := w.posts + [Post(task, HandleMade(m, ack))])
    case PersistAck(written) =>
      if written then w.(tasks := w.tasks[task := w.tasks[task].(ack := Some(pc.handle))]) else w
    case LoadAck(_) => w
    case EnqueueJob(outcome) =>
      if outcome == Lost then w else Enqueued(w, Job(task, pc.sessionId, pc.ack))
    case ReleaseClaim(written) =>
      if written then w.(claims := w.claims - {m.dedupeKey}) else w
    case MarkProcessed(written) =>
      if written && m.dedupeKey in w.claims
      then w.(claims := w.claims[m.dedupeKey := w.claims[m.dedupeKey].(status := Processed)])
      else w
  }

  /** Without a message id, or after a failure, there is no handle. */
  function HandleMade(m: Message, ack: AckOutcome): Option<AckHandle> {
    if ack.Posted? then Some(AckHandle(m.kind, m.scopeId, ack.messageId)) else None
  }

  /** Where the delivery goes next; a failure inside the dispatch leads to the release of its claim. */
  function Next(w: World, m: Message, pc: Pc, call: Call): Pc
    requires Fits(w, m, pc, call)
  {
    var task := TaskKey(m);
    match call
    case CheckAndRecord(outcome) =>
      if outcome != Works then Done(false)
      else if Reclaimable(w, m.dedupeKey) then AtGate
      else Done(true)
    case ResolveBot(bot) =>
      if bot.None? then Done(false)
      else if IsAddressed(m, bot.value) then AtSession
      else AtMark
    case ResolveSession(sessionId) =>
      if sessionId.Some? then AtCreate(sessionId.value) else AtRelease
    case CreateTask(outcome) =>
      if outcome != Works then AtRelease
      else if m.isOpsCommand then AtMark
      else if task !in w.tasks then AtQueue(pc.sessionId, true)
      else if CreateRefused(w, m, pc.sessionId) then AtRelease
      else AtStatus(pc.sessionId)
    case GetStatus(works) =>
      if !works then AtRelease
      else if IsTerminal(w.tasks[task].status) then AtMark
      else AtQueue(pc.sessionId, false)
    case TransitionToQueued(outcome) =>
      if outcome != Works then AtRelease
      else if pc.created then AtAck(pc.sessionId)
      else AtLoad(pc.sessionId)
    case SendAck(ack) =>
      if ack.Posted? then AtPersist(pc.sessionId, HandleMade(m, ack).value)
      else AtEnqueue(pc.sessionId, None)
    case PersistAck(_) => AtEnqueue(pc.sessionId, Some(pc.handle))
    case LoadAck(works) =>
      if works then AtEnqueue(pc.sessionId, w.tasks[task].ack) else AtRelease
    case EnqueueJob(outcome) =>
      if outcome == Works then AtMark else AtRelease
    case ReleaseClaim(_) => Done(false)
    case MarkProcessed(_) => Done(true)
  }

  function Goto(w: World, d: nat, pc: Pc): World
    requires d in w.deliveries
  {
    w.(deliveries := w.deliveries[d := w.deliveries[d].(pc := pc)])
  }

  function Apply(w: World, step: Step): World
    requires Enabled(w, step)
  {
    match step
    case Tick(ms) => w.(now := w.now + ms)
    case Work(task, status) =>
      w.(tasks := w.tasks[task := w.tasks[task].(status := status)],
         terminated := if IsTerminal(status) then w.terminated + {task} else w.terminated)
    case Retire(task) => w.(live := w.live - {task})
    case Deliver(d, m) => w.(deliveries := w.deliveries[d := Delivery(m, AtClaim)], delivered := w.delivered + {m})
    case Crash(d) => w.(deliveries := w.deliveries - {d})
    case Own(d, call) =>
      var m, pc := w.deliveries[d].message, w.deliveries[d].pc;
      Effect(w, m, pc, call).(deliveries :=
        w.deliveries[d := Delivery(m, Next(w, m, pc, call))])
  }

  // ---- Runs ----

  predicate IsRun(w: World, steps: seq<Step>)
    decreases |steps|
  {
    steps == [] || (Enabled(w, steps[0]) && IsRun(Apply(w, steps[0]), steps[1..]))
  }

  function After(w: World, steps: seq<Step>): World
    requires IsRun(w, steps)
    decreases |steps|
  {
    if steps == [] then w else After(Apply(w, steps[0]), steps[1..])
  }

  ghost predicate Reaches(w: World, w': World) {
    exists steps :: IsRun(w, steps) && After(w, steps) == w'
  }

  ghost predicate Reachable(w: World) {
    exists now :: Reaches(Initial(now), w)
  }

  lemma {:induction false} RunConcat(w: World, first: seq<Step>, second: seq<Step>)
    requires IsRun(w, first) && IsRun(After(w, first), second)
    ensures IsRun(w, first + second)
    ensures After(w, first + second) == After(After(w, first), second)
    decreases |first|
  {
    if first == [] {
      assert first + second == second;
    } else {
      RunConcat(Apply(w, first[0]), first[1..], second);
      assert (first + second)[1..] == first[1..] + second;
    }
  }

  lemma ReachesTransitive(a: World, b: World, c: World)
    requires Reaches(a, b) && Reaches(b, c)
    ensures Reaches(a, c)
  {
    var first :| IsRun(a, first) && After(a, first) == b;
    var second :| IsRun(b, second) && After(b, second) == c;
    RunConcat(a, first, second);
  }

  lemma ReachesByStep(w: World, step: Step)
    requires Enabled(w, step)
    ensures Reaches(w, Apply(w, step))
  {
    assert IsRun(Apply(w, step), [step][1..]);
    assert After(w, [step]) == Apply(w, step);
  }

  lemma ReachesItself(w: World)
    ensures Reaches(w, w)
  {
    assert IsRun(w, []) && After(w, []) == w;
  }

  // ---- Invariant ----

  ghost predicate HasJob(w: World, task: string) {
    exists i :: 0 <= i < |w.jobs| && w.jobs[i].task == task
  }

  /** What a closed claim stands for. */
  ghost predicate Settled(w: World, m: Message) {
    || m in w.ignored
    || m in w.answered
    || HasJob(w, TaskKey(m))
    || TaskKey(m) in w.terminated
  }

  ghost predicate HasPost(w: World, task: string, handle: Option<AckHandle>) {
    exists i :: 0 <= i < |w.posts| && w.posts[i] == Post(task, handle)
  }

  /** Between inserting a task and posting its ACK. */
  predicate IsCreator(pc: Pc) {
    pc.AtAck? || (pc.AtQueue? && pc.created)
  }

  /** Locations inside the dispatch that are reached only with a task row. */
  predicate HoldsTask(pc: Pc) {
    pc.AtStatus? || pc.AtQueue? || pc.AtAck? || pc.AtPersist? || pc.AtLoad? || pc.AtEnqueue?
  }

  function HandleOf(pc: Pc): Option<AckHandle> {
    match pc
    case AtPersist(_, handle) => Some(handle)
    case AtEnqueue(_, ack) => ack
    case _ => None
  }

  ghost predicate SettledBySome(w: World, key: string) {
    exists m :: m in w.delivered && m.dedupeKey == key && Settled(w, m)
  }

  ghost predicate ClaimsSettled(w: World) {
    forall key :: Closed(w, key) ==> SettledBySome(w, key)
  }

  ghost predicate NoPost(w: World, task: string) {
    forall i :: 0 <= i < |w.posts| ==> w.posts[i].task != task
  }

  ghost predicate DeliverySound(w: World, m: Message, pc: Pc) {
    && m in w.delivered
    && (pc.AtMark? ==> Settled(w, m))
    && (HoldsTask(pc) ==> TaskKey(m) in w.tasks)
    && (IsCreator(pc) ==> NoPost(w, TaskKey(m)))
    && (HandleOf(pc).Some? ==> HasPost(w, TaskKey(m), HandleOf(pc)))
  }

  ghost predicate DeliveriesSound(w: World) {
    forall d :: d in w.deliveries ==> DeliverySound(w, w.deliveries[d].message, w.deliveries[d].pc)
  }

  /** Delivery `d` is between inserting the row of `task` and posting its ACK. */
  predicate Creates(w: World, d: nat, task: string) {
    d in w.deliveries && IsCreator(w.deliveries[d].pc) && TaskKey(w.deliveries[d].message) == task
  }

  ghost predicate OneCreatorPerTask(w: World) {
    forall d, e, task :: Creates(w, d, task) && Creates(w, e, task) ==> d == e
  }

  ghost predicate TasksSound(w: World) {
    forall task :: task in w.tasks ==>
      && (IsTerminal(w.tasks[task].status) ==> task in w.terminated)
      && (w.tasks[task].ack.Some? ==> HasPost(w, task, w.tasks[task].ack))
  }

  ghost predicate PostsSound(w: World) {
    && (forall i :: 0 <= i < |w.posts| ==> w.posts[i].task in w.tasks)
    && (forall i, j :: 0 <= i < j < |w.posts| ==> w.posts[i].task != w.posts[j].task)
  }

  ghost predicate JobsSound(w: World) {
    forall i :: 0 <= i < |w.jobs| && w.jobs[i].ack.Some? ==> HasPost(w, w.jobs[i].task, w.jobs[i].ack)
  }

  ghost predicate LiveHaveJobs(w: World) {
    forall task :: task in w.live ==> HasJob(w, task)
  }

  ghost predicate Inv(w: World) {
    && ClaimsSettled(w)
    && DeliveriesSound(w)
    && OneCreatorPerTask(w)
    && TasksSound(w)
    && PostsSound(w)
    && JobsSound(w)
    && LiveHaveJobs(w)
  }

  /** Nothing that happened is undone: rows of tasks, posts, jobs and the records only grow. */
  predicate Grows(w: World, w': World) {
    && w.ignored <= w'.ignored
    && w.answered <= w'.answered
    && w.terminated <= w'.terminated
    && w.posts <= w'.posts
    && w.jobs <= w'.jobs
    && w.tasks.Keys <= w'.tasks.Keys
    && w.delivered <= w'.delivered
  }

  lemma EffectGrows(w: World, m: Message, pc: Pc, call: Call)
    requires Fits(w, m, pc, call)
    ensures Grows(w, Effect(w, m, pc, call))
    ensures Effect(w, m, pc, call).deliveries == w.deliveries
    ensures Effect(w, m, pc, call).now == w.now
  {
  }

  lemma StepGrows(w: World, step: Step)
    requires Enabled(w, step)
    ensures Grows(w, Apply(w, step))
  {
    if step.Own? {
      EffectGrows(w, w.deliveries[step.d].message, w.deliveries[step.d].pc, step.call);
    }
  }

  lemma SettledStays(w: World, w': World, m: Message)
    requires Grows(w, w') && Settled(w, m)
    ensures Settled(w', m)
  {
    if HasJob(w, TaskKey(m)) {
      var i :| 0 <= i < |w.jobs| && w.jobs[i].task == TaskKey(m);
      assert w'.jobs[i] == w.jobs[i];
    }
  }

  lemma PostStays(w: World, w': World, task: string, handle: Option<AckHandle>)
    requires Grows(w, w') && HasPost(w, task, handle)
    ensures HasPost(w', task, handle)
  {
    var i :| 0 <= i < |w.posts| && w.posts[i] == Post(task, handle);
    assert w'.posts[i] == w.posts[i];
  }

  lemma StepKeepsClaims(w: World, step: Step)
    requires Inv(w) && Enabled(w, step)
    ensures ClaimsSettled(Apply(w, step))
  {
    var w' := Apply(w, step);
    StepGrows(w, step);
    forall key | Closed(w', key) ensures SettledBySome(w', key) {
      if Closed(w, key) {
        var m :| m in w.delivered && m.dedupeKey == key && Settled(w, m);
        SettledStays(w, w', m);
      } else {
        assert step.Own? && step.call.MarkProcessed?;
        var m := w.deliveries[step.d].message;
        assert DeliverySound(w, m, AtMark);
        SettledStays(w, w', m);
      }
    }
  }

  /** A live task has a job; so after an enqueue there is one either way. */
  lemma EnqueuedHasJob(w: World, job: Job)
    requires LiveHaveJobs(w)
    ensures HasJob(Enqueued(w, job), job.task) && LiveHaveJobs(Enqueued(w, job))
  {
    var w' := Enqueued(w, job);
    if job.task !in w.live {
      assert w'.jobs[|w.jobs|] == job;
      forall task | task in w.live ensures HasJob(w', task) {
        var i :| 0 <= i < |w.jobs| && w.jobs[i].task == task;
        assert w'.jobs[i] == w.jobs[i];
      }
    }
  }

  /** The delivery that calls keeps its promises. */
  lemma CallerSound(w: World, m: Message, pc: Pc, call: Call)
    requires TasksSound(w) && PostsSound(w) && LiveHaveJobs(w)
    requires DeliverySound(w, m, pc) && Fits(w, m, pc, call)
    ensures DeliverySound(Effect(w, m, pc, call), m, Next(w, m, pc, call))
  {
    var w' := Effect(w, m, pc, call);
    EffectGrows(w, m, pc, call);
    if call.SendAck? && call.ack.Posted? {
      assert w'.posts[|w.posts|] == Post(TaskKey(m), HandleMade(m, call.ack));
    } else if call.EnqueueJob? && call.outcome == Works {
      EnqueuedHasJob(w, Job(TaskKey(m), pc.sessionId, pc.ack));
    } else if call.PersistAck? {
      PostStays(w, w', TaskKey(m), HandleOf(pc));
    }
  }

  /** Soundness of a delivery does not depend on where the others stand. */
  lemma SoundIgnoresDeliveries(w: World, deliveries: map<nat, Delivery>, m: Message, pc: Pc)
    requires DeliverySound(w, m, pc)
    ensures DeliverySound(w.(deliveries := deliveries), m, pc)
  {
    var w' := w.(deliveries := deliveries);
    assert Settled(w, m) ==> Settled(w', m) by {
      if Settled(w, m) { SettledStays(w, w', m); }
    }
    if HandleOf(pc).Some? { PostStays(w, w', TaskKey(m), HandleOf(pc)); }
  }

  lemma OtherDeliverySound(w: World, step: Step, e: nat)
    requires DeliveriesSound(w) && OneCreatorPerTask(w) && Enabled(w, step)
    requires e in w.deliveries && (step.Own? ==> step.d != e)
    ensures DeliverySound(Apply(w, step), w.deliveries[e].message, w.deliveries[e].pc)
  {
    var w', m, pc := Apply(w, step), w.deliveries[e].message, w.deliveries[e].pc;
    StepGrows(w, step);
    assert DeliverySound(w, m, pc);
    if pc.AtMark? { SettledStays(w, w', m); }
    if HandleOf(pc).Some? { PostStays(w, w', TaskKey(m), HandleOf(pc)); }
    if IsCreator(pc) && step.Own? && step.call.SendAck? {
      assert Creates(w, e, TaskKey(m));
      assert Creates(w, step.d, TaskKey(w.deliveries[step.d].message));
    }
  }

  lemma StepKeepsDeliveries(w: World, step: Step)
    requires Inv(w) && Enabled(w, step)
    ensures DeliveriesSound(Apply(w, step))
  {
    var w' := Apply(w, step);
    forall e | e in w'.deliveries
      ensures DeliverySound(w', w'.deliveries[e].message, w'.deliveries[e].pc)
    {
      if step.Own? && step.d == e {
        var m, pc := w.deliveries[e].message, w.deliveries[e].pc;
        CallerSound(w, m, pc, step.call);
        SoundIgnoresDeliveries(Effect(w, m, pc, step.call), w'.deliveries, m, w'.deliveries[e].pc);
      } else if e in w.deliveries {
        OtherDeliverySound(w, step, e);
      }
    }
  }

  /** One becomes a creator only by inserting the row, which nobody else then holds. */
  lemma NewCreator(w: World, step: Step, d: nat, task: string)
    requires DeliveriesSound(w) && Enabled(w, step)
    requires Creates(Apply(w, step), d, task) && !Creates(w, d, task)
    ensures step.Own? && step.d == d
    ensures forall e :: !Creates(w, e, task)
  {
    assert step.Own? && step.d == d && step.call.CreateTask? && task !in w.tasks;
    forall e ensures Creates(w, e, task) ==> task in w.tasks {
      if e in w.deliveries {
        assert DeliverySound(w, w.deliveries[e].message, w.deliveries[e].pc);
      }
    }
  }

  lemma StepKeepsOneCreator(w: World, step: Step)
    requires Inv(w) && Enabled(w, step)
    ensures OneCreatorPerTask(Apply(w, step))
  {
    var w' := Apply(w, step);
    forall d, e, task | Creates(w', d, task) && Creates(w', e, task) ensures d == e {
      if !Creates(w, d, task) {
        NewCreator(w, step, d, task);
      }
      if !Creates(w, e, task) {
        NewCreator(w, step, e, task);
      }
    }
  }

  lemma EffectKeepsPosts(w: World, m: Message, pc: Pc, call: Call, task: string, handle: Option<AckHandle>)
    requires Fits(w, m, pc, call) && HasPost(w, task, handle)
    ensures HasPost(Effect(w, m, pc, call), task, handle)
  {
    EffectGrows(w, m, pc, call);
    PostStays(w, Effect(w, m, pc, call), task, handle);
  }

  lemma EffectKeepsTaskSound(w: World, m: Message, pc: Pc, call: Call, task: string)
    requires TasksSound(w) && DeliverySound(w, m, pc) && Fits(w, m, pc, call)
    requires task in Effect(w, m, pc, call).tasks
    ensures var w' := Effect(w, m, pc, call);
      && (IsTerminal(w'.tasks[task].status) ==> task in w'.terminated)
      && (w'.tasks[task].ack.Some? ==> HasPost(w', task, w'.tasks[task].ack))
  {
    var w' := Effect(w, m, pc, call);
    if w'.tasks[task].ack.Some? {
      assert HasPost(w, task, w'.tasks[task].ack);
      EffectKeepsPosts(w, m, pc, call, task, w'.tasks[task].ack);
    }
  }

  lemma EffectKeepsPostsSound(w: World, m: Message, pc: Pc, call: Call)
    requires PostsSound(w) && DeliverySound(w, m, pc) && Fits(w, m, pc, call)
    ensures PostsSound(Effect(w, m, pc, call))
  {
    EffectGrows(w, m, pc, call);
    if call.SendAck? {
      assert NoPost(w, TaskKey(m));
    } else {
      assert Effect(w, m, pc, call).posts == w.posts;
    }
  }

  lemma EffectKeepsJobs(w: World, m: Message, pc: Pc, call: Call)
    requires JobsSound(w) && LiveHaveJobs(w) && DeliverySound(w, m, pc) && Fits(w, m, pc, call)
    ensures JobsSound(Effect(w, m, pc, call)) && LiveHaveJobs(Effect(w, m, pc, call))
  {
    var w' := Effect(w, m, pc, call);
    forall task, handle | HasPost(w, task, handle) ensures HasPost(w', task, handle) {
      EffectKeepsPosts(w, m, pc, call, task, handle);
    }
    if call.EnqueueJob? && call.outcome != Lost {
      EnqueuedHasJob(w, Job(TaskKey(m), pc.sessionId, pc.ack));
    } else {
      assert w'.jobs == w.jobs && w'.live == w.live;
      assert forall task :: HasJob(w, task) ==> HasJob(w', task);
    }
  }

  lemma EffectKeepsStores(w: World, m: Message, pc: Pc, call: Call)
    requires TasksSound(w) && PostsSound(w) && JobsSound(w) && LiveHaveJobs(w)
    requires DeliverySound(w, m, pc) && Fits(w, m, pc, call)
    ensures TasksSound(Effect(w, m, pc, call)) && PostsSound(Effect(w, m, pc, call))
    ensures JobsSound(Effect(w, m, pc, call)) && LiveHaveJobs(Effect(w, m, pc, call))
  {
    forall task | task in Effect(w, m, pc, call).tasks
      ensures var w' := Effect(w, m, pc, call);
        && (IsTerminal(w'.tasks[task].status) ==> task in w'.terminated)
        && (w'.tasks[task].ack.Some? ==> HasPost(w', task, w'.tasks[task].ack))
    {
      EffectKeepsTaskSound(w, m, pc, call, task);
    }
    EffectKeepsPostsSound(w, m, pc, call);
    EffectKeepsJobs(w, m, pc, call);
  }

  lemma StepKeepsStores(w: World, step: Step)
    requires Inv(w) && Enabled(w, step)
    ensures TasksSound(Apply(w, step)) && PostsSound(Apply(w, step))
    ensures JobsSound(Apply(w, step)) && LiveHaveJobs(Apply(w, step))
  {
    var w' := Apply(w, step);
    var stores := w;
    if step.Own? {
      var m, pc := w.deliveries[step.d].message, w.deliveries[step.d].pc;
      assert DeliverySound(w, m, pc);
      EffectKeepsStores(w, m, pc, step.call);
      stores := Effect(w, m, pc, step.call);
    }
    assert w'.posts == stores.posts && w'.jobs == stores.jobs && w'.live <= stores.live;
    assert forall task, handle :: HasPost(stores, task, handle) ==> HasPost(w', task, handle);
    assert forall task :: HasJob(stores, task) ==> HasJob(w', task);
  }

  lemma StepKeepsInv(w: World, step: Step)
    requires Inv(w) && Enabled(w, step)
    ensures Inv(Apply(w, step))
  {
    StepKeepsClaims(w, step);
    StepKeepsDeliveries(w, step);
    StepKeepsOneCreator(w, step);
    StepKeepsStores(w, step);
  }

  lemma {:induction false} RunKeepsInv(w: World, steps: seq<Step>)
    requires Inv(w) && IsRun(w, steps)
    ensures Inv(After(w, steps)) && Grows(w, After(w, steps))
    decreases |steps|
  {
    if steps != [] {
      StepKeepsInv(w, steps[0]);
      StepGrows(w, steps[0]);
      RunKeepsInv(Apply(w, steps[0]), steps[1..]);
    }
  }

  lemma ReachableInv(w: World)
    requires Reachable(w)
    ensures Inv(w)
  {
    var now :| Reaches(Initial(now), w);
    var steps :| IsRun(Initial(now), steps) && After(Initial(now), steps) == w;
    RunKeepsInv(Initial(now), steps);
  }

  // ---- Safety over all runs ----

  lemma ClosedClaimIsSettled(w: World, key: string)
    requires Reachable(w) && Closed(w, key)
    ensures exists m :: m in w.delivered && m.dedupeKey == key && Settled(w, m)
  {
    ReachableInv(w);
    assert SettledBySome(w, key);
  }

  lemma AtMostOneAckPerTask(w: World)
    requires Reachable(w)
    ensures forall i, j :: 0 <= i < j < |w.posts| ==> w.posts[i].task != w.posts[j].task
    ensures forall k :: 0 <= k < |w.jobs| && w.jobs[k].ack.Some? ==>
      exists i :: 0 <= i < |w.posts| && w.posts[i] == Post(w.jobs[k].task, w.jobs[k].ack)
  {
    ReachableInv(w);
    forall k | 0 <= k < |w.jobs| && w.jobs[k].ack.Some?
      ensures exists i :: 0 <= i < |w.posts| && w.posts[i] == Post(w.jobs[k].task, w.jobs[k].ack)
    {
      assert HasPost(w, w.jobs[k].task, w.jobs[k].ack);
    }
  }

  /** First or recovery enqueue: the jobs of a task never name two different ACK messages. */
  lemma JobsOfATaskAgreeOnTheAck(w: World, i: nat, j: nat)
    requires Reachable(w) && i < |w.jobs| && j < |w.jobs| && w.jobs[i].task == w.jobs[j].task
    ensures w.jobs[i].ack.Some? && w.jobs[j].ack.Some? ==> w.jobs[i].ack == w.jobs[j].ack
  {
    AtMostOneAckPerTask(w);
    if w.jobs[i].ack.Some? && w.jobs[j].ack.Some? {
      var a :| 0 <= a < |w.posts| && w.posts[a] == Post(w.jobs[i].task, w.jobs[i].ack);
      var b :| 0 <= b < |w.posts| && w.posts[b] == Post(w.jobs[j].task, w.jobs[j].ack);
      assert a == b;
    }
  }

  predicate ColonFreeScope(m: Message) {
    ColonFree(m.kind) && ColonFree(m.installationId) && ColonFree(m.scopeId)
  }

  lemma TaskIdsAgreeExactlyPerScopeAndKey(m: Message, n: Message)
    requires ColonFreeScope(m) && ColonFreeScope(n)
    ensures TaskKey(m) == TaskKey(n) <==>
      && m.kind == n.kind
      && m.installationId == n.installationId
      && m.scopeId == n.scopeId
      && m.dedupeKey == n.dedupeKey
  {
    var p := ["neutral-task", m.kind, m.installationId, m.scopeId, m.dedupeKey];
    var q := ["neutral-task", n.kind, n.installationId, n.scopeId, n.dedupeKey];
    if TaskKey(m) == TaskKey(n) {
      JoinIsInjective(p, q);
      assert p[1] == q[1] && p[2] == q[2] && p[3] == q[3] && p[4] == q[4];
    }
  }

  /** Without colon-free scopes two conversations can share a task id. */
  lemma ColonsCanMergeTaskIds() returns (m: Message, n: Message)
    ensures m.scopeId != n.scopeId && TaskKey(m) == TaskKey(n)
  {
    m := Message("slack", "T", "C:1", "2", "", "", "", "", [], false);
    n := Message("slack", "T", "C", "1:2", "", "", "", "", [], false);
    assert Join(["C:1", "2"]) == "C:1:2" by {
      assert Join(["C:1", "2"][1..]) == "2";
    }
    assert Join(["C", "1:2"]) == "C:1:2" by {
      assert Join(["C", "1:2"][1..]) == "1:2";
    }
    assert ["neutral-task", "slack", "T", "C:1", "2"][1..][1..][1..] == ["C:1", "2"];
    assert ["neutral-task", "slack", "T", "C", "1:2"][1..][1..][1..] == ["C", "1:2"];
  }

  /** How far a task has come. */
  function Progress(status: Status): nat {
    match status
    case PENDING => 0
    case QUEUED => 1
    case RUNNING => 2
    case WAITING_APPROVAL => 3
    case WAITING_DELEGATION => 3
    case COMPLETED => 4
    case FAILED => 4
    case CANCELLED => 4
  }

  /** A step of the dispatch, as opposed to one of its surroundings. */
  predicate ByDispatch(step: Step) {
    step.Deliver? || step.Own? || step.Crash?
  }

  predicate QueuesTask(w: World, step: Step, task: string)
    requires Enabled(w, step)
  {
    && step.Own?
    && step.call.TransitionToQueued?
    && step.call.outcome != Lost
    && TaskKey(w.deliveries[step.d].message) == task
  }

  /**
   * A delivery never makes a task terminal, and it moves a status back exactly when its
   * transition to QUEUED meets a task that waits for a delegate.
   */
  lemma DispatchMovesStatus(w: World, step: Step, task: string)
    requires Enabled(w, step) && ByDispatch(step) && task in w.tasks
    ensures var before, after := w.tasks[task].status, Apply(w, step).tasks[task].status;
      && (after != before ==> after == QUEUED && CanTransition(before, QUEUED))
      && (IsTerminal(after) <==> IsTerminal(before))
      && (Progress(after) < Progress(before) <==>
            QueuesTask(w, step, task) && before == WAITING_DELEGATION)
      && Apply(w, step).tasks[task].values == w.tasks[task].values
  {
    StepGrows(w, step);
    assert CanTransition(w.tasks[task].status, QUEUED) <==>
      w.tasks[task].status in {PENDING, WAITING_DELEGATION};
  }

  // ---- Recovery ----

  /**
   * What a delivery meets when no call it depends on fails. The best-effort calls are still
   * free to fail: the ACK, the saving of its handle and the closing of the claim.
   */
  datatype Luck = Luck(
    bot: Option<string>,
    sessionId: string,
    ack: AckOutcome,
    saved: bool,
    closed: bool)

  predicate Lucky(luck: Luck) {
    luck.ack.Posted? ==> luck.ack.messageId != ""
  }

  function LuckyCall(pc: Pc, luck: Luck): Call
    requires !pc.Done?
  {
    match pc
    case AtClaim => CheckAndRecord(Works)
    case AtGate => ResolveBot(Some(luck.bot))
    case AtSession => ResolveSession(Some(luck.sessionId))
    case AtCreate(_) => CreateTask(Works)
    case AtStatus(_) => GetStatus(true)
    case AtQueue(_, _) => TransitionToQueued(Works)
    case AtAck(_) => SendAck(luck.ack)
    case AtPersist(_, _) => PersistAck(luck.saved)
    case AtLoad(_) => LoadAck(true)
    case AtEnqueue(_, _) => EnqueueJob(Works)
    case AtRelease => ReleaseClaim(true)
    case AtMark => MarkProcessed(luck.closed)
  }

  /** How many own steps a delivery is away from its end, at most. */
  function StepsLeft(pc: Pc): nat {
    match pc
    case AtClaim => 10
    case AtGate => 9
    case AtSession => 8
    case AtCreate(_) => 7
    case AtStatus(_) => 6
    case AtQueue(_, _) => 5
    case AtAck(_) => 4
    case AtPersist(_, _) => 3
    case AtLoad(_) => 3
    case AtEnqueue(_, _) => 2
    case AtRelease => 1
    case AtMark => 1
    case Done(_) => 0
  }

  /** A delivery that is nowhere without the row it works on. */
  predicate Alive(w: World, d: nat) {
    && d in w.deliveries
    && (HoldsTask(w.deliveries[d].pc) ==> TaskKey(w.deliveries[d].message) in w.tasks)
  }

  function LuckyStep(w: World, d: nat, luck: Luck): Step
    requires d in w.deliveries && !w.deliveries[d].pc.Done?
  {
    Own(d, LuckyCall(w.deliveries[d].pc, luck))
  }

  lemma LuckyCallAdvances(w: World, m: Message, pc: Pc, luck: Luck)
    requires Lucky(luck) && !pc.Done? && (HoldsTask(pc) ==> TaskKey(m) in w.tasks)
    ensures var call := LuckyCall(pc, luck);
      && Fits(w, m, pc, call)
      && StepsLeft(Next(w, m, pc, call)) < StepsLeft(pc)
      && (HoldsTask(Next(w, m, pc, call)) ==> TaskKey(m) in Effect(w, m, pc, call).tasks)
  {
  }

  /** A lucky call is possible and brings the delivery closer to its end. */
  lemma LuckyStepAdvances(w: World, d: nat, luck: Luck)
    requires Alive(w, d) && Lucky(luck) && !w.deliveries[d].pc.Done?
    ensures Enabled(w, LuckyStep(w, d, luck))
    ensures var w' := Apply(w, LuckyStep(w, d, luck));
      && Alive(w', d)
      && StepsLeft(w'.deliveries[d].pc) < StepsLeft(w.deliveries[d].pc)
      && w'.deliveries[d].message == w.deliveries[d].message
      && w'.deliveries.Keys == w.deliveries.Keys
      && w'.now == w.now
  {
    var m, pc := w.deliveries[d].message, w.deliveries[d].pc;
    LuckyCallAdvances(w, m, pc, luck);
    EffectGrows(w, m, pc, LuckyCall(pc, luck));
  }

  /** The delivery runs on alone to its end. */
  function Finish(w: World, d: nat, luck: Luck): (w': World)
    requires Alive(w, d) && Lucky(luck)
    ensures d in w'.deliveries && w'.deliveries[d].pc.Done?
    decreases StepsLeft(w.deliveries[d].pc)
  {
    if w.deliveries[d].pc.Done? then w
    else
      LuckyStepAdvances(w, d, luck);
      Finish(Apply(w, LuckyStep(w, d, luck)), d, luck)
  }

  lemma {:induction false} FinishIsARun(w: World, d: nat, luck: Luck)
    requires Alive(w, d) && Lucky(luck)
    ensures Reaches(w, Finish(w, d, luck))
    decreases StepsLeft(w.deliveries[d].pc)
  {
    if w.deliveries[d].pc.Done? {
      ReachesItself(w);
    } else {
      LuckyStepAdvances(w, d, luck);
      var step := LuckyStep(w, d, luck);
      ReachesByStep(w, step);
      FinishIsARun(Apply(w, step), d, luck);
      ReachesTransitive(w, Apply(w, step), Finish(w, d, luck));
    }
  }

  /** From `AtEnqueue` on: the job is live and the claim is closed. */
  lemma FinishFromEnqueue(w: World, d: nat, luck: Luck)
    requires Alive(w, d) && Lucky(luck) && w.deliveries[d].pc.AtEnqueue?
    ensures var w', m := Finish(w, d, luck), w.deliveries[d].message;
      && TaskKey(m) in w'.live
      && w'.tasks == w.tasks
      && w'.posts == w.posts
      && At(w', d, Done(true))
      && w'.claims == MarkedClaims(w, m, luck)
      && w'.jobs == JobsWith(w, TaskKey(m), w.deliveries[d].pc.sessionId, w.deliveries[d].pc.ack)
  {
    var enqueued := Apply(w, Own(d, EnqueueJob(Works)));
    var marked := Apply(enqueued, Own(d, MarkProcessed(luck.closed)));
    assert Finish(marked, d, luck) == marked;
    assert Finish(enqueued, d, luck) == marked;
    assert Finish(w, d, luck) == marked;
  }

  /** One more job for the task, unless it has a live one. */
  function JobsWith(w: World, task: string, sessionId: string, ack: Option<AckHandle>): seq<Job> {
    if task in w.live then w.jobs else w.jobs + [Job(task, sessionId, ack)]
  }

  function PostsWith(w: World, m: Message, ack: AckOutcome): seq<Post> {
    if ack.NotPosted? then w.posts else w.posts + [Post(TaskKey(m), HandleMade(m, ack))]
  }

  function MarkedClaims(w: World, m: Message, luck: Luck): map<string, Claim> {
    if luck.closed && m.dedupeKey in w.claims
    then w.claims[m.dedupeKey := w.claims[m.dedupeKey].(status := Processed)]
    else w.claims
  }

  /** Rows apart from the saved ACK handle. */
  predicate SameTasks(w: World, w': World) {
    && w'.tasks.Keys == w.tasks.Keys
    && forall task :: task in w.tasks ==>
         w'.tasks[task].values == w.tasks[task].values && w'.tasks[task].status == w.tasks[task].status
  }

  /** The delivery ended well: it tried to close its claim and `w'` has a live job for its task. */
  predicate EndsQueued(w: World, w': World, d: nat, m: Message, luck: Luck) {
    && At(w', d, Done(true))
    && w'.claims == MarkedClaims(w, m, luck)
    && TaskKey(m) in w'.live
  }

  lemma FinishFromPersist(w: World, d: nat, luck: Luck)
    requires Alive(w, d) && Lucky(luck) && w.deliveries[d].pc.AtPersist?
    ensures EndsQueued(w, Finish(w, d, luck), d, w.deliveries[d].message, luck)
    ensures SameTasks(w, Finish(w, d, luck)) && Finish(w, d, luck).posts == w.posts
    ensures var m, pc := w.deliveries[d].message, w.deliveries[d].pc;
      Finish(w, d, luck).jobs == JobsWith(w, TaskKey(m), pc.sessionId, Some(pc.handle))
  {
    LuckyStepAdvances(w, d, luck);
    FinishFromEnqueue(Apply(w, Own(d, PersistAck(luck.saved))), d, luck);
  }

  lemma FinishFromAck(w: World, d: nat, luck: Luck)
    requires Alive(w, d) && Lucky(luck) && w.deliveries[d].pc.AtAck?
    ensures EndsQueued(w, Finish(w, d, luck), d, w.deliveries[d].message, luck)
    ensures SameTasks(w, Finish(w, d, luck))
    ensures var w', m := Finish(w, d, luck), w.deliveries[d].message;
      && w'.jobs == JobsWith(w, TaskKey(m), w.deliveries[d].pc.sessionId, HandleMade(m, luck.ack))
      && w'.posts == PostsWith(w, m, luck.ack)
  {
    LuckyStepAdvances(w, d, luck);
    var acked := Apply(w, LuckyStep(w, d, luck));
    assert Finish(w, d, luck) == Finish(acked, d, luck);
    if luck.ack.Posted? {
      FinishFromPersist(acked, d, luck);
    } else {
      FinishFromEnqueue(acked, d, luck);
    }
  }

  lemma FinishFromLoad(w: World, d: nat, luck: Luck)
    requires Alive(w, d) && Lucky(luck) && w.deliveries[d].pc.AtLoad?
    ensures EndsQueued(w, Finish(w, d, luck), d, w.deliveries[d].message, luck)
    ensures SameTasks(w, Finish(w, d, luck)) && Finish(w, d, luck).posts == w.posts
    ensures var m := w.deliveries[d].message;
      Finish(w, d, luck).jobs == JobsWith(w, TaskKey(m), w.deliveries[d].pc.sessionId, w.tasks[TaskKey(m)].ack)
  {
    LuckyStepAdvances(w, d, luck);
    FinishFromEnqueue(Apply(w, Own(d, LoadAck(true))), d, luck);
  }

  lemma FinishFromQueue(w: World, d: nat, luck: Luck)
    requires Alive(w, d) && Lucky(luck) && w.deliveries[d].pc.AtQueue?
    ensures EndsQueued(w, Finish(w, d, luck), d, w.deliveries[d].message, luck)
    ensures SameTasks(Queued(w, TaskKey(w.deliveries[d].message)), Finish(w, d, luck))
    ensures var w', m, pc := Finish(w, d, luck), w.deliveries[d].message, w.deliveries[d].pc;
      && w'.posts == (if pc.created then PostsWith(w, m, luck.ack) else w.posts)
      && w'.jobs == JobsWith(w, TaskKey(m), pc.sessionId,
                             if pc.created then HandleMade(m, luck.ack) else w.tasks[TaskKey(m)].ack)
  {
    LuckyStepAdvances(w, d, luck);
    var moved := Apply(w, Own(d, TransitionToQueued(Works)));
    if w.deliveries[d].pc.created {
      FinishFromAck(moved, d, luck);
    } else {
      FinishFromLoad(moved, d, luck);
    }
  }

  lemma FinishFromMark(w: World, d: nat, luck: Luck)
    requires Alive(w, d) && Lucky(luck) && w.deliveries[d].pc.AtMark?
    ensures var w' := Finish(w, d, luck);
      && At(w', d, Done(true))
      && w' == Apply(w, Own(d, MarkProcessed(luck.closed)))
  {
    var marked := Apply(w, Own(d, MarkProcessed(luck.closed)));
    assert Finish(marked, d, luck) == marked;
  }

  /** What the rows look like after a redelivery of `m` that reached its task. */
  predicate TaskRequeued(w: World, w': World, m: Message, sessionId: string) {
    var task := TaskKey(m);
    if task !in w.tasks then
      && w'.tasks.Keys == w.tasks.Keys + {task}
      && w'.tasks[task].values == ValuesOf(m, sessionId)
      && w'.tasks[task].status == QUEUED
    else if IsTerminal(w.tasks[task].status) then
      SameTasks(w, w')
    else
      SameTasks(Queued(w, task), w')
  }

  /**
   * The ACK is posted for a new task only; the job carries the handle of that ACK, the one saved
   * with the task when it is not new. A terminal task gets no job.
   */
  predicate AnsweredAndEnqueued(w: World, w': World, m: Message, sessionId: string, luck: Luck) {
    var task := TaskKey(m);
    if task !in w.tasks then
      && w'.posts == PostsWith(w, m, luck.ack)
      && w'.jobs == JobsWith(w, task, sessionId, HandleMade(m, luck.ack))
    else
      && w'.posts == w.posts
      && w'.jobs == if IsTerminal(w.tasks[task].status) then w.jobs else JobsWith(w, task, sessionId, w.tasks[task].ack)
  }

  /** Creating the task fails for good: the stored row was made with other values. */
  predicate Conflicts(w: World, m: Message, luck: Luck) {
    && IsAddressed(m, luck.bot)
    && !m.isOpsCommand
    && TaskKey(m) in w.tasks
    && w.tasks[TaskKey(m)].values != ValuesOf(m, luck.sessionId)
  }

  /** One lucky step whose result is known. */
  lemma FinishOneStep(w: World, d: nat, luck: Luck, next: World)
    requires Alive(w, d) && Lucky(luck) && !w.deliveries[d].pc.Done?
    requires Enabled(w, LuckyStep(w, d, luck)) && Apply(w, LuckyStep(w, d, luck)) == next
    ensures Alive(next, d) && Finish(w, d, luck) == Finish(next, d, luck)
  {
    LuckyStepAdvances(w, d, luck);
  }

  lemma FinishFromTerminalStatus(w: World, d: nat, luck: Luck)
    requires Alive(w, d) && Lucky(luck) && w.deliveries[d].pc.AtStatus?
    requires IsTerminal(w.tasks[TaskKey(w.deliveries[d].message)].status)
    ensures var w', m := Finish(w, d, luck), w.deliveries[d].message;
      && At(w', d, Done(true))
      && w'.claims == MarkedClaims(w, m, luck)
      && w'.tasks == w.tasks && w'.posts == w.posts && w'.jobs == w.jobs
  {
    var done := Goto(w, d, AtMark);
    FinishOneStep(w, d, luck, done);
    FinishFromMark(done, d, luck);
  }

  lemma FinishFromLiveStatus(w: World, d: nat, luck: Luck)
    requires Alive(w, d) && Lucky(luck) && w.deliveries[d].pc.AtStatus?
    requires !IsTerminal(w.tasks[TaskKey(w.deliveries[d].message)].status)
    ensures var w', m := Finish(w, d, luck), w.deliveries[d].message;
      && EndsQueued(w, w', d, m, luck)
      && SameTasks(Queued(w, TaskKey(m)), w')
      && w'.posts == w.posts
      && w'.jobs == JobsWith(w, TaskKey(m), w.deliveries[d].pc.sessionId, w.tasks[TaskKey(m)].ack)
  {
    var queue := Goto(w, d, AtQueue(w.deliveries[d].pc.sessionId, false));
    FinishOneStep(w, d, luck, queue);
    FinishFromQueue(queue, d, luck);
  }

  lemma FinishFromStatus(w: World, d: nat, luck: Luck)
    requires Alive(w, d) && Lucky(luck) && w.deliveries[d].pc.AtStatus?
    ensures var w', m := Finish(w, d, luck), w.deliveries[d].message;
      && At(w', d, Done(true))
      && w'.claims == MarkedClaims(w, m, luck)
      && TaskRequeued(w, w', m, luck.sessionId)
      && AnsweredAndEnqueued(w, w', m, w.deliveries[d].pc.sessionId, luck)
      && (IsTerminal(w.tasks[TaskKey(m)].status) || TaskKey(m) in w'.live)
  {
    if IsTerminal(w.tasks[TaskKey(w.deliveries[d].message)].status) {
      FinishFromTerminalStatus(w, d, luck);
    } else {
      FinishFromLiveStatus(w, d, luck);
    }
  }

  lemma FinishFromCreate(w: World, d: nat, luck: Luck)
    requires Alive(w, d) && Lucky(luck) && At(w, d, AtCreate(luck.sessionId))
    requires !w.deliveries[d].message.isOpsCommand
    requires IsAddressed(w.deliveries[d].message, luck.bot)
    requires !Conflicts(w, w.deliveries[d].message, luck)
    ensures var w', m := Finish(w, d, luck), w.deliveries[d].message;
      && At(w', d, Done(true))
      && w'.claims == MarkedClaims(w, m, luck)
      && TaskRequeued(w, w', m, luck.sessionId)
      && AnsweredAndEnqueued(w, w', m, luck.sessionId, luck)
      && (TaskKey(m) in w'.live || (TaskKey(m) in w.tasks && IsTerminal(w.tasks[TaskKey(m)].status)))
  {
    LuckyStepAdvances(w, d, luck);
    var next := Apply(w, Own(d, CreateTask(Works)));
    if TaskKey(w.deliveries[d].message) in w.tasks {
      FinishFromStatus(next, d, luck);
    } else {
      FinishFromQueue(next, d, luck);
    }
  }

  lemma FinishFromConflict(w: World, d: nat, luck: Luck)
    requires Alive(w, d) && Lucky(luck) && At(w, d, AtCreate(luck.sessionId))
    requires Conflicts(w, w.deliveries[d].message, luck)
    ensures var w' := Finish(w, d, luck);
      && At(w', d, Done(false))
      && w'.claims == w.claims - {w.deliveries[d].message.dedupeKey}
      && w'.tasks == w.tasks && w'.jobs == w.jobs && w'.posts == w.posts
  {
    var refused := Apply(w, Own(d, CreateTask(Works)));
    var released := Apply(refused, Own(d, ReleaseClaim(true)));
    assert Finish(released, d, luck) == released;
    assert Finish(refused, d, luck) == released;
  }

  lemma FinishFromGate(w: World, d: nat, luck: Luck)
    requires Alive(w, d) && Lucky(luck) && At(w, d, AtGate)
    ensures var m := w.deliveries[d].message;
      Finish(w, d, luck) ==
        if IsAddressed(m, luck.bot)
        then Finish(Goto(w, d, AtCreate(luck.sessionId)), d, luck)
        else Finish(Goto(w, d, AtMark).(ignored := w.ignored + {m}), d, luck)
  {
    var m := w.deliveries[d].message;
    if IsAddressed(m, luck.bot) {
      FinishOneStep(w, d, luck, Goto(w, d, AtSession));
      FinishOneStep(Goto(w, d, AtSession), d, luck, Goto(Goto(w, d, AtSession), d, AtCreate(luck.sessionId)));
      assert Goto(Goto(w, d, AtSession), d, AtCreate(luck.sessionId)) == Goto(w, d, AtCreate(luck.sessionId));
    } else {
      FinishOneStep(w, d, luck, Goto(w, d, AtMark).(ignored := w.ignored + {m}));
    }
  }

  /** From the claim to the point where the task is created, or to the end if it never is. */
  lemma FinishFromClaim(w: World, d: nat, luck: Luck)
    requires Alive(w, d) && Lucky(luck) && At(w, d, AtClaim)
    requires Reclaimable(w, w.deliveries[d].message.dedupeKey)
    ensures var m := w.deliveries[d].message;
      var claimed := w.(claims := w.claims[m.dedupeKey := Claim(Received, w.now)]);
      Finish(w, d, luck) ==
        if IsAddressed(m, luck.bot)
        then Finish(Goto(claimed, d, AtCreate(luck.sessionId)), d, luck)
        else Finish(Goto(claimed, d, AtMark).(ignored := w.ignored + {m}), d, luck)
  {
    var m := w.deliveries[d].message;
    var claimed := w.(claims := w.claims[m.dedupeKey := Claim(Received, w.now)]);
    var gate := Goto(claimed, d, AtGate);
    FinishOneStep(w, d, luck, gate);
    FinishFromGate(gate, d, luck);
    assert Goto(gate, d, AtCreate(luck.sessionId)) == Goto(claimed, d, AtCreate(luck.sessionId));
    assert Goto(gate, d, AtMark) == Goto(claimed, d, AtMark);
  }

  /** A message that needs no task is settled as such. */
  lemma RedeliveryNotAddressed(w: World, d: nat, luck: Luck)
    requires Alive(w, d) && Lucky(luck) && At(w, d, AtClaim)
    requires Reclaimable(w, w.deliveries[d].message.dedupeKey)
    requires !IsAddressed(w.deliveries[d].message, luck.bot)
    ensures var w', m := Finish(w, d, luck), w.deliveries[d].message;
      && At(w', d, Done(true))
      && m in w'.ignored
      && (luck.closed ==> Closed(w', m.dedupeKey))
  {
    var m := w.deliveries[d].message;
    var claimed := w.(claims := w.claims[m.dedupeKey := Claim(Received, w.now)]);
    FinishFromClaim(w, d, luck);
    FinishFromMark(Goto(claimed, d, AtMark).(ignored := w.ignored + {m}), d, luck);
  }

  lemma FinishFromOpsCommand(w: World, d: nat, luck: Luck)
    requires Alive(w, d) && Lucky(luck) && At(w, d, AtCreate(luck.sessionId))
    requires w.deliveries[d].message.isOpsCommand
    ensures var w', m := Finish(w, d, luck), w.deliveries[d].message;
      && At(w', d, Done(true))
      && w'.answered == w.answered + {m}
      && w'.claims == MarkedClaims(w, m, luck)
  {
    LuckyStepAdvances(w, d, luck);
    FinishFromMark(Apply(w, Own(d, CreateTask(Works))), d, luck);
  }

  lemma RedeliveryOpsCommand(w: World, d: nat, luck: Luck)
    requires Alive(w, d) && Lucky(luck) && At(w, d, AtClaim)
    requires Reclaimable(w, w.deliveries[d].message.dedupeKey)
    requires IsAddressed(w.deliveries[d].message, luck.bot) && w.deliveries[d].message.isOpsCommand
    ensures var w', m := Finish(w, d, luck), w.deliveries[d].message;
      && At(w', d, Done(true))
      && m in w'.answered
      && (luck.closed ==> Closed(w', m.dedupeKey))
  {
    var m := w.deliveries[d].message;
    var claimed := w.(claims := w.claims[m.dedupeKey := Claim(Received, w.now)]);
    FinishFromClaim(w, d, luck);
    FinishFromOpsCommand(Goto(claimed, d, AtCreate(luck.sessionId)), d, luck);
  }

  /** What a delivery does that gets to its task, on any world. */
  lemma FinishWithTask(w: World, d: nat, luck: Luck)
    requires Alive(w, d) && Lucky(luck) && At(w, d, AtClaim)
    requires Reclaimable(w, w.deliveries[d].message.dedupeKey)
    requires IsAddressed(w.deliveries[d].message, luck.bot) && !w.deliveries[d].message.isOpsCommand
    requires !Conflicts(w, w.deliveries[d].message, luck)
    ensures var w', m := Finish(w, d, luck), w.deliveries[d].message;
      && At(w', d, Done(true))
      && (luck.closed ==> Closed(w', m.dedupeKey))
      && TaskRequeued(w, w', m, luck.sessionId)
      && AnsweredAndEnqueued(w, w', m, luck.sessionId, luck)
      && (TaskKey(m) in w'.live || (TaskKey(m) in w.tasks && IsTerminal(w.tasks[TaskKey(m)].status)))
  {
    var m := w.deliveries[d].message;
    var claimed := w.(claims := w.claims[m.dedupeKey := Claim(Received, w.now)]);
    FinishFromClaim(w, d, luck);
    FinishFromCreate(Goto(claimed, d, AtCreate(luck.sessionId)), d, luck);
  }

  /** A live job or a terminal row settles a message. */
  lemma TaskSettles(w: World, w': World, m: Message)
    requires TasksSound(w) && LiveHaveJobs(w') && Grows(w, w')
    requires TaskKey(m) in w'.live || (TaskKey(m) in w.tasks && IsTerminal(w.tasks[TaskKey(m)].status))
    ensures Settled(w', m)
  {
  }

  lemma RedeliveryWithTask(w: World, d: nat, luck: Luck)
    requires Reachable(w) && Alive(w, d) && Lucky(luck) && At(w, d, AtClaim)
    requires Reclaimable(w, w.deliveries[d].message.dedupeKey)
    requires IsAddressed(w.deliveries[d].message, luck.bot) && !w.deliveries[d].message.isOpsCommand
    requires !Conflicts(w, w.deliveries[d].message, luck)
    ensures var w', m := Finish(w, d, luck), w.deliveries[d].message;
      && At(w', d, Done(true))
      && Settled(w', m)
      && (luck.closed ==> Closed(w', m.dedupeKey))
      && TaskRequeued(w, w', m, luck.sessionId)
      && AnsweredAndEnqueued(w, w', m, luck.sessionId, luck)
  {
    FinishWithTask(w, d, luck);
    FinishKeepsInv(w, d, luck);
    TaskSettles(w, Finish(w, d, luck), w.deliveries[d].message);
  }

  lemma FinishKeepsInv(w: World, d: nat, luck: Luck)
    requires Reachable(w) && Alive(w, d) && Lucky(luck)
    ensures Inv(w) && Inv(Finish(w, d, luck)) && Grows(w, Finish(w, d, luck))
    ensures Reaches(w, Finish(w, d, luck))
  {
    ReachableInv(w);
    FinishIsARun(w, d, luck);
    var steps :| IsRun(w, steps) && After(w, steps) == Finish(w, d, luck);
    RunKeepsInv(w, steps);
  }

  lemma RedeliveryRefused(w: World, d: nat, luck: Luck)
    requires Alive(w, d) && Lucky(luck) && At(w, d, AtClaim)
    requires Reclaimable(w, w.deliveries[d].message.dedupeKey)
    requires Conflicts(w, w.deliveries[d].message, luck)
    ensures var w', m := Finish(w, d, luck), w.deliveries[d].message;
      && At(w', d, Done(false))
      && m.dedupeKey !in w'.claims
      && w'.tasks == w.tasks && w'.jobs == w.jobs && w'.posts == w.posts
  {
    var m := w.deliveries[d].message;
    var claimed := w.(claims := w.claims[m.dedupeKey := Claim(Received, w.now)]);
    FinishFromClaim(w, d, luck);
    FinishFromConflict(Goto(claimed, d, AtCreate(luck.sessionId)), d, luck);
  }

  /**
   * From every reachable state whose claim can be taken, one redelivery without a fatal
   * failure is accepted, settles the message and closes the claim (if that last, best-effort
   * write works), exactly when it does not meet a task row made with other values, such as
   * another session. Then it is refused and the claim stays free.
   */
  lemma RedeliveryRecovers(w: World, d: nat, luck: Luck)
    requires Reachable(w) && Alive(w, d) && Lucky(luck) && At(w, d, AtClaim)
    requires Reclaimable(w, w.deliveries[d].message.dedupeKey)
    ensures Reaches(w, Finish(w, d, luck))
    ensures var w', m := Finish(w, d, luck), w.deliveries[d].message;
      if Conflicts(w, m, luck) then
        && At(w', d, Done(false))
        && m.dedupeKey !in w'.claims
      else
        && At(w', d, Done(true))
        && Settled(w', m)
        && (luck.closed ==> Closed(w', m.dedupeKey))
  {
    var m := w.deliveries[d].message;
    FinishIsARun(w, d, luck);
    if Conflicts(w, m, luck) {
      RedeliveryRefused(w, d, luck);
    } else if !IsAddressed(m, luck.bot) {
      RedeliveryNotAddressed(w, d, luck);
    } else if m.isOpsCommand {
      RedeliveryOpsCommand(w, d, luck);
    } else {
      RedeliveryWithTask(w, d, luck);
    }
  }

  // ---- A promise that is not kept ----

  lemma StepFrom(origin: World, w: World, step: Step)
    requires Reaches(origin, w) && Enabled(w, step)
    ensures Reaches(origin, Apply(w, step))
  {
    ReachesByStep(w, step);
    ReachesTransitive(origin, w, Apply(w, step));
  }

  const SAMPLE := Message("slack", "T", "C", "slack:E", "1", "U", "en", "hi", ["B"], false)

  lemma {:induction false} FinishKeepsTheRest(w: World, d: nat, luck: Luck)
    requires Alive(w, d) && Lucky(luck)
    ensures Finish(w, d, luck).now == w.now
    ensures Finish(w, d, luck).deliveries.Keys == w.deliveries.Keys
    decreases StepsLeft(w.deliveries[d].pc)
  {
    if !w.deliveries[d].pc.Done? {
      LuckyStepAdvances(w, d, luck);
      FinishKeepsTheRest(Apply(w, LuckyStep(w, d, luck)), d, luck);
    }
  }

  /** A first delivery queues its task; here its claim is never closed. */
  lemma FirstDelivery(w: World, d: nat, luck: Luck)
    requires Alive(w, d) && Lucky(luck) && At(w, d, AtClaim) && !luck.closed
    requires w.claims == map[] && w.tasks == map[]
    requires IsAddressed(w.deliveries[d].message, luck.bot) && !w.deliveries[d].message.isOpsCommand
    ensures var w', m := Finish(w, d, luck), w.deliveries[d].message;
      && w'.claims == map[m.dedupeKey := Claim(Received, w.now)]
      && TaskKey(m) in w'.tasks
      && w'.tasks[TaskKey(m)].values == ValuesOf(m, luck.sessionId)
      && w'.tasks[TaskKey(m)].status == QUEUED
  {
    var m := w.deliveries[d].message;
    var claimed := w.(claims := w.claims[m.dedupeKey := Claim(Received, w.now)]);
    FinishFromClaim(w, d, luck);
    FinishFromCreate(Goto(claimed, d, AtCreate(luck.sessionId)), d, luck);
  }

  lemma SampleQueued() returns (w: World)
    ensures Reaches(Initial(0), w) && w.claims == map[SAMPLE.dedupeKey := Claim(Received, 0)]
    ensures w.now == 0 && w.deliveries.Keys == {0}
    ensures TaskKey(SAMPLE) in w.tasks
    ensures w.tasks[TaskKey(SAMPLE)].values == ValuesOf(SAMPLE, "S")
    ensures w.tasks[TaskKey(SAMPLE)].status == QUEUED
  {
    var luck := Luck(Some("B"), "S", NotPosted, false, false);
    var start := Initial(0).(deliveries := map[0 := Delivery(SAMPLE, AtClaim)], delivered := {SAMPLE});
    SampleStarts(start);
    FirstDelivery(start, 0, luck);
    FinishIsARun(start, 0, luck);
    FinishKeepsTheRest(start, 0, luck);
    w := Finish(start, 0, luck);
    ReachesTransitive(Initial(0), start, w);
  }

  lemma SampleStarts(start: World)
    requires start == Initial(0).(deliveries := map[0 := Delivery(SAMPLE, AtClaim)], delivered := {SAMPLE})
    ensures Reaches(Initial(0), start)
  {
    ReachesItself(Initial(0));
    StepFrom(Initial(0), Initial(0), Deliver(0, SAMPLE));
  }

  /** The task runs and delegates while its claim goes stale; then the message comes again. */
  lemma SampleRedelivered() returns (w: World)
    ensures Reachable(w) && Alive(w, 1) && w.deliveries[1] == Delivery(SAMPLE, AtClaim)
    ensures Reclaimable(w, SAMPLE.dedupeKey)
    ensures TaskKey(SAMPLE) in w.tasks
    ensures w.tasks[TaskKey(SAMPLE)].values == ValuesOf(SAMPLE, "S")
    ensures w.tasks[TaskKey(SAMPLE)].status == WAITING_DELEGATION
  {
    var origin, task := Initial(0), TaskKey(SAMPLE);
    var queued := SampleQueued();
    StepFrom(origin, queued, Work(task, RUNNING));
    var running := Apply(queued, Work(task, RUNNING));
    StepFrom(origin, running, Work(task, WAITING_DELEGATION));
    var waiting := Apply(running, Work(task, WAITING_DELEGATION));
    StepFrom(origin, waiting, Tick(STALE_CLAIM_TAKEOVER_MS + 1));
    var stale := Apply(waiting, Tick(STALE_CLAIM_TAKEOVER_MS + 1));
    StepFrom(origin, stale, Deliver(1, SAMPLE));
    w := Apply(stale, Deliver(1, SAMPLE));
  }

  /**
   * The source promises that dispatch never moves a task back. It can: a redelivery that takes
   * over a stale claim requeues a task that by then waits for a delegate.
   */
  lemma RecoveryCanRequeueADelegatingTask() returns (w: World, w': World, task: string)
    ensures Reachable(w) && Reaches(w, w')
    ensures task in w.tasks && w.tasks[task].status == WAITING_DELEGATION
    ensures task in w'.tasks && w'.tasks[task].status == QUEUED
    ensures exists d, luck :: Alive(w, d) && Lucky(luck) && w' == Finish(w, d, luck)
  {
    task := TaskKey(SAMPLE);
    var luck := Luck(Some("B"), "S", NotPosted, false, true);
    w := SampleRedelivered();
    RedeliveryWithTask(w, 1, luck);
    FinishIsARun(w, 1, luck);
    w' := Finish(w, 1, luck);
  }

  // ---- Refused for good ----

  lemma StepKeepsValues(w: World, step: Step, task: string)
    requires Enabled(w, step) && task in w.tasks
    ensures task in Apply(w, step).tasks && Apply(w, step).tasks[task].values == w.tasks[task].values
  {
  }

  lemma {:induction false} RunKeepsValues(w: World, steps: seq<Step>, task: string)
    requires IsRun(w, steps) && task in w.tasks
    ensures task in After(w, steps).tasks && After(w, steps).tasks[task].values == w.tasks[task].values
    decreases |steps|
  {
    if steps != [] {
      StepKeepsValues(w, steps[0], task);
      RunKeepsValues(Apply(w, steps[0]), steps[1..], task);
    }
  }

  /** A redelivery that was refused once is refused whenever it comes again with the same session. */
  lemma RefusedAgainAndAgain(w: World, w': World, d: nat, luck: Luck)
    requires Reaches(w, w') && Alive(w', d) && Lucky(luck) && At(w', d, AtClaim)
    requires Reclaimable(w', w'.deliveries[d].message.dedupeKey)
    requires Conflicts(w, w'.deliveries[d].message, luck)
    ensures Conflicts(w', w'.deliveries[d].message, luck)
    ensures At(Finish(w', d, luck), d, Done(false))
    ensures Finish(w', d, luck).jobs == w'.jobs && Finish(w', d, luck).posts == w'.posts
  {
    var steps :| IsRun(w, steps) && After(w, steps) == w';
    RunKeepsValues(w, steps, TaskKey(w'.deliveries[d].message));
    RedeliveryRefused(w', d, luck);
  }

  /** It happens: the message comes again, its claim can be taken, and its session is another one. */
  lemma AnotherSessionIsRefused() returns (w: World, luck: Luck)
    ensures Reachable(w) && Alive(w, 1) && Lucky(luck) && w.deliveries[1] == Delivery(SAMPLE, AtClaim)
    ensures Reclaimable(w, SAMPLE.dedupeKey) && Conflicts(w, SAMPLE, luck)
    ensures At(Finish(w, 1, luck), 1, Done(false)) && Reachable(Finish(w, 1, luck))
  {
    luck := Luck(Some("B"), "S2", NotPosted, false, true);
    w := SampleRedelivered();
    assert w.tasks[TaskKey(SAMPLE)].values.sessionId == "S";
    assert ValuesOf(SAMPLE, luck.sessionId).sessionId == "S2";
    assert "S" != "S2";
    RedeliveryRefused(w, 1, luck);
    FinishIsARun(w, 1, luck);
    var now :| Reaches(Initial(now), w);
    ReachesTransitive(Initial(now), w, Finish(w, 1, luck));
  }
}
