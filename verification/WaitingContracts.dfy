/**
 * The waiting contracts of a relay (apps/api/src/server.ts:1464-1554, 2722-2752, 2943-2964;
 * packages/storage/src/waiting-contract-repository.ts).
 *
 * The delivery of the primary agent writes a contract for every deferred agent, starts the
 * primary task and binds the contracts to it. The delivery of a deferred agent writes its own
 * contract, binds if the task already exists and posts a visible ack. Deliveries interleave,
 * are lost, delayed, replayed or crash between any two store calls. Every delivery takes its
 * own decision, and a replay may decide otherwise than the first delivery did. The chat drops
 * a second ack with the same uuid, for a limited time.
 */
module WaitingContracts {
  import opened Wrappers
  import opened TaskKeys
  import opened MentionOrder
  import opened MentionRouting

  datatype Scope = Scope(tenantKey: string, chatId: string, messageId: string)

  /** The relay that a delivery decides on: what MentionRouting calls a concerted decision. */
  datatype Plan = Plan(primary: Participant, contracts: seq<ContractSpec>)

  datatype Decided = Decided(scope: Scope, plan: Plan)

  /** The scope columns are Feishu ids, which hold no colon. */
  predicate ProperScope(scope: Scope) {
    ColonFree(scope.tenantKey) && ColonFree(scope.chatId) && ColonFree(scope.messageId)
  }

  /** The id of the task of the agent that leads. */
  function TaskFor(scope: Scope, agentId: string): string {
    PrimaryTaskKey(Event(scope.tenantKey, scope.chatId, scope.messageId, true, true), agentId)
  }

  /** Task ids differ between messages and between leading agents. */
  lemma TaskIdsAreDistinct(s: Scope, a: string, t: Scope, b: string)
    requires ProperScope(s) && ProperScope(t)
    ensures TaskFor(s, a) == TaskFor(t, b) <==> s == t && a == b
  {
    var p := ["relay-primary", s.tenantKey, s.chatId, s.messageId, a];
    var q := ["relay-primary", t.tenantKey, t.chatId, t.messageId, b];
    if TaskFor(s, a) == TaskFor(t, b) {
      JoinIsInjective(p, q);
      assert p[1] == q[1] && p[2] == q[2] && p[3] == q[3] && p[4] == q[4];
    }
  }

  // ---- Stores ----

  datatype ContractStatus = Waiting | Woken | Cancelled | Expired

  /** Unique index: one row per message and agent. */
  datatype RowKey = RowKey(scope: Scope, agentId: string)

  /** The ack message of a row, and when it was written there. */
  datatype Record = Record(messageId: nat, at: int)

  datatype Row = Row(
    id: nat,
    waitingOnAgentId: string,
    goal: string,
    primaryTask: Option<string>,
    ack: Option<Record>,
    status: ContractStatus)

  /** A visible ack: the contract id in its uuid, and when it was posted. */
  datatype VisibleAck = VisibleAck(id: nat, at: int)

  /** `readAt` is when a deferred delivery last saw that no ack was recorded. */
  datatype Pc =
    // the delivery of the primary agent
    | AtContract(i: nat)
    | AtPrimaryBind
    // the delivery of a deferred agent
    | AtOwnContract
    | AtReadBack
    | AtLookup(id: nat, readAt: int)
    | AtBind(id: nat, readAt: int)
    | AtAck(id: nat, readAt: int)
    | AtRecord(id: nat, messageId: nat)
    | Done(processed: bool)

  datatype Delivery = Delivery(scope: Scope, agentId: string, plan: Plan, pc: Pc)

  /** `decided` records which plans deliveries of a message carried. */
  datatype World = World(
    now: int,
    contracts: map<RowKey, Row>,
    nextId: nat,
    tasks: set<string>,
    acks: seq<VisibleAck>,
    deliveries: map<nat, Delivery>,
    decided: set<Decided>)

  function Initial(now: int): World {
    World(now, map[], 0, {}, [], map[], {})
  }

  datatype Outcome = Works | Lost | Torn

  /** Starting the task may also turn out not to be needed: a command is answered instead. */
  datatype TaskOutcome = Created | CreatedThenFailed | Failed | AnsweredInstead | Ended

  datatype Call =
    | CreateContract(outcome: Outcome)
    | CreateTask(result: TaskOutcome)
    | Bind(outcome: Outcome)
    | ReadContract(works: bool)
    | FindTask(works: bool)
    | SendAck(outcome: Outcome)
    | RecordAck(outcome: Outcome)

  datatype Step =
    | Tick(ms: nat)
    | Deliver(d: nat, scope: Scope, agentId: string, plan: Plan)
    | Own(d: nat, call: Call)
    | Crash(d: nat)
    | Settle(key: RowKey, status: ContractStatus)

  function Inserted(w: World, key: RowKey, waitingOn: string, goal: string): World {
    if key in w.contracts then w
    else w.(contracts := w.contracts[key := Row(w.nextId, waitingOn, goal, None, None, Waiting)],
            nextId := w.nextId + 1)
  }

  /** The update of `bindWaitingContractsToPrimaryTask`, row by row. */
  function BoundRow(key: RowKey, row: Row, scope: Scope, waitingOn: string): Row {
    if key.scope == scope && row.waitingOnAgentId == waitingOn && row.primaryTask.None?
    then row.(primaryTask := Some(TaskFor(scope, waitingOn)))
    else row
  }

  function Bound(contracts: map<RowKey, Row>, scope: Scope, waitingOn: string): map<RowKey, Row> {
    map key | key in contracts :: BoundRow(key, contracts[key], scope, waitingOn)
  }

  function Acked(contracts: map<RowKey, Row>, id: nat, record: Record): map<RowKey, Row> {
    map key | key in contracts ::
      if contracts[key].id == id then contracts[key].(ack := Some(record)) else contracts[key]
  }

  /** The chat still knows this message under the uuid of the contract. */
  predicate IsKnown(window: nat, ack: VisibleAck, id: nat, now: int) {
    ack.id == id && now - ack.at <= window
  }

  function LastKnown(window: nat, acks: seq<VisibleAck>, id: nat, now: int): (known: Option<nat>)
    ensures known.Some? ==> known.value < |acks| && IsKnown(window, acks[known.value], id, now)
    ensures known.None? ==> forall i :: 0 <= i < |acks| ==> !IsKnown(window, acks[i], id, now)
  {
    if acks == [] then None
    else
      var n := |acks| - 1;
      if IsKnown(window, acks[n], id, now) then Some(n) else LastKnown(window, acks[..n], id, now)
  }

  /** The message that a send returns: the last one that is still known, or a new one. */
  function MessageOf(window: nat, acks: seq<VisibleAck>, id: nat, now: int): nat {
    var known := LastKnown(window, acks, id, now);
    if known.Some? then known.value else |acks|
  }

  function Posted(window: nat, acks: seq<VisibleAck>, id: nat, now: int): seq<VisibleAck> {
    if LastKnown(window, acks, id, now).Some? then acks else acks + [VisibleAck(id, now)]
  }

  /** The row a delivery is about. */
  function KeyOf(m: Delivery): RowKey
    requires m.pc.AtContract? ==> m.pc.i < |m.plan.contracts|
  {
    RowKey(m.scope, if m.pc.AtContract? then m.plan.contracts[m.pc.i].agent.agentId else m.agentId)
  }

  function GoalOf(m: Delivery): string
    requires m.pc.AtContract? ==> m.pc.i < |m.plan.contracts|
  {
    if m.pc.AtContract? then m.plan.contracts[m.pc.i].goal
    else
      var goal := GoalFor(m.plan.contracts, m.agentId);
      if goal.Some? then goal.value else ""
  }

  function OwnKey(m: Delivery): RowKey {
    RowKey(m.scope, m.agentId)
  }

  predicate Fits(w: World, m: Delivery, call: Call) {
    match call
    case CreateContract(_) => m.pc.AtOwnContract? || (m.pc.AtContract? && m.pc.i < |m.plan.contracts|)
    case CreateTask(_) => m.pc == AtContract(|m.plan.contracts|)
    case Bind(_) => m.pc.AtPrimaryBind? || m.pc.AtBind?
    case ReadContract(_) => m.pc.AtReadBack? && OwnKey(m) in w.contracts
    case FindTask(_) => m.pc.AtLookup?
    case SendAck(_) => m.pc.AtAck?
    case RecordAck(_) => m.pc.AtRecord?
  }

  function Effect(window: nat, w: World, m: Delivery, call: Call): World
    requires Fits(w, m, call)
  {
    match call
    case CreateContract(outcome) =>
      if outcome == Lost then w else Inserted(w, KeyOf(m), m.plan.primary.agentId, GoalOf(m))
    case CreateTask(result) =>
      if result == Created || result == CreatedThenFailed
      then w.(tasks := w.tasks + {TaskFor(m.scope, m.plan.primary.agentId)})
      else w
    case Bind(outcome) =>
      if outcome == Lost then w else w.(contracts := Bound(w.contracts, m.scope, m.plan.primary.agentId))
    case ReadContract(_) => w
    case FindTask(_) => w
    case SendAck(outcome) =>
      if outcome == Lost then w else w.(acks := Posted(window, w.acks, m.pc.id, w.now))
    case RecordAck(outcome) =>
      if outcome == Lost then w
      else w.(contracts := Acked(w.contracts, m.pc.id, Record(m.pc.messageId, w.now)))
  }

  function Next(window: nat, w: World, m: Delivery, call: Call): Pc
    requires Fits(w, m, call)
  {
    match call
    case CreateContract(outcome) =>
      if outcome != Works then Done(false)
      else if m.pc.AtContract? then AtContract(m.pc.i + 1)
      else if OwnKey(m) in w.contracts then AtReadBack
      else AtLookup(w.nextId, w.now)
    case CreateTask(result) =>
      (match result
       case Created => AtPrimaryBind
       case AnsweredInstead => AtPrimaryBind
       case Ended => Done(true)
       case CreatedThenFailed => Done(false)
       case Failed => Done(false))
    case Bind(_) =>
      if m.pc.AtPrimaryBind? then Done(true) else AtAck(m.pc.id, m.pc.readAt)
    case ReadContract(works) =>
      var row := w.contracts[OwnKey(m)];
      if !works then Done(false)
      else if row.ack.Some? then Done(true)
      else AtLookup(row.id, w.now)
    case FindTask(works) =>
      if works && TaskFor(m.scope, m.plan.primary.agentId) in w.tasks then AtBind(m.pc.id, m.pc.readAt)
      else AtAck(m.pc.id, m.pc.readAt)
    case SendAck(outcome) =>
      if outcome == Works then AtRecord(m.pc.id, MessageOf(window, w.acks, m.pc.id, w.now)) else Done(true)
    case RecordAck(_) => Done(true)
  }

  /** Only the primary and the deferred agents of a plan get past the routing decision. */
  predicate HasPart(plan: Plan, agentId: string) {
    agentId == plan.primary.agentId || GoalFor(plan.contracts, agentId).Some?
  }

  /**
   * These are the deliveries of a concerted decision that are not skipped, and a deferred one
   * writes the goal that the primary writes for it.
   */
  lemma PartsAreTheDecisions(
    plan: Plan, scope: Scope, event: Event, roster: seq<Participant>, decide: Option<string> -> Route, agentId: string)
    requires IsConcerted(event, roster, decide, plan.primary, plan.contracts)
    ensures HasPart(plan, agentId) <==> !decide(Some(agentId)).Skip?
    ensures decide(Some(agentId)).Defer? ==>
      && decide(Some(agentId)).primary == plan.primary
      && decide(Some(agentId)).goal == GoalOf(Delivery(scope, agentId, plan, AtOwnContract))
  {
    if agentId != plan.primary.agentId {
      assert AgreesOn(decide(Some(agentId)), plan.primary, GoalFor(plan.contracts, agentId));
    }
  }

  predicate Enabled(w: World, step: Step) {
    match step
    case Tick(_) => true
    case Deliver(d, scope, agentId, plan) => d !in w.deliveries && ProperScope(scope) && HasPart(plan, agentId)
    case Own(d, call) => d in w.deliveries && Fits(w, w.deliveries[d], call)
    case Crash(d) => d in w.deliveries
    case Settle(key, _) => key in w.contracts
  }

  function Apply(window: nat, w: World, step: Step): World
    requires Enabled(w, step)
  {
    match step
    case Tick(ms) => w.(now := w.now + ms)
    case Deliver(d, scope, agentId, plan) =>
      var pc := if agentId == plan.primary.agentId then AtContract(0) else AtOwnContract;
      w.(deliveries := w.deliveries[d := Delivery(scope, agentId, plan, pc)],
         decided := w.decided + {Decided(scope, plan)})
    case Own(d, call) =>
      var m := w.deliveries[d];
      Effect(window, w, m, call).(deliveries := w.deliveries[d := m.(pc := Next(window, w, m, call))])
    case Crash(d) => w.(deliveries := w.deliveries - {d})
    case Settle(key, status) => w.(contracts := w.contracts[key := w.contracts[key].(status := status)])
  }

  predicate IsRun(window: nat, w: World, steps: seq<Step>)
    decreases |steps|
  {
    steps == [] || (Enabled(w, steps[0]) && IsRun(window, Apply(window, w, steps[0]), steps[1..]))
  }

  function After(window: nat, w: World, steps: seq<Step>): World
    requires IsRun(window, w, steps)
    decreases |steps|
  {
    if steps == [] then w else After(window, Apply(window, w, steps[0]), steps[1..])
  }

  ghost predicate Reaches(window: nat, w: World, w': World) {
    exists steps :: IsRun(window, w, steps) && After(window, w, steps) == w'
  }

  ghost predicate Reachable(window: nat, w: World) {
    exists now :: Reaches(window, Initial(now), w)
  }

  // ---- Invariant ----

  /** The row says what the plan says. */
  predicate Follows(key: RowKey, row: Row, plan: Plan) {
    GoalFor(plan.contracts, key.agentId) == Some(row.goal) && row.waitingOnAgentId == plan.primary.agentId
  }

  /** A row was written by a delivery, and is bound to the task it waits on or to none. */
  ghost predicate RowSound(w: World, key: RowKey, row: Row) {
    && (exists plan :: Decided(key.scope, plan) in w.decided && Follows(key, row, plan))
    && (row.primaryTask.Some? ==> row.primaryTask.value == TaskFor(key.scope, row.waitingOnAgentId))
    && row.id < w.nextId
    && (row.ack.Some? ==> row.ack.value.messageId < |w.acks| && w.acks[row.ack.value.messageId].id == row.id)
    && (row.ack.Some? ==> row.ack.value.at <= w.now)
  }

  ghost predicate RowsSound(w: World) {
    forall key :: key in w.contracts ==> RowSound(w, key, w.contracts[key])
  }

  ghost predicate IdsUnique(w: World) {
    forall k, l :: k in w.contracts && l in w.contracts && w.contracts[k].id == w.contracts[l].id ==> k == l
  }

  /** Rows for the first `n` deferred agents. */
  predicate Covered(w: World, scope: Scope, plan: Plan, n: nat)
    requires n <= |plan.contracts|
  {
    forall i :: 0 <= i < n ==> RowKey(scope, plan.contracts[i].agent.agentId) in w.contracts
  }

  predicate AllCovered(w: World, scope: Scope, plan: Plan) {
    Covered(w, scope, plan, |plan.contracts|)
  }

  /** The row of a deferred delivery that saw no recorded ack at `readAt`. */
  predicate ReadNoAck(w: World, m: Delivery, id: nat, readAt: int) {
    && readAt <= w.now
    && OwnKey(m) in w.contracts
    && w.contracts[OwnKey(m)].id == id
    && (w.contracts[OwnKey(m)].ack.Some? ==> readAt <= w.contracts[OwnKey(m)].ack.value.at)
  }

  predicate PcSound(w: World, m: Delivery) {
    match m.pc
    case AtContract(i) => i <= |m.plan.contracts| && Covered(w, m.scope, m.plan, i)
    case AtPrimaryBind => AllCovered(w, m.scope, m.plan)
    case AtOwnContract => GoalFor(m.plan.contracts, m.agentId).Some?
    case AtReadBack => OwnKey(m) in w.contracts
    case AtLookup(id, readAt) => ReadNoAck(w, m, id, readAt)
    case AtBind(id, readAt) => ReadNoAck(w, m, id, readAt)
    case AtAck(id, readAt) => ReadNoAck(w, m, id, readAt)
    case AtRecord(id, messageId) =>
      && OwnKey(m) in w.contracts && w.contracts[OwnKey(m)].id == id
      && messageId < |w.acks| && w.acks[messageId].id == id
    case Done(_) => true
  }

  predicate DeliverySound(w: World, m: Delivery) {
    Decided(m.scope, m.plan) in w.decided && PcSound(w, m)
  }

  predicate DeliveriesSound(w: World) {
    forall d :: d in w.deliveries ==> DeliverySound(w, w.deliveries[d])
  }

  /** A task was started by a delivery that had written all contracts of its plan. */
  ghost predicate TaskSound(w: World, task: string) {
    exists dec :: dec in w.decided && task == TaskFor(dec.scope, dec.plan.primary.agentId)
      && AllCovered(w, dec.scope, dec.plan)
  }

  ghost predicate TasksSound(w: World) {
    && (forall dec :: dec in w.decided ==> ProperScope(dec.scope))
    && (forall task :: task in w.tasks ==> TaskSound(w, task))
  }

  ghost predicate HasRow(w: World, id: nat) {
    exists key :: key in w.contracts && w.contracts[key].id == id
  }

  /** Two acks of one contract are further apart than the chat remembers. */
  ghost predicate AcksSound(window: nat, w: World) {
    && (forall i :: 0 <= i < |w.acks| ==> HasRow(w, w.acks[i].id) && w.acks[i].at <= w.now)
    && (forall i, j :: 0 <= i < j < |w.acks| && w.acks[i].id == w.acks[j].id ==> w.acks[j].at - w.acks[i].at > window)
  }

  ghost predicate Inv(window: nat, w: World) {
    RowsSound(w) && IdsUnique(w) && DeliveriesSound(w) && TasksSound(w) && AcksSound(window, w)
  }

  // ---- Every step keeps it ----

  /** A row keeps who it is, whom it waits on, and what it is bound to. */
  predicate RowGrows(row: Row, row': Row) {
    && row'.id == row.id
    && row'.waitingOnAgentId == row.waitingOnAgentId
    && row'.goal == row.goal
    && (row.primaryTask.Some? ==> row'.primaryTask == row.primaryTask)
    && (row.ack.Some? ==> row'.ack.Some?)
  }

  ghost predicate Grows(w: World, w': World) {
    && w.now <= w'.now
    && w.contracts.Keys <= w'.contracts.Keys
    && (forall key :: key in w.contracts ==> RowGrows(w.contracts[key], w'.contracts[key]))
    && w.acks <= w'.acks
    && w.nextId <= w'.nextId
    && w.tasks <= w'.tasks
    && w.decided <= w'.decided
  }

  lemma EffectGrows(window: nat, w: World, m: Delivery, call: Call)
    requires Fits(w, m, call)
    ensures var w' := Effect(window, w, m, call); Grows(w, w') && w'.deliveries == w.deliveries && w'.now == w.now
    ensures Effect(window, w, m, call).decided == w.decided
  {
  }

  lemma StepGrows(window: nat, w: World, step: Step)
    requires Enabled(w, step)
    ensures Grows(w, Apply(window, w, step))
  {
    if step.Own? {
      EffectGrows(window, w, w.deliveries[step.d], step.call);
    }
  }

  /** Whoever has a goal is one of the listed agents. */
  lemma {:induction false} GoalMeansListed(contracts: seq<ContractSpec>, agentId: string) returns (i: nat)
    requires GoalFor(contracts, agentId).Some?
    ensures i < |contracts| && contracts[i].agent.agentId == agentId
  {
    i := 0;
    if contracts[0].agent.agentId != agentId {
      var j := GoalMeansListed(contracts[1..], agentId);
      i := j + 1;
    }
  }

  lemma {:induction false} ListedHasGoal(contracts: seq<ContractSpec>, i: nat)
    requires i < |contracts|
    requires forall k :: 0 <= k < i ==> contracts[k].agent.agentId != contracts[i].agent.agentId
    ensures GoalFor(contracts, contracts[i].agent.agentId) == Some(contracts[i].goal)
  {
    if i > 0 {
      ListedHasGoal(contracts[1..], i - 1);
    }
  }

  /** A row that a delivery adds says what its plan says. */
  lemma NewRowFollows(w: World, m: Delivery, call: Call)
    requires Fits(w, m, call) && DeliverySound(w, m) && call.CreateContract? && KeyOf(m) !in w.contracts
    ensures GoalFor(m.plan.contracts, KeyOf(m).agentId) == Some(GoalOf(m))
  {
    if m.pc.AtContract? {
      assert forall k :: 0 <= k < m.pc.i ==> RowKey(m.scope, m.plan.contracts[k].agent.agentId) in w.contracts;
      ListedHasGoal(m.plan.contracts, m.pc.i);
    }
  }

  lemma RowStaysSound(w: World, w': World, key: RowKey, row: Row)
    requires RowSound(w, key, row) && w.acks <= w'.acks && w.nextId <= w'.nextId
    requires w.decided <= w'.decided && w.now <= w'.now
    ensures RowSound(w', key, row)
  {
    var plan :| Decided(key.scope, plan) in w.decided && Follows(key, row, plan);
    assert Decided(key.scope, plan) in w'.decided;
  }

  lemma BoundRowIsSound(w: World, key: RowKey, row: Row, scope: Scope, waitingOn: string)
    requires RowSound(w, key, row)
    ensures RowSound(w, key, BoundRow(key, row, scope, waitingOn))
  {
    var plan :| Decided(key.scope, plan) in w.decided && Follows(key, row, plan);
    assert Follows(key, BoundRow(key, row, scope, waitingOn), plan);
  }

  lemma AckedRowIsSound(w: World, key: RowKey, row: Row, messageId: nat)
    requires RowSound(w, key, row) && messageId < |w.acks| && w.acks[messageId].id == row.id
    ensures RowSound(w, key, row.(ack := Some(Record(messageId, w.now))))
  {
    var plan :| Decided(key.scope, plan) in w.decided && Follows(key, row, plan);
    assert Follows(key, row.(ack := Some(Record(messageId, w.now))), plan);
  }

  lemma InsertedRowIsSound(window: nat, w: World, m: Delivery, call: Call)
    requires Fits(w, m, call) && DeliverySound(w, m) && call.CreateContract? && call.outcome != Lost
    requires KeyOf(m) !in w.contracts
    ensures var w' := Effect(window, w, m, call);
      KeyOf(m) in w'.contracts && RowSound(w', KeyOf(m), w'.contracts[KeyOf(m)])
  {
    NewRowFollows(w, m, call);
    var w' := Effect(window, w, m, call);
    assert Decided(m.scope, m.plan) in w'.decided && Follows(KeyOf(m), w'.contracts[KeyOf(m)], m.plan);
  }

  lemma EffectKeepsRow(window: nat, w: World, m: Delivery, call: Call, key: RowKey)
    requires RowsSound(w) && Fits(w, m, call) && DeliverySound(w, m)
    requires key in Effect(window, w, m, call).contracts
    ensures RowSound(Effect(window, w, m, call), key, Effect(window, w, m, call).contracts[key])
  {
    EffectGrows(window, w, m, call);
    if key !in w.contracts {
      InsertedRowIsSound(window, w, m, call);
    } else {
      var w', row := Effect(window, w, m, call), w.contracts[key];
      assert RowSound(w, key, row);
      RowStaysSound(w, w', key, row);
      if call.Bind? {
        BoundRowIsSound(w', key, row, m.scope, m.plan.primary.agentId);
      } else if call.RecordAck? && row.id == m.pc.id {
        AckedRowIsSound(w', key, row, m.pc.messageId);
      }
    }
  }

  lemma EffectKeepsIds(window: nat, w: World, m: Delivery, call: Call)
    requires RowsSound(w) && IdsUnique(w) && Fits(w, m, call)
    ensures IdsUnique(Effect(window, w, m, call))
  {
    EffectGrows(window, w, m, call);
    forall key | key in w.contracts ensures w.contracts[key].id < w.nextId {
      assert RowSound(w, key, w.contracts[key]);
    }
  }

  lemma TaskStaysSound(w: World, w': World, task: string)
    requires TaskSound(w, task) && Grows(w, w')
    ensures TaskSound(w', task)
  {
    var dec :| dec in w.decided && task == TaskFor(dec.scope, dec.plan.primary.agentId)
      && AllCovered(w, dec.scope, dec.plan);
    assert dec in w'.decided && AllCovered(w', dec.scope, dec.plan);
  }

  lemma EffectKeepsTasks(window: nat, w: World, m: Delivery, call: Call)
    requires TasksSound(w) && Fits(w, m, call) && DeliverySound(w, m)
    ensures TasksSound(Effect(window, w, m, call))
  {
    var w' := Effect(window, w, m, call);
    EffectGrows(window, w, m, call);
    forall task | task in w'.tasks ensures TaskSound(w', task) {
      if task in w.tasks {
        TaskStaysSound(w, w', task);
      } else {
        assert Decided(m.scope, m.plan) in w'.decided && AllCovered(w', m.scope, m.plan);
      }
    }
  }

  lemma RowStays(w: World, w': World, id: nat)
    requires HasRow(w, id) && Grows(w, w')
    ensures HasRow(w', id)
  {
    var key :| key in w.contracts && w.contracts[key].id == id;
    assert w'.contracts[key].id == id;
  }

  lemma EffectKeepsAcks(window: nat, w: World, m: Delivery, call: Call)
    requires AcksSound(window, w) && Fits(w, m, call) && DeliverySound(w, m)
    ensures AcksSound(window, Effect(window, w, m, call))
  {
    var w' := Effect(window, w, m, call);
    EffectGrows(window, w, m, call);
    forall i | 0 <= i < |w'.acks| ensures HasRow(w', w'.acks[i].id) && w'.acks[i].at <= w'.now {
      if i < |w.acks| {
        RowStays(w, w', w.acks[i].id);
      } else {
        assert w'.contracts[OwnKey(m)].id == w'.acks[i].id;
      }
    }
    if call.SendAck? && w'.acks != w.acks {
      assert forall i :: 0 <= i < |w.acks| ==> !IsKnown(window, w.acks[i], m.pc.id, w.now);
    }
  }

  lemma DeliveryStaysSound(window: nat, w: World, m: Delivery, call: Call, other: Delivery)
    requires Fits(w, m, call) && DeliverySound(w, other)
    ensures DeliverySound(Effect(window, w, m, call), other)
  {
    EffectGrows(window, w, m, call);
  }

  lemma NextIsSound(window: nat, w: World, m: Delivery, call: Call)
    requires Fits(w, m, call) && DeliverySound(w, m)
    ensures DeliverySound(Effect(window, w, m, call), m.(pc := Next(window, w, m, call)))
  {
    EffectGrows(window, w, m, call);
  }

  lemma SoundIgnoresDeliveries(w: World, w': World, m: Delivery)
    requires DeliverySound(w, m) && w' == w.(deliveries := w'.deliveries)
    ensures DeliverySound(w', m)
  {
  }

  /** The tables do not depend on who is on the way. */
  lemma StoresIgnoreDeliveries(window: nat, w: World, w': World)
    requires w' == w.(deliveries := w'.deliveries)
    requires RowsSound(w) && IdsUnique(w) && TasksSound(w) && AcksSound(window, w)
    ensures RowsSound(w') && IdsUnique(w') && TasksSound(w') && AcksSound(window, w')
  {
    forall key | key in w'.contracts ensures RowSound(w', key, w'.contracts[key]) {
      assert RowSound(w, key, w.contracts[key]);
      RowStaysSound(w, w', key, w.contracts[key]);
    }
    forall task | task in w'.tasks ensures TaskSound(w', task) {
      assert TaskSound(w, task);
      var dec :| dec in w.decided && task == TaskFor(dec.scope, dec.plan.primary.agentId)
        && AllCovered(w, dec.scope, dec.plan);
      assert AllCovered(w', dec.scope, dec.plan);
    }
    assert forall id :: HasRow(w, id) ==> HasRow(w', id);
  }

  lemma EffectKeepsStores(window: nat, w: World, m: Delivery, call: Call)
    requires Inv(window, w) && Fits(w, m, call) && DeliverySound(w, m)
    ensures var w' := Effect(window, w, m, call);
      RowsSound(w') && IdsUnique(w') && TasksSound(w') && AcksSound(window, w')
  {
    forall key | key in Effect(window, w, m, call).contracts
      ensures RowSound(Effect(window, w, m, call), key, Effect(window, w, m, call).contracts[key])
    {
      EffectKeepsRow(window, w, m, call, key);
    }
    EffectKeepsIds(window, w, m, call);
    EffectKeepsTasks(window, w, m, call);
    EffectKeepsAcks(window, w, m, call);
  }

  lemma OwnStepKeepsDeliveries(window: nat, w: World, d: nat, call: Call)
    requires DeliveriesSound(w) && Enabled(w, Own(d, call))
    ensures DeliveriesSound(Apply(window, w, Own(d, call)))
  {
    var m := w.deliveries[d];
    var stores, w' := Effect(window, w, m, call), Apply(window, w, Own(d, call));
    forall e | e in w'.deliveries ensures DeliverySound(w', w'.deliveries[e]) {
      if e == d {
        NextIsSound(window, w, m, call);
      } else {
        DeliveryStaysSound(window, w, m, call, w.deliveries[e]);
      }
      SoundIgnoresDeliveries(stores, w', w'.deliveries[e]);
    }
  }

  lemma OwnStepKeepsInv(window: nat, w: World, d: nat, call: Call)
    requires Inv(window, w) && Enabled(w, Own(d, call))
    ensures Inv(window, Apply(window, w, Own(d, call)))
  {
    EffectKeepsStores(window, w, w.deliveries[d], call);
    EffectGrows(window, w, w.deliveries[d], call);
    StoresIgnoreDeliveries(window, Effect(window, w, w.deliveries[d], call), Apply(window, w, Own(d, call)));
    OwnStepKeepsDeliveries(window, w, d, call);
  }

  /** Steps of the surroundings change a row in its status only. */
  lemma OtherStepKeepsRow(window: nat, w: World, step: Step, key: RowKey)
    requires RowsSound(w) && Enabled(w, step) && !step.Own? && key in Apply(window, w, step).contracts
    ensures RowSound(Apply(window, w, step), key, Apply(window, w, step).contracts[key])
  {
    var w', row := Apply(window, w, step), w.contracts[key];
    StepGrows(window, w, step);
    assert RowSound(w, key, row);
    RowStaysSound(w, w', key, row);
    var plan :| Decided(key.scope, plan) in w'.decided && Follows(key, row, plan);
    assert Follows(key, w'.contracts[key], plan);
  }

  lemma OtherStepKeepsStores(window: nat, w: World, step: Step)
    requires Inv(window, w) && Enabled(w, step) && !step.Own?
    ensures var w' := Apply(window, w, step); IdsUnique(w') && TasksSound(w') && AcksSound(window, w')
  {
    var w' := Apply(window, w, step);
    StepGrows(window, w, step);
    forall task | task in w'.tasks ensures TaskSound(w', task) {
      TaskStaysSound(w, w', task);
    }
    forall i | 0 <= i < |w'.acks| ensures HasRow(w', w'.acks[i].id) {
      RowStays(w, w', w.acks[i].id);
    }
  }

  lemma OtherStepKeepsDeliveries(window: nat, w: World, step: Step)
    requires DeliveriesSound(w) && Enabled(w, step) && !step.Own?
    ensures DeliveriesSound(Apply(window, w, step))
  {
    var w' := Apply(window, w, step);
    forall e | e in w'.deliveries ensures DeliverySound(w', w'.deliveries[e]) {
      assert e in w.deliveries ==> DeliverySound(w, w.deliveries[e]);
    }
  }

  lemma StepKeepsInv(window: nat, w: World, step: Step)
    requires Inv(window, w) && Enabled(w, step)
    ensures Inv(window, Apply(window, w, step))
  {
    if step.Own? {
      OwnStepKeepsInv(window, w, step.d, step.call);
    } else {
      forall key | key in Apply(window, w, step).contracts
        ensures RowSound(Apply(window, w, step), key, Apply(window, w, step).contracts[key])
      {
        OtherStepKeepsRow(window, w, step, key);
      }
      OtherStepKeepsStores(window, w, step);
      OtherStepKeepsDeliveries(window, w, step);
    }
  }

  lemma GrowsTransitive(a: World, b: World, c: World)
    requires Grows(a, b) && Grows(b, c)
    ensures Grows(a, c)
  {
    forall key | key in a.contracts ensures key in c.contracts && RowGrows(a.contracts[key], c.contracts[key]) {
      assert RowGrows(a.contracts[key], b.contracts[key]);
    }
  }

  lemma {:induction false} RunKeepsInv(window: nat, w: World, steps: seq<Step>)
    requires Inv(window, w) && IsRun(window, w, steps)
    ensures Inv(window, After(window, w, steps)) && Grows(w, After(window, w, steps))
    decreases |steps|
  {
    if steps != [] {
      var next := Apply(window, w, steps[0]);
      StepKeepsInv(window, w, steps[0]);
      StepGrows(window, w, steps[0]);
      RunKeepsInv(window, next, steps[1..]);
      GrowsTransitive(w, next, After(window, next, steps[1..]));
    }
  }

  lemma ReachableInv(window: nat, w: World)
    requires Reachable(window, w)
    ensures Inv(window, w)
  {
    var now :| Reaches(window, Initial(now), w);
    var steps :| IsRun(window, Initial(now), steps) && After(window, Initial(now), steps) == w;
    RunKeepsInv(window, Initial(now), steps);
  }

  lemma ReachesGrows(window: nat, w: World, w': World)
    requires Reachable(window, w) && Reaches(window, w, w')
    ensures Inv(window, w) && Inv(window, w') && Grows(w, w')
  {
    ReachableInv(window, w);
    var steps :| IsRun(window, w, steps) && After(window, w, steps) == w';
    RunKeepsInv(window, w, steps);
  }

  // ---- Contracts and tasks over all runs ----

  /** All deliveries of the message so far carried this plan. */
  predicate OnePlan(w: World, scope: Scope, plan: Plan) {
    forall dec :: dec in w.decided && dec.scope == scope ==> dec.plan == plan
  }

  /** All deliveries of the message so far let the same agent lead. */
  predicate OneLead(w: World, scope: Scope, agentId: string) {
    forall dec :: dec in w.decided && dec.scope == scope ==> dec.plan.primary.agentId == agentId
  }

  /** The task of a leading agent never exists without the contracts of a plan that lets it lead. */
  lemma NoTaskWithoutItsContracts(window: nat, w: World, scope: Scope, agentId: string) returns (plan: Plan)
    requires Reachable(window, w) && ProperScope(scope) && TaskFor(scope, agentId) in w.tasks
    ensures Decided(scope, plan) in w.decided && plan.primary.agentId == agentId
    ensures forall spec :: spec in plan.contracts ==> RowKey(scope, spec.agent.agentId) in w.contracts
  {
    ReachableInv(window, w);
    assert TaskSound(w, TaskFor(scope, agentId));
    var dec :| dec in w.decided && TaskFor(scope, agentId) == TaskFor(dec.scope, dec.plan.primary.agentId)
      && AllCovered(w, dec.scope, dec.plan);
    TaskIdsAreDistinct(scope, agentId, dec.scope, dec.plan.primary.agentId);
    plan := dec.plan;
    CoveredMeansAll(w, scope, plan);
  }

  lemma CoveredMeansAll(w: World, scope: Scope, plan: Plan)
    requires AllCovered(w, scope, plan)
    ensures forall spec :: spec in plan.contracts ==> RowKey(scope, spec.agent.agentId) in w.contracts
  {
  }

  /** Every contract says what some delivery of its message decided, and is bound to that primary's task or to none. */
  lemma ContractsFollowADecision(window: nat, w: World, key: RowKey) returns (plan: Plan)
    requires Reachable(window, w) && key in w.contracts
    ensures Decided(key.scope, plan) in w.decided && Follows(key, w.contracts[key], plan)
    ensures w.contracts[key].primaryTask.Some? ==>
      w.contracts[key].primaryTask.value == TaskFor(key.scope, plan.primary.agentId)
    ensures forall other :: other in w.contracts && w.contracts[other].id == w.contracts[key].id ==> other == key
  {
    ReachableInv(window, w);
    assert RowSound(w, key, w.contracts[key]);
    plan :| Decided(key.scope, plan) in w.decided && Follows(key, w.contracts[key], plan);
  }

  /** If all deliveries of a message carried one plan, every contract follows it, whoever wrote it. */
  lemma ContractsFollowThePlan(window: nat, w: World, key: RowKey, plan: Plan)
    requires Reachable(window, w) && key in w.contracts && OnePlan(w, key.scope, plan)
    ensures Follows(key, w.contracts[key], plan)
    ensures w.contracts[key].primaryTask.Some? ==>
      w.contracts[key].primaryTask.value == TaskFor(key.scope, plan.primary.agentId)
  {
    var decided := ContractsFollowADecision(window, w, key);
    assert decided == plan;
  }

  predicate IsBoundTo(w: World, scope: Scope, agentId: string, lead: string) {
    && RowKey(scope, agentId) in w.contracts
    && w.contracts[RowKey(scope, agentId)].primaryTask == Some(TaskFor(scope, lead))
  }

  predicate AboutToBind(w: World, d: nat) {
    d in w.deliveries && w.deliveries[d].pc.AtPrimaryBind?
  }

  /** The primary's bind binds a contract of its plan exactly if the row waits on this primary. */
  lemma PrimaryBindBindsExactly(window: nat, w: World, d: nat, outcome: Outcome, spec: ContractSpec)
    requires Reachable(window, w) && AboutToBind(w, d) && outcome != Lost && spec in w.deliveries[d].plan.contracts
    ensures var m := w.deliveries[d];
      var lead, key := m.plan.primary.agentId, RowKey(m.scope, spec.agent.agentId);
      && key in w.contracts
      && (IsBoundTo(Apply(window, w, Own(d, Bind(outcome))), m.scope, spec.agent.agentId, lead) <==>
            w.contracts[key].waitingOnAgentId == lead)
  {
    ReachableInv(window, w);
    var m := w.deliveries[d];
    assert DeliverySound(w, m);
    CoveredMeansAll(w, m.scope, m.plan);
    var row := w.contracts[RowKey(m.scope, spec.agent.agentId)];
    assert RowSound(w, RowKey(m.scope, spec.agent.agentId), row);
    TaskIdsAreDistinct(m.scope, row.waitingOnAgentId, m.scope, m.plan.primary.agentId);
  }

  /**
   * Once the primary's bind took effect, all contracts of its plan are bound to its task for
   * good, if all deliveries up to then let the same agent lead; later ones may decide anything.
   */
  lemma BoundForGood(window: nat, w: World, d: nat, outcome: Outcome, w': World)
    requires Reachable(window, w) && AboutToBind(w, d) && outcome != Lost
    requires OneLead(w, w.deliveries[d].scope, w.deliveries[d].plan.primary.agentId)
    requires Reaches(window, Apply(window, w, Own(d, Bind(outcome))), w')
    ensures var m := w.deliveries[d];
      forall spec :: spec in m.plan.contracts ==> IsBoundTo(w', m.scope, spec.agent.agentId, m.plan.primary.agentId)
  {
    var m, bound := w.deliveries[d], Apply(window, w, Own(d, Bind(outcome)));
    StepReachable(window, w, Own(d, Bind(outcome)));
    ReachesGrows(window, bound, w');
    forall spec | spec in m.plan.contracts
      ensures IsBoundTo(w', m.scope, spec.agent.agentId, m.plan.primary.agentId)
    {
      var key := RowKey(m.scope, spec.agent.agentId);
      PrimaryBindBindsExactly(window, w, d, outcome, spec);
      var plan := ContractsFollowADecision(window, w, key);
      assert RowGrows(bound.contracts[key], w'.contracts[key]);
    }
  }

  // ---- Reaching states ----

  lemma ReachesItself(window: nat, w: World)
    ensures Reaches(window, w, w)
  {
    assert IsRun(window, w, []) && After(window, w, []) == w;
  }

  lemma {:induction false} RunConcat(window: nat, w: World, first: seq<Step>, second: seq<Step>)
    requires IsRun(window, w, first) && IsRun(window, After(window, w, first), second)
    ensures IsRun(window, w, first + second)
    ensures After(window, w, first + second) == After(window, After(window, w, first), second)
    decreases |first|
  {
    if first == [] {
      assert first + second == second;
    } else {
      RunConcat(window, Apply(window, w, first[0]), first[1..], second);
      assert (first + second)[1..] == first[1..] + second;
    }
  }

  lemma ReachesFurther(window: nat, origin: World, w: World, steps: seq<Step>)
    requires Reaches(window, origin, w) && IsRun(window, w, steps)
    ensures Reaches(window, origin, After(window, w, steps))
  {
    var first :| IsRun(window, origin, first) && After(window, origin, first) == w;
    RunConcat(window, origin, first, steps);
  }

  lemma ReachesTransitive(window: nat, a: World, b: World, c: World)
    requires Reaches(window, a, b) && Reaches(window, b, c)
    ensures Reaches(window, a, c)
  {
    var second :| IsRun(window, b, second) && After(window, b, second) == c;
    ReachesFurther(window, a, b, second);
  }

  lemma Extend(window: nat, origin: World, w: World, step: Step) returns (w': World)
    requires Reaches(window, origin, w) && Enabled(w, step)
    ensures w' == Apply(window, w, step) && Reaches(window, origin, w')
  {
    w' := Apply(window, w, step);
    assert [step][1..] == [];
    assert IsRun(window, w', []) && After(window, w', []) == w';
    ReachesFurther(window, origin, w, [step]);
  }

  lemma StepReachable(window: nat, w: World, step: Step)
    requires Reachable(window, w) && Enabled(w, step)
    ensures Reachable(window, Apply(window, w, step))
  {
    var now :| Reaches(window, Initial(now), w);
    var w' := Extend(window, Initial(now), w, step);
  }

  predicate Stands(w: World, d: nat, scope: Scope, agentId: string, plan: Plan, pc: Pc) {
    d in w.deliveries && w.deliveries[d] == Delivery(scope, agentId, plan, pc)
  }

  // ---- Recovery ----

  lemma {:induction false} ContractsGetWritten(
    window: nat, origin: World, w: World, d: nat, scope: Scope, plan: Plan, i: nat)
      returns (w': World)
    requires Reaches(window, origin, w) && i <= |plan.contracts|
    requires Stands(w, d, scope, plan.primary.agentId, plan, AtContract(i))
    ensures Reaches(window, origin, w') && w'.decided == w.decided
    ensures Stands(w', d, scope, plan.primary.agentId, plan, AtContract(|plan.contracts|))
    decreases |plan.contracts| - i
  {
    if i == |plan.contracts| {
      w' := w;
    } else {
      w' := Extend(window, origin, w, Own(d, CreateContract(Works)));
      w' := ContractsGetWritten(window, origin, w', d, scope, plan, i + 1);
    }
  }

  /**
   * Whatever went wrong before, one fault-free delivery to the primary leaves the task with all
   * contracts of its plan, each bound to it exactly if it waits on this primary. All are, if no
   * earlier delivery let another agent lead.
   */
  lemma PrimaryRedeliveryCompletesTheRelay(window: nat, w: World, d: nat, scope: Scope, plan: Plan) returns (w': World)
    requires Reachable(window, w) && ProperScope(scope) && d !in w.deliveries
    ensures Reaches(window, w, w') && TaskFor(scope, plan.primary.agentId) in w'.tasks
    ensures forall spec :: spec in plan.contracts ==>
      && RowKey(scope, spec.agent.agentId) in w'.contracts
      && (IsBoundTo(w', scope, spec.agent.agentId, plan.primary.agentId) <==>
            w'.contracts[RowKey(scope, spec.agent.agentId)].waitingOnAgentId == plan.primary.agentId)
    ensures OneLead(w, scope, plan.primary.agentId) ==>
      forall spec :: spec in plan.contracts ==> IsBoundTo(w', scope, spec.agent.agentId, plan.primary.agentId)
  {
    var lead := plan.primary.agentId;
    ReachesItself(window, w);
    var begun := Extend(window, w, w, Deliver(d, scope, lead, plan));
    var written := ContractsGetWritten(window, w, begun, d, scope, plan, 0);
    var started := Extend(window, w, written, Own(d, CreateTask(Created)));
    w' := Extend(window, w, started, Own(d, Bind(Works)));
    var now :| Reaches(window, Initial(now), w);
    ReachesTransitive(window, Initial(now), w, started);
    forall spec | spec in plan.contracts
      ensures RowKey(scope, spec.agent.agentId) in w'.contracts
      ensures IsBoundTo(w', scope, spec.agent.agentId, lead) <==>
        w'.contracts[RowKey(scope, spec.agent.agentId)].waitingOnAgentId == lead
    {
      PrimaryBindBindsExactly(window, started, d, Works, spec);
    }
    if OneLead(w, scope, lead) {
      ReachesItself(window, w');
      BoundForGood(window, started, d, Works, w');
    }
  }

  /** From the lookup on, a fault-free deferred delivery posts its ack, or finds it, and records it. */
  lemma AckGetsPosted(window: nat, w: World, d: nat, scope: Scope, agentId: string, plan: Plan, id: nat, readAt: int)
      returns (w': World)
    requires Stands(w, d, scope, agentId, plan, AtLookup(id, readAt)) && ReadNoAck(w, w.deliveries[d], id, readAt)
    ensures Reaches(window, w, w')
    ensures RowKey(scope, agentId) in w'.contracts && w'.contracts[RowKey(scope, agentId)].ack.Some?
  {
    ReachesItself(window, w);
    var looked := Extend(window, w, w, Own(d, FindTask(true)));
    if looked.deliveries[d].pc.AtBind? {
      looked := Extend(window, w, looked, Own(d, Bind(Works)));
    }
    var sent := Extend(window, w, looked, Own(d, SendAck(Works)));
    w' := Extend(window, w, sent, Own(d, RecordAck(Works)));
  }

  /** Whatever went wrong before, one fault-free deferred delivery leaves its ack visible and recorded. */
  lemma DeferredRedeliveryShowsTheAck(window: nat, w: World, d: nat, scope: Scope, agentId: string, plan: Plan)
      returns (w': World)
    requires Reachable(window, w) && ProperScope(scope) && d !in w.deliveries
    requires HasPart(plan, agentId) && agentId != plan.primary.agentId
    ensures Reaches(window, w, w') && RowKey(scope, agentId) in w'.contracts
    ensures var row := w'.contracts[RowKey(scope, agentId)];
      row.ack.Some? && row.ack.value.messageId < |w'.acks| && w'.acks[row.ack.value.messageId].id == row.id
  {
    var key := RowKey(scope, agentId);
    ReachesItself(window, w);
    var begun := Extend(window, w, w, Deliver(d, scope, agentId, plan));
    var inserted := Extend(window, w, begun, Own(d, CreateContract(Works)));
    if key in w.contracts {
      inserted := Extend(window, w, inserted, Own(d, ReadContract(true)));
    }
    if key in w.contracts && w.contracts[key].ack.Some? {
      w' := inserted;
    } else {
      w' := AckGetsPosted(window, inserted, d, scope, agentId, plan, inserted.contracts[key].id, w.now);
      ReachesTransitive(window, w, inserted, w');
    }
    var now :| Reaches(window, Initial(now), w);
    ReachesTransitive(window, Initial(now), w, w');
    RecordedAckIsVisible(window, w', key);
  }

  // ---- Acks over all runs ----

  /** The recorded ack is a visible ack of that contract. */
  lemma RecordedAckIsVisible(window: nat, w: World, key: RowKey)
    requires Reachable(window, w) && key in w.contracts && w.contracts[key].ack.Some?
    ensures var row := w.contracts[key];
      row.ack.value.messageId < |w.acks| && w.acks[row.ack.value.messageId].id == row.id
  {
    ReachableInv(window, w);
    assert RowSound(w, key, w.contracts[key]);
  }

  /** Every ack belongs to a contract, and two of one contract are further apart than the chat remembers. */
  lemma AcksOfAContractAreApart(window: nat, w: World, i: nat, j: nat)
    requires Reachable(window, w) && i < j < |w.acks|
    ensures HasRow(w, w.acks[i].id)
    ensures w.acks[i].id == w.acks[j].id ==> w.acks[j].at - w.acks[i].at > window
  {
    ReachableInv(window, w);
  }
}
