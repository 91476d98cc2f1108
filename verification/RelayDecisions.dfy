/**
 * When all deliveries of a message carry one plan (apps/api/src/server.ts:1282, 1413-1455;
 * packages/orchestrator/src/mention-routing-classifier.ts:209-246): each delivery decides
 * again, and the shared answer of the LLM lives in one process for a limited time.
 */
module RelayDecisions {
  import opened Wrappers
  import opened MentionOrder
  import opened MentionRouting
  import Memo = MentionMemo
  import opened WaitingContracts

  ghost predicate Decides(event: Event, roster: seq<Participant>, decide: Option<string> -> Route, plan: Plan) {
    IsConcerted(event, roster, decide, plan.primary, plan.contracts)
  }

  /** A concerted decision is concerted about one plan only. */
  lemma OneDecisionOnePlan(event: Event, roster: seq<Participant>, decide: Option<string> -> Route, p: Plan, q: Plan)
    requires DistinctAgents(roster) && Decides(event, roster, decide, p) && Decides(event, roster, decide, q)
    ensures p == q
  {
    var id := p.primary.agentId;
    assert id != q.primary.agentId ==> AgreesOn(decide(Some(id)), q.primary, GoalFor(q.contracts, id));
    assert decide(Some(id)).ContinueAsPrimary?;
    var i :| 0 <= i < |roster| && roster[i] == p.primary;
    var j :| 0 <= j < |roster| && roster[j] == q.primary;
    assert i == j;
  }

  /** How the k-th delivery that asks the memo decides. */
  function DeciderAt(
    enabled: bool, event: Event, reading: Reading, roster: seq<Participant>,
    asks: seq<Memo.Ask>, ttlMs: int, k: nat): Option<string> -> Route
    requires k < |asks|
  {
    Decider(enabled, event, reading, roster, Memo.Answer(asks, ttlMs, k))
  }

  /** The k-th call asks for the message of the first, within the ttl of its classification. */
  predicate SharesWith(asks: seq<Memo.Ask>, ttlMs: int, first: nat, k: nat) {
    && first <= k < |asks|
    && asks[k].key == asks[first].key
    && asks[k].now - Memo.After(map[], asks[..first + 1], ttlMs)[asks[first].key].at <= ttlMs
  }

  ghost predicate DecidedIn(
    enabled: bool, event: Event, reading: Reading, roster: seq<Participant>,
    asks: seq<Memo.Ask>, ttlMs: int, first: nat, plan: Plan)
  {
    exists k :: SharesWith(asks, ttlMs, first, k)
      && Decides(event, roster, DeciderAt(enabled, event, reading, roster, asks, ttlMs, k), plan)
  }

  lemma PlansWithinTheTtlAgree(
    enabled: bool, event: Event, reading: Reading, roster: seq<Participant>,
    asks: seq<Memo.Ask>, ttlMs: int, first: nat, p: Plan, q: Plan)
    requires DistinctAgents(roster) && Memo.IsMonotone(asks)
    requires DecidedIn(enabled, event, reading, roster, asks, ttlMs, first, p)
    requires DecidedIn(enabled, event, reading, roster, asks, ttlMs, first, q)
    ensures p == q
  {
    var i :| SharesWith(asks, ttlMs, first, i)
      && Decides(event, roster, DeciderAt(enabled, event, reading, roster, asks, ttlMs, i), p);
    var j :| SharesWith(asks, ttlMs, first, j)
      && Decides(event, roster, DeciderAt(enabled, event, reading, roster, asks, ttlMs, j), q);
    Memo.DeliveriesShareTheDecision(asks, ttlMs, first, i);
    Memo.DeliveriesShareTheDecision(asks, ttlMs, first, j);
    OneDecisionOnePlan(event, roster, DeciderAt(enabled, event, reading, roster, asks, ttlMs, first), p, q);
  }

  /**
   * All deliveries of a message carry one plan if each decided in the same process, within the
   * ttl of the message's classification, on the same text and roster. This is the condition of
   * WaitingContracts.ContractsFollowThePlan, and it implies the one of BoundForGood.
   */
  lemma OnePlanWithinTheTtl(
    w: World, scope: Scope, enabled: bool, event: Event, reading: Reading, roster: seq<Participant>,
    asks: seq<Memo.Ask>, ttlMs: int, first: nat, plan: Plan)
    requires DistinctAgents(roster) && Memo.IsMonotone(asks)
    requires forall dec :: dec in w.decided && dec.scope == scope ==>
      DecidedIn(enabled, event, reading, roster, asks, ttlMs, first, dec.plan)
    requires Decided(scope, plan) in w.decided
    ensures OnePlan(w, scope, plan) && OneLead(w, scope, plan.primary.agentId)
  {
    forall dec | dec in w.decided && dec.scope == scope ensures dec.plan == plan {
      PlansWithinTheTtlAgree(enabled, event, reading, roster, asks, ttlMs, first, dec.plan, plan);
    }
  }

  // ---- Two plans for one message ----

  function Agent(agentId: string): Participant {
    Participant(agentId, 0, "", "", "")
  }

  const SCOPE := Scope("T", "C", "M")

  const EVENT := Event("T", "C", "M", true, true)

  const ROSTER := [Agent("A"), Agent("B"), Agent("C")]

  /** One of the three agents is to lead and the two others are to wait. */
  function LeadBy(lead: string, one: string, other: string): LlmDecision {
    RelayTo(lead, [Deferred(one, "g", ""), Deferred(other, "h", "")])
  }

  function PlanOf(lead: string, one: string, other: string): Plan {
    Plan(Agent(lead), [ContractSpec(Agent(one), "g"), ContractSpec(Agent(other), "h")])
  }

  predicate Ordered(lead: string, one: string, other: string) {
    (lead, one, other) == ("A", "B", "C") || (lead, one, other) == ("C", "B", "A")
  }

  lemma InRoster(agentId: string)
    requires agentId == "A" || agentId == "B" || agentId == "C"
    ensures Lookup(ROSTER, agentId) == Some(Agent(agentId))
  {
    assert Agent("A") in ROSTER && Agent("B") in ROSTER && Agent("C") in ROSTER;
  }

  lemma OneMoreSpec(entry: Deferred, rest: seq<Deferred>, specs: seq<ContractSpec>)
    requires entry.agentId == "A" || entry.agentId == "B" || entry.agentId == "C"
    requires DeferredSpecs(ROSTER, rest) == Some(specs)
    ensures DeferredSpecs(ROSTER, [entry] + rest) == Some([ContractSpec(Agent(entry.agentId), entry.goal)] + specs)
  {
    InRoster(entry.agentId);
    assert ([entry] + rest)[1..] == rest;
  }

  lemma AnswerIsMapped(lead: string, one: string, other: string)
    requires Ordered(lead, one, other)
    ensures DeferredSpecs(ROSTER, LeadBy(lead, one, other).deferred) == Some(PlanOf(lead, one, other).contracts)
  {
    var wait, wait' := Deferred(one, "g", ""), Deferred(other, "h", "");
    OneMoreSpec(wait', [], []);
    assert [wait'] + [] == [wait'] && [ContractSpec(Agent(other), "h")] + [] == [ContractSpec(Agent(other), "h")];
    OneMoreSpec(wait, [wait'], [ContractSpec(Agent(other), "h")]);
    assert [wait] + [wait'] == LeadBy(lead, one, other).deferred;
    assert [ContractSpec(Agent(one), "g")] + [ContractSpec(Agent(other), "h")] == PlanOf(lead, one, other).contracts;
  }

  /** Such an answer decides on that plan. */
  lemma AnswerDecides(lead: string, one: string, other: string, reading: Reading)
    requires Ordered(lead, one, other)
    ensures Decides(EVENT, ROSTER, Decider(true, EVENT, reading, ROSTER, Some(LeadBy(lead, one, other))),
      PlanOf(lead, one, other))
  {
    var decision := LeadBy(lead, one, other);
    var decide := Decider(true, EVENT, reading, ROSTER, Some(decision));
    AnswerIsMapped(lead, one, other);
    InRoster(lead);
    assert forall id :: Some(decide(id)) == MapLlmMentionDecision(decision, EVENT, ROSTER, id);
    LlmRelayIsConcerted(decision, EVENT, ROSTER, decide);
  }

  lemma TwoAnswers(first: Memo.Ask, second: Memo.Ask, ttlMs: nat)
    requires first.key == second.key && second.now - first.now > ttlMs
    ensures Memo.Answer([first, second], ttlMs, 0) == first.answer
    ensures Memo.Answer([first, second], ttlMs, 1) == second.answer
  {
    var asks := [first, second];
    assert asks[..1] == [first] && [first][..0] == [] && asks[..2] == asks;
    assert Memo.Evicted(map[], first.now, ttlMs) == map[];
    var memo := Memo.After(map[], [first], ttlMs);
    assert memo == Memo.Classified(Memo.After(map[], [first][..0], ttlMs), first.key, first.now, ttlMs, first.answer);
    assert memo == map[first.key := Memo.Shared(first.answer, first.now)];
    assert Memo.Evicted(memo, second.now, ttlMs) == map[];
    assert Memo.After(map[], asks, ttlMs) == map[first.key := Memo.Shared(second.answer, second.now)];
  }

  /** The first answer lets A lead, the second C; B waits either way. */
  const FIRST := PlanOf("A", "B", "C")

  const SECOND := PlanOf("C", "B", "A")

  /** For one message and roster, right after the ttl, a second classification can name another primary. */
  lemma AfterTheTtlThePlanCanChange(ttlMs: nat, reading: Reading) returns (asks: seq<Memo.Ask>)
    ensures |asks| == 2 && asks[0].key == asks[1].key && asks[1].now - asks[0].now == ttlMs + 1
    ensures Decides(EVENT, ROSTER, DeciderAt(true, EVENT, reading, ROSTER, asks, ttlMs, 0), FIRST)
    ensures Decides(EVENT, ROSTER, DeciderAt(true, EVENT, reading, ROSTER, asks, ttlMs, 1), SECOND)
    ensures FIRST.primary.agentId == "A" && SECOND.primary.agentId == "C" && DistinctAgents(ROSTER)
  {
    var first := Memo.Ask("M", 0, Some(LeadBy("A", "B", "C")));
    var second := Memo.Ask("M", ttlMs + 1, Some(LeadBy("C", "B", "A")));
    asks := [first, second];
    TwoAnswers(first, second, ttlMs);
    AnswerDecides("A", "B", "C", reading);
    AnswerDecides("C", "B", "A", reading);
  }

  /** The delivery of the first plan writes both contracts and is gone. */
  lemma FirstPlanHalfDone(window: nat) returns (w: World)
    ensures Reaches(window, Initial(0), w) && w.deliveries == map[] && w.now == 0
    ensures w.decided == {Decided(SCOPE, FIRST)} && w.tasks == {}
    ensures RowKey(SCOPE, "B") in w.contracts
    ensures w.contracts[RowKey(SCOPE, "B")].waitingOnAgentId == "A" && w.contracts[RowKey(SCOPE, "B")].primaryTask.None?
  {
    ReachesItself(window, Initial(0));
    w := Extend(window, Initial(0), Initial(0), Deliver(0, SCOPE, "A", FIRST));
    w := Extend(window, Initial(0), w, Own(0, CreateContract(Works)));
    w := Extend(window, Initial(0), w, Own(0, CreateContract(Works)));
    w := Extend(window, Initial(0), w, Crash(0));
  }

  /** The delivery of the second plan finds B's contract of the first, writes the other and starts its task. */
  lemma SecondPlanStarts(window: nat, ms: nat) returns (w: World)
    ensures Reaches(window, Initial(0), w) && w.now == ms
    ensures w.decided == {Decided(SCOPE, FIRST), Decided(SCOPE, SECOND)}
    ensures Stands(w, 1, SCOPE, "C", SECOND, AtPrimaryBind) && TaskFor(SCOPE, "C") in w.tasks
    ensures RowKey(SCOPE, "B") in w.contracts
    ensures w.contracts[RowKey(SCOPE, "B")].waitingOnAgentId == "A" && w.contracts[RowKey(SCOPE, "B")].primaryTask.None?
  {
    w := FirstPlanHalfDone(window);
    w := Extend(window, Initial(0), w, Tick(ms));
    w := Extend(window, Initial(0), w, Deliver(1, SCOPE, "C", SECOND));
    w := Extend(window, Initial(0), w, Own(1, CreateContract(Works)));
    w := Extend(window, Initial(0), w, Own(1, CreateContract(Works)));
    w := Extend(window, Initial(0), w, Own(1, CreateTask(Created)));
  }

  /**
   * Then its bind works, and B's contract is bound to no task. Both plans are decisions for the
   * message (AfterTheTtlThePlanCanChange), and no others were taken.
   */
  lemma ASecondPlanLeavesAContractUnbound(window: nat, ms: nat) returns (w: World)
    ensures Reachable(window, w) && w.now == ms
    ensures w.decided == {Decided(SCOPE, FIRST), Decided(SCOPE, SECOND)}
    ensures Stands(w, 1, SCOPE, "C", SECOND, Done(true)) && TaskFor(SCOPE, "C") in w.tasks
    ensures ContractSpec(Agent("B"), "g") in SECOND.contracts
    ensures RowKey(SCOPE, "B") in w.contracts && w.contracts[RowKey(SCOPE, "B")].primaryTask.None?
  {
    w := SecondPlanStarts(window, ms);
    w := Extend(window, Initial(0), w, Own(1, Bind(Works)));
    assert SECOND.contracts[0] == ContractSpec(Agent("B"), "g");
  }
}
