/**
 * Routing of a group message that mentions several agents (apps/api/src/server.ts) and the
 * validation of the LLM's answer (packages/orchestrator/src/mention-routing-classifier.ts).
 *
 * The app of every mentioned agent receives the same message and decides alone. The theorems
 * say that the decisions fit together.
 */
module MentionRouting {
  import opened Wrappers
  import opened TaskKeys
  import opened MentionOrder

  // ---- What a delivery knows ----

  datatype Event = Event(
    tenantKey: string,
    chatId: string,
    messageId: string,
    isGroup: bool,
    isRoot: bool)

  /**
   * What the keyword patterns find in the text: where the sequence marker stands, who is
   * mentioned only as the owner of something, who is named after the marker and what is then
   * asked of them (never empty).
   */
  datatype Reading = Reading(
    marker: Option<int>,
    references: set<Participant>,
    namedAfterMarker: set<Participant>,
    asks: map<Participant, string>)

  datatype Deferred = Deferred(agentId: string, goal: string, ack: string)

  datatype LlmDecision =
    | Fanout
    | RelayTo(primaryAgentId: string, deferred: seq<Deferred>)
    | ReferTo(actorAgentIds: seq<string>, referenceAgentIds: seq<string>)

  // ---- What it decides ----

  datatype ContractSpec = ContractSpec(agent: Participant, goal: string)

  datatype Ack = Template(primary: Participant, goal: string) | Worded(text: string)

  datatype Route =
    | Continue
    | ContinueAsPrimary(primaryTaskKey: string, waitingOnAgentId: string, contracts: seq<ContractSpec>)
    | ContinueAsActor(actors: seq<Participant>, references: seq<Participant>)
    | Defer(primary: Participant, goal: string, ack: Ack)
    | Skip(reason: string)

  /** Pre-image of the primary's deterministic task id. */
  function PrimaryTaskKey(event: Event, agentId: string): string {
    Join(["relay-primary", event.tenantKey, event.chatId, event.messageId, agentId])
  }

  function RelayPrimaryContinue(event: Event, primary: Participant, contracts: seq<ContractSpec>): Route {
    ContinueAsPrimary(PrimaryTaskKey(event, primary.agentId), primary.agentId, contracts)
  }

  // ---- The keyword route ----

  datatype Relay = Relay(primary: Participant, target: Participant, ask: string)

  function ReferenceIds(reading: Reading, roster: seq<Participant>): set<string> {
    set p | p in roster && p in reading.references :: p.agentId
  }

  /** Can be the primary: mentioned before the marker and not only as a reference. */
  function MayLead(reading: Reading, roster: seq<Participant>): Participant -> bool {
    (p: Participant) =>
      && reading.marker.Some?
      && p.mentionIndex < reading.marker.value
      && p.agentId !in ReferenceIds(reading, roster)
  }

  /** Can be the target: another agent, mentioned after the marker and named there. */
  function MayFollow(reading: Reading, primary: Participant): Participant -> bool {
    (p: Participant) =>
      && reading.marker.Some?
      && p.agentId != primary.agentId
      && p.mentionIndex > reading.marker.value
      && p in reading.namedAfterMarker
  }

  function FindRelayRoute(reading: Reading, roster: seq<Participant>): Option<Relay> {
    if reading.marker.None? then None
    else
      var sorted := SortByMention(roster);
      var primary := FindLast(sorted, MayLead(reading, roster));
      if primary.None? then None
      else
        var target := FindFirst(sorted, MayFollow(reading, primary.value));
        if target.None? then None
        else if target.value !in reading.asks then None
        else Some(Relay(primary.value, target.value, reading.asks[target.value]))
  }

  function Filter(roster: seq<Participant>, keep: Participant -> bool): (r: seq<Participant>)
    ensures forall p :: p in r <==> p in roster && keep(p)
  {
    if roster == [] then []
    else (if keep(roster[0]) then [roster[0]] else []) + Filter(roster[1..], keep)
  }

  datatype Roles = Roles(actors: seq<Participant>, references: seq<Participant>)

  function ClassifyActorReferenceRoute(reading: Reading, roster: seq<Participant>): Option<Roles> {
    var references := Filter(roster, (p: Participant) => p in reading.references);
    if references == [] then None
    else
      var ids := ReferenceIds(reading, roster);
      var actors := Filter(roster, (p: Participant) => p.agentId !in ids);
      if actors == [] then None else Some(Roles(actors, references))
  }

  /** A missing or empty agent id is falsy. */
  predicate IsTruthy(id: Option<string>) {
    id.Some? && id.value != ""
  }

  predicate Among(id: Option<string>, participants: seq<Participant>) {
    id.Some? && exists p :: p in participants && p.agentId == id.value
  }

  function ReferenceRoute(roles: Roles, current: Option<string>): Route {
    if IsTruthy(current) && !Among(current, roles.actors)
    then Skip("reference_non_actor_delivery")
    else ContinueAsActor(roles.actors, roles.references)
  }

  function ClassifyMultiMentionIntake(
    enabled: bool, event: Event, reading: Reading, roster: seq<Participant>, current: Option<string>): Route
  {
    if !enabled || !event.isGroup || |roster| < 2 then Continue
    else
      var relay := if event.isRoot then FindRelayRoute(reading, roster) else None;
      if relay.Some? then
        if current == Some(relay.value.primary.agentId) then
          RelayPrimaryContinue(event, relay.value.primary, [ContractSpec(relay.value.target, relay.value.ask)])
        else if current == Some(relay.value.target.agentId) then
          Defer(relay.value.primary, relay.value.ask, Template(relay.value.primary, relay.value.ask))
        else
          Skip("relay_non_primary_delivery")
      else
        var roles := ClassifyActorReferenceRoute(reading, roster);
        if roles.Some? then ReferenceRoute(roles.value, current) else Continue
  }

  // ---- The LLM route ----

  /** A Map built from the roster: of two entries for an id the later one stands. */
  function Lookup(roster: seq<Participant>, agentId: string): (r: Option<Participant>)
    ensures r.Some? ==> r.value in roster && r.value.agentId == agentId
    ensures r.None? <==> forall p :: p in roster ==> p.agentId != agentId
  {
    FindLast(roster, (p: Participant) => p.agentId == agentId)
  }

  /** None as soon as one deferred agent is not in the roster. */
  function DeferredSpecs(roster: seq<Participant>, deferred: seq<Deferred>): Option<seq<ContractSpec>> {
    if deferred == [] then Some([])
    else
      var agent := Lookup(roster, deferred[0].agentId);
      if agent.None? then None
      else
        var rest := DeferredSpecs(roster, deferred[1..]);
        if rest.None? then None
        else Some([ContractSpec(agent.value, deferred[0].goal)] + rest.value)
  }

  function EntryOf(deferred: seq<Deferred>, id: Option<string>): Option<Deferred> {
    if deferred == [] then None
    else if id == Some(deferred[0].agentId) then Some(deferred[0])
    else EntryOf(deferred[1..], id)
  }

  function KnownAgents(roster: seq<Participant>, ids: seq<string>): seq<Participant> {
    if ids == [] then []
    else
      var agent := Lookup(roster, ids[0]);
      (if agent.Some? then [agent.value] else []) + KnownAgents(roster, ids[1..])
  }

  function MapLlmMentionDecision(
    decision: LlmDecision, event: Event, roster: seq<Participant>, current: Option<string>): Option<Route>
  {
    match decision
    case Fanout => Some(Continue)
    case RelayTo(primaryAgentId, deferred) =>
      var primary, specs := Lookup(roster, primaryAgentId), DeferredSpecs(roster, deferred);
      if primary.None? || specs.None? then None
      else if current == Some(primary.value.agentId) then
        Some(RelayPrimaryContinue(event, primary.value, specs.value))
      else
        var entry := EntryOf(deferred, current);
        if entry.None? then Some(Skip("relay_unlisted_delivery"))
        else
          var goal, text := entry.value.goal, entry.value.ack;
          Some(Defer(primary.value, goal, if text != "" then Worded(text) else Template(primary.value, goal)))
    case ReferTo(actorAgentIds, referenceAgentIds) =>
      var actors, references := KnownAgents(roster, actorAgentIds), KnownAgents(roster, referenceAgentIds);
      if actors == [] || references == [] then None
      else Some(ReferenceRoute(Roles(actors, references), current))
  }

  /** `llm` is the decision of the one memoized classification, or None without one. */
  function DecideMultiMentionIntake(
    enabled: bool, event: Event, reading: Reading, roster: seq<Participant>,
    llm: Option<LlmDecision>, current: Option<string>): Route
  {
    if !enabled || !event.isGroup || |roster| < 2 then Continue
    else
      var mapped :=
        if event.isRoot && llm.Some?
        then MapLlmMentionDecision(llm.value, event, roster, current)
        else None;
      if mapped.Some? then mapped.value
      else ClassifyMultiMentionIntake(enabled, event, reading, roster, current)
  }

  // ---- What fitting together means ----

  predicate DistinctAgents(roster: seq<Participant>) {
    forall i, j :: 0 <= i < j < |roster| ==> roster[i].agentId != roster[j].agentId
  }

  /** The first contract of an agent stands: a second insert for the same agent is ignored. */
  function GoalFor(contracts: seq<ContractSpec>, agentId: string): Option<string> {
    if contracts == [] then None
    else if contracts[0].agent.agentId == agentId then Some(contracts[0].goal)
    else GoalFor(contracts[1..], agentId)
  }

  /** Who waits, on whom and for what, as the primary and the agent itself see it. */
  predicate AgreesOn(route: Route, primary: Participant, goal: Option<string>) {
    if goal.Some? then route.Defer? && route.primary == primary && route.goal == goal.value
    else route.Skip?
  }

  /** One agent leads and says who waits for what; all the others decide exactly that. */
  ghost predicate IsConcerted(
    event: Event, roster: seq<Participant>, decide: Option<string> -> Route,
    primary: Participant, contracts: seq<ContractSpec>)
  {
    && primary in roster
    && decide(Some(primary.agentId))
      == ContinueAsPrimary(PrimaryTaskKey(event, primary.agentId), primary.agentId, contracts)
    && (forall c :: c in contracts ==> c.agent in roster)
    && (forall id: Option<string> :: id != Some(primary.agentId) ==>
          AgreesOn(decide(id), primary, if id.None? then None else GoalFor(contracts, id.value)))
  }

  /** Actors get the same task constraints, the others nothing. */
  ghost predicate IsByRole(decide: Option<string> -> Route, roles: Roles) {
    forall id: Option<string> ::
      if IsTruthy(id) && !Among(id, roles.actors) then decide(id).Skip?
      else decide(id) == ContinueAsActor(roles.actors, roles.references)
  }

  ghost predicate FitsTogether(event: Event, roster: seq<Participant>, decide: Option<string> -> Route) {
    || (forall id :: decide(id) == Continue)
    || (exists primary, contracts :: IsConcerted(event, roster, decide, primary, contracts))
    || (exists roles :: IsByRole(decide, roles))
  }

  function Decider(
    enabled: bool, event: Event, reading: Reading, roster: seq<Participant>,
    llm: Option<LlmDecision>): Option<string> -> Route
  {
    id => DecideMultiMentionIntake(enabled, event, reading, roster, llm, id)
  }

  // ---- Theorems ----

  /** The relay of the keyword route, said without sorting. */
  ghost predicate IsRelay(reading: Reading, roster: seq<Participant>, relay: Relay, i: nat, j: nat) {
    && IsLatest(roster, MayLead(reading, roster), i)
    && IsEarliest(roster, MayFollow(reading, roster[i]), j)
    && roster[j] in reading.asks
    && relay == Relay(roster[i], roster[j], reading.asks[roster[j]])
  }

  lemma RelayIsBetweenNearestMentions(reading: Reading, roster: seq<Participant>, relay: Relay)
    ensures FindRelayRoute(reading, roster) == Some(relay) <==>
      exists i: nat, j: nat :: IsRelay(reading, roster, relay, i, j)
  {
    var sorted := SortByMention(roster);
    if FindRelayRoute(reading, roster) == Some(relay) {
      var i := LastIsLatest(roster, MayLead(reading, roster));
      var j := FirstIsEarliest(roster, MayFollow(reading, roster[i]));
      assert IsRelay(reading, roster, relay, i, j);
    }
    if i: nat, j: nat :| IsRelay(reading, roster, relay, i, j) {
      FindLastPicksTheLatest(roster, MayLead(reading, roster), roster[i]);
      FindFirstPicksTheEarliest(roster, MayFollow(reading, roster[i]), roster[j]);
      assert FindLast(sorted, MayLead(reading, roster)) == Some(roster[i]);
    }
  }

  lemma RelayIsInRoster(reading: Reading, roster: seq<Participant>)
    requires FindRelayRoute(reading, roster).Some?
    ensures var relay := FindRelayRoute(reading, roster).value;
      && relay.primary in roster && relay.target in roster
      && relay.primary.agentId != relay.target.agentId
  {
    var relay := FindRelayRoute(reading, roster).value;
    assert relay.primary in multiset(SortByMention(roster)) && relay.target in multiset(SortByMention(roster));
  }

  lemma KeywordRelayIsConcerted(enabled: bool, event: Event, reading: Reading, roster: seq<Participant>)
    requires enabled && event.isGroup && |roster| >= 2 && event.isRoot
    requires FindRelayRoute(reading, roster).Some?
    ensures var relay := FindRelayRoute(reading, roster).value;
      IsConcerted(event, roster, id => ClassifyMultiMentionIntake(enabled, event, reading, roster, id),
        relay.primary, [ContractSpec(relay.target, relay.ask)])
  {
    RelayIsInRoster(reading, roster);
    var relay := FindRelayRoute(reading, roster).value;
    var contracts := [ContractSpec(relay.target, relay.ask)];
    assert GoalFor(contracts[1..], relay.primary.agentId).None?;
    assert forall id: string :: GoalFor(contracts, id) == if id == relay.target.agentId then Some(relay.ask) else None;
  }

  lemma {:induction false} SpecsAreLookups(roster: seq<Participant>, deferred: seq<Deferred>)
    requires DeferredSpecs(roster, deferred).Some?
    ensures var specs := DeferredSpecs(roster, deferred).value;
      && |specs| == |deferred|
      && (forall i :: 0 <= i < |deferred| ==>
            && Lookup(roster, deferred[i].agentId) == Some(specs[i].agent)
            && specs[i].goal == deferred[i].goal)
  {
    if deferred != [] {
      SpecsAreLookups(roster, deferred[1..]);
    }
  }

  /** Looking an agent up in the primary's contracts gives the goal of its own entry. */
  lemma {:induction false} GoalIsTheEntrysGoal(roster: seq<Participant>, deferred: seq<Deferred>, id: string)
    requires DeferredSpecs(roster, deferred).Some?
    ensures var goal, entry := GoalFor(DeferredSpecs(roster, deferred).value, id), EntryOf(deferred, Some(id));
      if entry.Some? then goal == Some(entry.value.goal) else goal.None?
  {
    if deferred != [] {
      GoalIsTheEntrysGoal(roster, deferred[1..], id);
      var specs := DeferredSpecs(roster, deferred).value;
      assert specs[1..] == DeferredSpecs(roster, deferred[1..]).value;
    }
  }

  lemma {:induction false} NobodyHasNoEntry(deferred: seq<Deferred>)
    ensures EntryOf(deferred, None).None?
  {
    if deferred != [] {
      NobodyHasNoEntry(deferred[1..]);
    }
  }

  /** An LLM relay that can be mapped at all is concerted, whatever the classifier let through. */
  lemma LlmRelayIsConcerted(
    decision: LlmDecision, event: Event, roster: seq<Participant>, decide: Option<string> -> Route)
    requires decision.RelayTo?
    requires Lookup(roster, decision.primaryAgentId).Some? && DeferredSpecs(roster, decision.deferred).Some?
    requires forall id :: Some(decide(id)) == MapLlmMentionDecision(decision, event, roster, id)
    ensures IsConcerted(event, roster, decide,
      Lookup(roster, decision.primaryAgentId).value, DeferredSpecs(roster, decision.deferred).value)
  {
    var primary, specs := Lookup(roster, decision.primaryAgentId).value, DeferredSpecs(roster, decision.deferred).value;
    assert Some(decide(Some(primary.agentId))) == Some(RelayPrimaryContinue(event, primary, specs));
    SpecsAreLookups(roster, decision.deferred);
    NobodyHasNoEntry(decision.deferred);
    forall id: Option<string> | id != Some(primary.agentId)
      ensures AgreesOn(decide(id), primary, if id.None? then None else GoalFor(specs, id.value))
    {
      assert Some(decide(id)) == MapLlmMentionDecision(decision, event, roster, id);
      if id.Some? {
        GoalIsTheEntrysGoal(roster, decision.deferred, id.value);
      }
    }
  }

  /** Falling back from the LLM's decision does not depend on who asks. */
  lemma AllFallBackOrNone(
    decision: LlmDecision, event: Event, roster: seq<Participant>, a: Option<string>, b: Option<string>)
    ensures MapLlmMentionDecision(decision, event, roster, a).None? <==>
            MapLlmMentionDecision(decision, event, roster, b).None?
  {
  }

  predicate Mappable(decision: LlmDecision, roster: seq<Participant>) {
    match decision
    case Fanout => true
    case RelayTo(primary, deferred) => Lookup(roster, primary).Some? && DeferredSpecs(roster, deferred).Some?
    case ReferTo(actors, references) => KnownAgents(roster, actors) != [] && KnownAgents(roster, references) != []
  }

  lemma KeywordDecisionsFitTogether(enabled: bool, event: Event, reading: Reading, roster: seq<Participant>)
    ensures FitsTogether(event, roster, id => ClassifyMultiMentionIntake(enabled, event, reading, roster, id))
  {
    var decide := (id: Option<string>) => ClassifyMultiMentionIntake(enabled, event, reading, roster, id);
    if !enabled || !event.isGroup || |roster| < 2 {
      assert forall id :: decide(id) == Continue;
    } else if event.isRoot && FindRelayRoute(reading, roster).Some? {
      KeywordRelayIsConcerted(enabled, event, reading, roster);
    } else if ClassifyActorReferenceRoute(reading, roster).Some? {
      assert IsByRole(decide, ClassifyActorReferenceRoute(reading, roster).value);
    } else {
      assert forall id :: decide(id) == Continue;
    }
  }

  lemma SameDecisionsFit(event: Event, roster: seq<Participant>, f: Option<string> -> Route, g: Option<string> -> Route)
    requires FitsTogether(event, roster, f) && forall id :: f(id) == g(id)
    ensures FitsTogether(event, roster, g)
  {
    if primary, contracts :| IsConcerted(event, roster, f, primary, contracts) {
      assert IsConcerted(event, roster, g, primary, contracts);
    } else if roles :| IsByRole(f, roles) {
      assert IsByRole(g, roles);
    }
  }

  /** The decisions of all deliveries of one message fit together, whatever the LLM answered. */
  lemma DecisionsFitTogether(
    enabled: bool, event: Event, reading: Reading, roster: seq<Participant>, llm: Option<LlmDecision>)
    ensures FitsTogether(event, roster, Decider(enabled, event, reading, roster, llm))
  {
    var decide := Decider(enabled, event, reading, roster, llm);
    if enabled && event.isGroup && |roster| >= 2 && event.isRoot && llm.Some? && Mappable(llm.value, roster) {
      assert forall id :: Some(decide(id)) == MapLlmMentionDecision(llm.value, event, roster, id);
      match llm.value {
        case Fanout =>
          assert forall id :: decide(id) == Continue;
        case RelayTo(_, _) =>
          LlmRelayIsConcerted(llm.value, event, roster, decide);
        case ReferTo(actors, references) =>
          assert IsByRole(decide, Roles(KnownAgents(roster, actors), KnownAgents(roster, references)));
      }
    } else {
      KeywordDecisionsFitTogether(enabled, event, reading, roster);
      SameDecisionsFit(event, roster,
        id => ClassifyMultiMentionIntake(enabled, event, reading, roster, id), decide);
    }
  }

  /** In a roster of distinct agents exactly one delivery leads a concerted relay. */
  lemma ExactlyOnePrimary(
    event: Event, roster: seq<Participant>, decide: Option<string> -> Route,
    primary: Participant, contracts: seq<ContractSpec>, p: Participant)
    requires DistinctAgents(roster) && IsConcerted(event, roster, decide, primary, contracts) && p in roster
    ensures decide(Some(p.agentId)).ContinueAsPrimary? <==> p == primary
    ensures decide(Some(p.agentId)).Defer? <==> p != primary && GoalFor(contracts, p.agentId).Some?
    ensures decide(Some(p.agentId)).Skip? <==> p != primary && GoalFor(contracts, p.agentId).None?
  {
    if p != primary {
      assert p.agentId != primary.agentId;
      assert AgreesOn(decide(Some(p.agentId)), primary, GoalFor(contracts, p.agentId));
    }
  }

  /**
   * The keyword reference route: of distinct agents exactly those mentioned as owners are
   * references, all others act, and every delivery to a reference is skipped.
   */
  lemma ReferencedAgentsStandBack(reading: Reading, roster: seq<Participant>, p: Participant)
    requires DistinctAgents(roster) && ClassifyActorReferenceRoute(reading, roster).Some?
    requires p in roster && p.agentId != ""
    ensures var roles := ClassifyActorReferenceRoute(reading, roster).value;
      && (p in roles.actors <==> p !in reading.references)
      && (p in roles.references <==> p in reading.references)
      && (ReferenceRoute(roles, Some(p.agentId)).Skip? <==> p in reading.references)
  {
    var roles := ClassifyActorReferenceRoute(reading, roster).value;
    forall q | q in roster && q.agentId == p.agentId ensures q == p {
      var i :| 0 <= i < |roster| && roster[i] == q;
      var j :| 0 <= j < |roster| && roster[j] == p;
      assert i == j;
    }
    assert p.agentId in ReferenceIds(reading, roster) <==> p in reading.references;
  }

  lemma {:induction false} KnownAgentsMembers(roster: seq<Participant>, ids: seq<string>, p: Participant)
    requires DistinctAgents(roster) && p in roster
    ensures p in KnownAgents(roster, ids) <==> p.agentId in ids
    ensures Among(Some(p.agentId), KnownAgents(roster, ids)) <==> p.agentId in ids
  {
    if ids != [] {
      KnownAgentsMembers(roster, ids[1..], p);
      SameIdSameAgent(roster, p, ids[0]);
    }
  }

  /** In a roster of distinct agents an id finds its agent. */
  lemma SameIdSameAgent(roster: seq<Participant>, p: Participant, id: string)
    requires DistinctAgents(roster) && p in roster
    ensures id == p.agentId ==> Lookup(roster, id) == Some(p)
  {
    var i :| 0 <= i < |roster| && roster[i] == p;
    var found := Lookup(roster, p.agentId);
    if found.Some? {
      var j :| 0 <= j < |roster| && roster[j] == found.value;
      assert i == j;
    }
  }

  /** The LLM's reference route continues exactly the agents it names as actors. */
  lemma LlmActorsAct(decision: LlmDecision, event: Event, roster: seq<Participant>, p: Participant)
    requires DistinctAgents(roster) && p in roster && p.agentId != ""
    requires decision.ReferTo? && MapLlmMentionDecision(decision, event, roster, Some(p.agentId)).Some?
    ensures var route := MapLlmMentionDecision(decision, event, roster, Some(p.agentId)).value;
      if p.agentId in decision.actorAgentIds then route.ContinueAsActor? && p in route.actors else route.Skip?
  {
    KnownAgentsMembers(roster, decision.actorAgentIds, p);
  }

  // ---- The validated answer of the LLM ----

  /** A deferred entry as the model wrote it; `code` is the roster code it names, if any. */
  datatype RawEntry = NotAnObject | RawEntry(code: Option<nat>, goal: string, ack: string)

  const MAX_ACK_CHARS := 200

  function Clip(text: string): string {
    if |text| > MAX_ACK_CHARS then text[..MAX_ACK_CHARS] else text
  }

  /** `agent_k` names the k-th agent of the roster. */
  predicate Names(roster: seq<Participant>, code: Option<nat>) {
    code.Some? && 1 <= code.value <= |roster|
  }

  function Named(roster: seq<Participant>, code: Option<nat>): Participant
    requires Names(roster, code)
  {
    roster[code.value - 1]
  }

  predicate GoodEntry(roster: seq<Participant>, entry: RawEntry) {
    entry.RawEntry? && Names(roster, entry.code) && entry.goal != ""
  }

  function Target(roster: seq<Participant>, entry: RawEntry): Participant
    requires GoodEntry(roster, entry)
  {
    Named(roster, entry.code)
  }

  /** Every agent of the roster has exactly one part: the primary or one deferred entry. */
  ghost predicate PartsWholeRoster(roster: seq<Participant>, primary: Participant, entries: seq<RawEntry>)
    requires forall i :: 0 <= i < |entries| ==> GoodEntry(roster, entries[i])
  {
    && (forall i :: 0 <= i < |entries| ==> Target(roster, entries[i]).agentId != primary.agentId)
    && (forall i, j :: 0 <= i < j < |entries| ==>
          Target(roster, entries[i]).agentId != Target(roster, entries[j]).agentId)
    && (forall p :: p in roster ==>
          || p.agentId == primary.agentId
          || exists i :: 0 <= i < |entries| && Target(roster, entries[i]).agentId == p.agentId)
  }

  function Entry(roster: seq<Participant>, entry: RawEntry): Deferred
    requires GoodEntry(roster, entry)
  {
    Deferred(Target(roster, entry).agentId, entry.goal, Clip(entry.ack))
  }

  ghost predicate WellFormedRelay(roster: seq<Participant>, primary: Option<nat>, entries: seq<RawEntry>) {
    && Names(roster, primary)
    && entries != []
    && (forall i :: 0 <= i < |entries| ==> GoodEntry(roster, entries[i]))
    && PartsWholeRoster(roster, Named(roster, primary), entries)
  }

  /** The relay branch of `parseDecision`: accepted exactly when every agent has one part. */
  method ParseRelay(roster: seq<Participant>, primary: Option<nat>, entries: seq<RawEntry>)
    returns (decision: Option<LlmDecision>)
    ensures decision.Some? <==> WellFormedRelay(roster, primary, entries)
    ensures decision.Some? ==> IsParsed(roster, primary, entries, decision.value)
  {
    if !Names(roster, primary) || entries == [] {
      return None;
    }
    var lead := Named(roster, primary).agentId;
    var deferred: seq<Deferred> := [];
    var seen := {lead};
    for k := 0 to |entries|
      invariant forall i :: 0 <= i < k ==> GoodEntry(roster, entries[i])
      invariant |deferred| == k && forall i :: 0 <= i < k ==> deferred[i] == Entry(roster, entries[i])
      invariant forall i :: 0 <= i < k ==> Target(roster, entries[i]).agentId != lead
      invariant forall i, j :: 0 <= i < j < k ==>
        Target(roster, entries[i]).agentId != Target(roster, entries[j]).agentId
      invariant forall id :: id in seen <==>
        id == lead || exists i :: 0 <= i < k && Target(roster, entries[i]).agentId == id
    {
      var entry := entries[k];
      if entry.NotAnObject? || !Names(roster, entry.code) {
        assert !GoodEntry(roster, entries[k]);
        return None;
      }
      var target := Named(roster, entry.code);
      if target.agentId in seen {
        return None;
      }
      seen := seen + {target.agentId};
      if entry.goal == "" {
        assert !GoodEntry(roster, entries[k]);
        return None;
      }
      deferred := deferred + [Entry(roster, entry)];
    }
    if exists p :: p in roster && p.agentId !in seen {
      return None;
    }
    decision := Some(RelayTo(lead, deferred));
  }

  lemma {:induction false} EveryEntryHasASpec(roster: seq<Participant>, deferred: seq<Deferred>)
    requires forall i :: 0 <= i < |deferred| ==> Lookup(roster, deferred[i].agentId).Some?
    ensures DeferredSpecs(roster, deferred).Some?
  {
    if deferred != [] {
      assert forall i :: 0 <= i < |deferred[1..]| ==> deferred[1..][i] == deferred[i + 1];
      EveryEntryHasASpec(roster, deferred[1..]);
    }
  }

  lemma {:induction false} ListedMeansEntry(deferred: seq<Deferred>, i: nat)
    requires i < |deferred|
    ensures EntryOf(deferred, Some(deferred[i].agentId)).Some?
  {
    if i > 0 {
      ListedMeansEntry(deferred[1..], i - 1);
    }
  }

  /** What `ParseRelay` returns for an answer it accepts. */
  ghost predicate IsParsed(
    roster: seq<Participant>, primary: Option<nat>, entries: seq<RawEntry>, decision: LlmDecision)
  {
    && WellFormedRelay(roster, primary, entries)
    && decision.RelayTo?
    && decision.primaryAgentId == Named(roster, primary).agentId
    && |decision.deferred| == |entries|
    && forall i :: 0 <= i < |entries| ==> decision.deferred[i] == Entry(roster, entries[i])
  }

  lemma ParsedRelayIsMappable(
    roster: seq<Participant>, primary: Option<nat>, entries: seq<RawEntry>, decision: LlmDecision)
    requires DistinctAgents(roster) && IsParsed(roster, primary, entries, decision)
    ensures Lookup(roster, decision.primaryAgentId) == Some(Named(roster, primary))
    ensures DeferredSpecs(roster, decision.deferred).Some?
    ensures |DeferredSpecs(roster, decision.deferred).value| == |entries|
  {
    assert Named(roster, primary) in roster;
    forall i | 0 <= i < |entries| ensures Lookup(roster, decision.deferred[i].agentId).Some? {
      assert Target(roster, entries[i]) in roster;
    }
    EveryEntryHasASpec(roster, decision.deferred);
    SpecsAreLookups(roster, decision.deferred);
  }

  lemma OthersAreListed(
    roster: seq<Participant>, primary: Option<nat>, entries: seq<RawEntry>, decision: LlmDecision, p: Participant)
    requires IsParsed(roster, primary, entries, decision)
    requires p in roster && p.agentId != Named(roster, primary).agentId
    ensures EntryOf(decision.deferred, Some(p.agentId)).Some?
  {
    var i :| 0 <= i < |entries| && Target(roster, entries[i]).agentId == p.agentId;
    ListedMeansEntry(decision.deferred, i);
  }

  /** Whatever `p` in the roster gets from a mappable relay. */
  lemma RelayRoutes(decision: LlmDecision, event: Event, roster: seq<Participant>, lead: Participant, id: string)
    requires decision.RelayTo? && DeferredSpecs(roster, decision.deferred).Some?
    requires Lookup(roster, decision.primaryAgentId) == Some(lead)
    requires id != lead.agentId ==> EntryOf(decision.deferred, Some(id)).Some?
    ensures var route := MapLlmMentionDecision(decision, event, roster, Some(id));
      && route.Some?
      && (if id == lead.agentId
          then route.value.ContinueAsPrimary? && route.value.contracts == DeferredSpecs(roster, decision.deferred).value
          else route.value.Defer? && route.value.primary == lead)
  {
  }

  /**
   * A relay that passed validation is never dropped and leaves no agent out: one leads, every
   * other agent of the roster waits on it, and its contracts are one per deferred entry.
   */
  lemma ValidRelayLeavesNobodyOut(
    event: Event, roster: seq<Participant>, primary: Option<nat>, entries: seq<RawEntry>, decision: LlmDecision,
    p: Participant)
    requires DistinctAgents(roster) && IsParsed(roster, primary, entries, decision) && p in roster
    ensures var route := MapLlmMentionDecision(decision, event, roster, Some(p.agentId));
      && route.Some?
      && (if p == Named(roster, primary) then route.value.ContinueAsPrimary? && |route.value.contracts| == |entries|
          else route.value.Defer? && route.value.primary == Named(roster, primary))
  {
    ParsedRelayIsMappable(roster, primary, entries, decision);
    if p != Named(roster, primary) {
      assert p.agentId != Named(roster, primary).agentId;
      OthersAreListed(roster, primary, entries, decision, p);
    }
    RelayRoutes(decision, event, roster, Named(roster, primary), p.agentId);
  }
}
