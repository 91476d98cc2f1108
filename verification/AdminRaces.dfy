/**
 * Admin requests that interleave between their check and their write
 * (apps/api/src/admin-api.ts:2584-2840, 3179-3252): the checks read the tables, the write is a
 * transaction of its own that does not repeat them.
 *
 * A write goes by what its check has seen only where the source says so. Operations that touch
 * no agent, app or binding that was there before are one step here.
 */
module AdminRaces {
  import opened Wrappers
  import opened AdminTables
  import opened AdminTheorems

  // ---- The write apart from its check ----

  /** The checks before the write. */
  predicate Passes(db: Db, scope: OwnerScope, op: Op) {
    match op
    case UpdateAgent(id, patch, credentialsOk) => AgentPatchCheck(db, scope, id, patch, credentialsOk).None?
    case UpdateApp(id, patch) => AppPatchCheck(db, scope, id, patch).None?
    case BindBot(agentId, appId, _) => BindCheck(db, scope, agentId, appId).None?
    case DeleteAgent(_, _) => Refusal(db, scope, op).None?
    case DeleteApp(_, _) => Refusal(db, scope, op).None?
    case SyncApp(_, _) => Refusal(db, scope, op).None?
    case UnbindBot(_) => Refusal(db, scope, op).None?
    case _ => true
  }

  /** Without a new name an update writes back the handle that its check has read. */
  function LateRow(seen: Agent, row: Agent, patch: AgentPatch): Agent {
    PatchedAgent(row, patch).(handle := Or(patch.handle, seen.handle))
  }

  /** Does the write find its row, and no unique index against it? */
  predicate Takes(seen: Db, db: Db, op: Op) {
    match op
    case UpdateAgent(id, patch, _) =>
      && id in db.agents && id in seen.agents
      && !HandleTaken(db, id, LateRow(seen.agents[id], db.agents[id], patch))
    case UpdateApp(id, patch) => id in db.apps && !AppIdTaken(db, id, PatchedApp(db.apps[id], patch).appId)
    case BindBot(agentId, appId, newId) => newId !in db.bindings && appId in seen.apps
    case DeleteAgent(id, _) => id in db.agents
    case DeleteApp(id, _) => id in db.apps
    case SyncApp(id, _) => id in db.apps
    case UnbindBot(id) => id in db.bindings
    case _ => true
  }

  /** The tables after the write of an operation whose check read the tables `seen`. */
  function Late(scope: OwnerScope, seen: Db, db: Db, op: Op): Db {
    if !Takes(seen, db, op) then db
    else
      match op
      case UpdateAgent(id, patch, _) =>
        var target := Or(patch.profileId, seen.agents[id].profileId);
        db.(agents := db.agents[id := LateRow(seen.agents[id], db.agents[id], patch)],
            profiles := if patch.profileEdit.None? || target !in db.profiles then db.profiles
                        else db.profiles[target := db.profiles[target].(rest := patch.profileEdit.value)])
      case UpdateApp(id, patch) => db.(apps := db.apps[id := PatchedApp(db.apps[id], patch)])
      case BindBot(agentId, appId, newId) =>
        db.(bindings := Deactivated(db.bindings, agentId, appId)[
              newId := Binding(agentId, appId, seen.apps[appId].botOpenId, BindingActive)])
      case DeleteAgent(id, uuid) =>
        db.(agents := db.agents[id := BuriedAgent(db.agents[id], uuid)],
            bindings := map b | b in db.bindings && db.bindings[b].agentId != id :: db.bindings[b])
      case DeleteApp(id, uuid) =>
        db.(apps := db.apps[id := BuriedApp(db.apps[id], uuid)],
            bindings := map b | b in db.bindings && db.bindings[b].appId != id :: db.bindings[b])
      case SyncApp(id, fetchedName) => db.(apps := db.apps[id := db.apps[id].(botName := fetchedName)])
      case UnbindBot(id) => db.(bindings := db.bindings[id := db.bindings[id].(status := BindingInactive)])
      case _ => Perform(db, scope, op)
  }

  /** With nothing in between, check and write are the operation of AdminTables. */
  lemma AtOnceIsTheOperation(db: Db, scope: OwnerScope, op: Op)
    ensures Perform(db, scope, op) == if Passes(db, scope, op) then Late(scope, db, db, op) else db
  {
  }

  // ---- Requests under way ----

  datatype Checked = Checked(scope: OwnerScope, op: Op, seen: Db)

  datatype World = World(db: Db, pending: map<nat, Checked>)

  datatype Step = Begin(r: nat, scope: OwnerScope, op: Op) | Finish(r: nat) | Drop(r: nat)

  predicate Enabled(w: World, step: Step) {
    match step
    case Begin(r, scope, op) => r !in w.pending
    case Finish(r) => r in w.pending
    case Drop(r) => r in w.pending
  }

  function Apply(w: World, step: Step): World
    requires Enabled(w, step)
  {
    match step
    case Begin(r, scope, op) =>
      if Passes(w.db, scope, op) then w.(pending := w.pending[r := Checked(scope, op, w.db)]) else w
    case Finish(r) =>
      var checked := w.pending[r];
      World(Late(checked.scope, checked.seen, w.db, checked.op), w.pending - {r})
    case Drop(r) => w.(pending := w.pending - {r})
  }

  predicate IsRun(w: World, steps: seq<Step>)
    decreases |steps|
  {
    steps == [] || (Enabled(w, steps[0]) && IsRun(Apply(w, steps[0]), steps[1..]))
  }

  function After(w: World, steps: seq<Step>): World
    requires IsRun(w, steps)
    decreases |steps|
  {
    if steps == [] then w else After(Apply(w, steps[0]), steps[1..])
  }

  // ---- Bindings stay unique ----

  ghost predicate Unique(db: Db) {
    OneActivePerAgent(db) && OneActivePerApp(db)
  }

  lemma LateBindKeepsUnique(scope: OwnerScope, seen: Db, db: Db, agentId: Id, appId: Id, newId: Id)
    requires Unique(db)
    ensures Unique(Late(scope, seen, db, BindBot(agentId, appId, newId)))
  {
    var db' := Late(scope, seen, db, BindBot(agentId, appId, newId));
    forall b | Takes(seen, db, BindBot(agentId, appId, newId)) && IsActive(db', b) && b != newId
      ensures IsActive(db, b) && db'.bindings[b] == db.bindings[b]
      ensures db.bindings[b].agentId != agentId && db.bindings[b].appId != appId
    {
    }
  }

  lemma LateKeepsUnique(scope: OwnerScope, seen: Db, db: Db, op: Op)
    requires Unique(db)
    ensures Unique(Late(scope, seen, db, op))
  {
    if op.BindBot? {
      LateBindKeepsUnique(scope, seen, db, op.agentId, op.appId, op.newId);
    } else {
      var db' := Late(scope, seen, db, op);
      assert forall b :: IsActive(db', b) ==> IsActive(db, b) && db'.bindings[b] == db.bindings[b];
    }
  }

  /** However requests interleave, agent and app have at most one active binding. */
  lemma {:induction false} BindingsStayUnique(w: World, steps: seq<Step>)
    requires Unique(w.db) && IsRun(w, steps)
    ensures Unique(After(w, steps).db)
    decreases |steps|
  {
    if steps != [] {
      if steps[0].Finish? {
        var checked := w.pending[steps[0].r];
        LateKeepsUnique(checked.scope, checked.seen, w.db, checked.op);
      }
      BindingsStayUnique(Apply(w, steps[0]), steps[1..]);
    }
  }

  // ---- When routes stay sound ----

  predicate RouteStands(db: Db, agentId: Id, appId: Id) {
    BindingSound(db, Binding(agentId, appId, None, BindingActive))
  }

  /** The write goes through although the check of the route, repeated now, would refuse it. */
  predicate IsStale(seen: Db, db: Db, op: Op) {
    Takes(seen, db, op) &&
      match op
      case BindBot(agentId, appId, _) => !RouteStands(db, agentId, appId)
      case UpdateAgent(id, patch, _) =>
        var next := PatchedAgent(db.agents[id], patch);
        AsksForRoutes(patch) && !AgentKeepsRoutes(db, id, next.status, next.tenantKey)
      case UpdateApp(id, patch) =>
        var next := PatchedApp(db.apps[id], patch);
        AppAsksForRoutes(patch) && !AppKeepsRoutes(db, id, next.status, next.tenantKey)
      case _ => false
  }

  lemma LateBindIsSound(scope: OwnerScope, seen: Db, db: Db, agentId: Id, appId: Id, newId: Id)
    requires Inv(db)
    ensures Inv(Late(scope, seen, db, BindBot(agentId, appId, newId)))
      <==> !IsStale(seen, db, BindBot(agentId, appId, newId))
  {
    var db' := Late(scope, seen, db, BindBot(agentId, appId, newId));
    LateBindKeepsUnique(scope, seen, db, agentId, appId, newId);
    if Takes(seen, db, BindBot(agentId, appId, newId)) {
      assert IsActive(db', newId);
      assert BindingSound(db', db'.bindings[newId]) <==> RouteStands(db, agentId, appId);
      forall b | IsActive(db', b) && b != newId ensures BindingSound(db', db'.bindings[b]) {
        assert IsActive(db, b) && db'.bindings[b] == db.bindings[b];
      }
    }
  }

  lemma LateAgentPatchIsSound(scope: OwnerScope, seen: Db, db: Db, id: Id, patch: AgentPatch, ok: bool)
    requires Inv(db)
    ensures Inv(Late(scope, seen, db, UpdateAgent(id, patch, ok))) <==> !IsStale(seen, db, UpdateAgent(id, patch, ok))
  {
    var db' := Late(scope, seen, db, UpdateAgent(id, patch, ok));
    if IsStale(seen, db, UpdateAgent(id, patch, ok)) {
      var next := PatchedAgent(db.agents[id], patch);
      var b :| b in db.bindings && db.bindings[b].agentId == id && !AgentRouteKept(db, b, next.status, next.tenantKey);
      assert IsActive(db', b) && !BindingSound(db', db'.bindings[b]);
    } else {
      forall b ensures IsOldActive(db, db', b) {
        assert IsActive(db', b) ==> IsActive(db, b) && BindingSound(db, db.bindings[b]);
        if IsActive(db', b) && db.bindings[b].agentId == id && Takes(seen, db, UpdateAgent(id, patch, ok)) {
          assert AsksForRoutes(patch) ==> AgentRouteKept(db, b, db'.agents[id].status, db'.agents[id].tenantKey);
        }
      }
      FewerBindingsKeepInv(db, db');
    }
  }

  lemma LateAppPatchIsSound(scope: OwnerScope, seen: Db, db: Db, id: Id, patch: AppPatch)
    requires Inv(db)
    ensures Inv(Late(scope, seen, db, UpdateApp(id, patch))) <==> !IsStale(seen, db, UpdateApp(id, patch))
  {
    var db' := Late(scope, seen, db, UpdateApp(id, patch));
    if IsStale(seen, db, UpdateApp(id, patch)) {
      var next := PatchedApp(db.apps[id], patch);
      var b :| b in db.bindings && db.bindings[b].appId == id && !AppRouteKept(db, b, next.status, next.tenantKey);
      assert IsActive(db', b) && !BindingSound(db', db'.bindings[b]);
    } else {
      forall b ensures IsOldActive(db, db', b) {
        assert IsActive(db', b) ==> IsActive(db, b) && BindingSound(db, db.bindings[b]);
        if IsActive(db', b) && db.bindings[b].appId == id && Takes(seen, db, UpdateApp(id, patch)) {
          assert AppAsksForRoutes(patch) ==> AppRouteKept(db, b, db'.apps[id].status, db'.apps[id].tenantKey);
        }
      }
      FewerBindingsKeepInv(db, db');
    }
  }

  lemma OtherWritesAreSound(scope: OwnerScope, seen: Db, db: Db, op: Op)
    requires Inv(db) && !op.BindBot? && !op.UpdateAgent? && !op.UpdateApp?
    ensures Inv(Late(scope, seen, db, op))
  {
    if op.DeleteAgent? || op.DeleteApp? || op.SyncApp? || op.UnbindBot? {
      var db' := Late(scope, seen, db, op);
      forall b ensures IsOldActive(db, db', b) {
        assert IsActive(db', b) ==> IsActive(db, b) && BindingSound(db, db.bindings[b]);
      }
      FewerBindingsKeepInv(db, db');
    } else {
      OperationKeepsInv(db, scope, op);
    }
  }

  /** A write keeps the routes sound exactly if the check of the route would not refuse it now. */
  lemma LateKeepsInvExactlyIfFresh(scope: OwnerScope, seen: Db, db: Db, op: Op)
    requires Inv(db)
    ensures Inv(Late(scope, seen, db, op)) <==> !IsStale(seen, db, op)
  {
    match op {
      case BindBot(agentId, appId, newId) => LateBindIsSound(scope, seen, db, agentId, appId, newId);
      case UpdateAgent(id, patch, ok) => LateAgentPatchIsSound(scope, seen, db, id, patch, ok);
      case UpdateApp(id, patch) => LateAppPatchIsSound(scope, seen, db, id, patch);
      case _ => OtherWritesAreSound(scope, seen, db, op);
    }
  }

  predicate NoStaleWrite(w: World, steps: seq<Step>)
    requires IsRun(w, steps)
    decreases |steps|
  {
    steps == [] || (
      && (steps[0].Finish? ==> !IsStale(w.pending[steps[0].r].seen, w.db, w.pending[steps[0].r].op))
      && NoStaleWrite(Apply(w, steps[0]), steps[1..]))
  }

  ghost predicate SoundThroughout(w: World, steps: seq<Step>)
    requires IsRun(w, steps)
    decreases |steps|
  {
    Inv(w.db) && (steps != [] ==> SoundThroughout(Apply(w, steps[0]), steps[1..]))
  }

  /** However requests interleave, the bindings are sound all along exactly if no write is stale. */
  lemma {:induction false} SoundExactlyIfNoStaleWrite(w: World, steps: seq<Step>)
    requires Inv(w.db) && IsRun(w, steps)
    ensures SoundThroughout(w, steps) <==> NoStaleWrite(w, steps)
    decreases |steps|
  {
    if steps != [] {
      var w' := Apply(w, steps[0]);
      if steps[0].Finish? {
        var checked := w.pending[steps[0].r];
        LateKeepsInvExactlyIfFresh(checked.scope, checked.seen, w.db, checked.op);
      }
      if Inv(w'.db) {
        SoundExactlyIfNoStaleWrite(w', steps[1..]);
      } else {
        assert !SoundThroughout(w', steps[1..]);
      }
    }
  }

  /** An active binding as the check has seen it, between rows whose route columns are as then. */
  predicate AsSeen(seen: Db, db: Db, b: Id) {
    IsActive(db, b) ==>
      && IsActive(seen, b) && seen.bindings[b] == db.bindings[b]
      && SameAgentRoute(seen, db, db.bindings[b].agentId) && SameAppRoute(seen, db, db.bindings[b].appId)
  }

  /** Nobody has written the bindings and route columns that the operation is about. */
  predicate Undisturbed(seen: Db, db: Db, op: Op) {
    match op
    case BindBot(agentId, appId, _) => SameAgentRoute(seen, db, agentId) && SameAppRoute(seen, db, appId)
    case UpdateAgent(id, _, _) =>
      && SameAgentRoute(seen, db, id)
      && forall b :: b in db.bindings && db.bindings[b].agentId == id ==> AsSeen(seen, db, b)
    case UpdateApp(id, _) =>
      && SameAppRoute(seen, db, id)
      && forall b :: b in db.bindings && db.bindings[b].appId == id ==> AsSeen(seen, db, b)
    case _ => true
  }

  /** So a write is stale only if another request has disturbed what its check saw. */
  lemma OnlyDisturbedWritesAreStale(scope: OwnerScope, seen: Db, db: Db, op: Op)
    requires Inv(seen) && Passes(seen, scope, op) && Undisturbed(seen, db, op)
    ensures !IsStale(seen, db, op)
  {
    match op {
      case UpdateAgent(id, patch, _) =>
        var next := PatchedAgent(seen.agents[id], patch);
        forall b | AsksForRoutes(patch) && b in db.bindings && db.bindings[b].agentId == id
          ensures AgentRouteKept(db, b, next.status, next.tenantKey)
        {
          assert AsSeen(seen, db, b);
          assert IsActive(db, b) ==> AgentRouteKept(seen, b, next.status, next.tenantKey);
        }
      case UpdateApp(id, patch) =>
        var next := PatchedApp(seen.apps[id], patch);
        forall b | AppAsksForRoutes(patch) && b in db.bindings && db.bindings[b].appId == id
          ensures AppRouteKept(db, b, next.status, next.tenantKey)
        {
          assert AsSeen(seen, db, b);
          assert IsActive(db, b) ==> AppRouteKept(seen, b, next.status, next.tenantKey);
        }
      case _ =>
    }
  }

  // ---- Tombstones ----

  predicate IsDead(db: Db, id: Id) {
    id in db.agents && IsDeletedAgent(db.agents[id])
  }

  predicate IsUpdateOf(op: Op, id: Id) {
    op.UpdateAgent? && op.id == id
  }

  /** An update that comes after a deletion leaves a deleted agent exactly if it writes no other status and handle. */
  lemma LateUpdateOfADeletedAgent(scope: OwnerScope, seen: Db, db: Db, id: Id, patch: AgentPatch, ok: bool)
    requires IsDead(db, id) && Takes(seen, db, UpdateAgent(id, patch, ok))
    ensures IsDead(Late(scope, seen, db, UpdateAgent(id, patch, ok)), id) <==>
      Or(patch.status, Archived) == Archived && HasDeletedPrefix(Or(patch.handle, seen.agents[id].handle))
  {
  }

  predicate NoUpdateUnderWay(w: World, id: Id) {
    forall r :: r in w.pending ==> !IsUpdateOf(w.pending[r].op, id)
  }

  lemma OperationLeavesTheDead(db: Db, scope: OwnerScope, op: Op, id: Id)
    requires IsDead(db, id) && !op.UpdateAgent? && !op.DeleteAgent?
    ensures IsDead(Perform(db, scope, op), id)
  {
    if Refusal(db, scope, op).None? {
      assert op.CreateAgent? ==> op.newId != id;
    }
  }

  lemma LateWriteLeavesTheDead(scope: OwnerScope, seen: Db, db: Db, op: Op, id: Id)
    requires IsDead(db, id) && !IsUpdateOf(op, id)
    ensures IsDead(Late(scope, seen, db, op), id)
  {
    if op.DeleteAgent? && op.id == id {
      assert IsDeletedAgent(BuriedAgent(db.agents[id], op.uuid));
    } else if !op.UpdateAgent? && !op.DeleteAgent? {
      OperationLeavesTheDead(db, scope, op, id);
    }
  }

  lemma DeadStaysDead(w: World, step: Step, id: Id)
    requires IsDead(w.db, id) && NoUpdateUnderWay(w, id) && Enabled(w, step)
    ensures IsDead(Apply(w, step).db, id) && NoUpdateUnderWay(Apply(w, step), id)
  {
    match step {
      case Begin(_, scope, op) => assert IsUpdateOf(op, id) ==> !Passes(w.db, scope, op);
      case Finish(r) => LateWriteLeavesTheDead(w.pending[r].scope, w.pending[r].seen, w.db, w.pending[r].op, id);
      case Drop(_) =>
    }
  }

  /** A deleted agent stays deleted, whatever interleaves, if no update of it was under way. */
  lemma {:induction false} DeletedAgentsStayDeletedInRaces(w: World, steps: seq<Step>, id: Id)
    requires IsDead(w.db, id) && NoUpdateUnderWay(w, id) && IsRun(w, steps)
    ensures IsDead(After(w, steps).db, id)
    decreases |steps|
  {
    if steps != [] {
      DeadStaysDead(w, steps[0], id);
      DeletedAgentsStayDeletedInRaces(Apply(w, steps[0]), steps[1..], id);
    }
  }

  // ---- It happens ----

  const ADMIN := OwnerScope(true, None, true)

  const NO_PATCH := AgentPatch(None, None, None, None, Unchanged, None, None, None)

  /** One active agent, one enabled app of its tenant, nothing bound. */
  const TABLES := Db(
    map[0 := Agent("t", "s", "h", Active, None, 0, None, "")],
    map[0 := Profile("p", None, "")],
    map[0 := App("t", "a", "ref", None, None, None, SwitchStatus.Enabled, None, "")],
    map[], map[], map[])

  lemma Racing(first: Op, second: Op) returns (w: World, steps: seq<Step>)
    requires Passes(TABLES, ADMIN, first) && Passes(TABLES, ADMIN, second)
    ensures IsRun(World(TABLES, map[]), steps) && After(World(TABLES, map[]), steps) == w
    ensures w == World(Late(ADMIN, TABLES, Late(ADMIN, TABLES, TABLES, second), first), map[])
  {
    steps := [Begin(0, ADMIN, first), Begin(1, ADMIN, second), Finish(1), Finish(0)];
    assert steps[1..] == [Begin(1, ADMIN, second), Finish(1), Finish(0)];
    assert steps[1..][1..] == [Finish(1), Finish(0)] && steps[1..][1..][1..] == [Finish(0)];
    assert [Finish(0)][1..] == [];
    var one := Apply(World(TABLES, map[]), steps[0]);
    var two := Apply(one, steps[1]);
    assert two.pending == map[0 := Checked(ADMIN, first, TABLES), 1 := Checked(ADMIN, second, TABLES)];
    var three := Apply(two, Finish(1));
    w := Apply(three, Finish(0));
    assert w.pending == map[];
    assert After(three, [Finish(0)]) == w && After(two, [Finish(1), Finish(0)]) == w;
    assert IsRun(two, [Finish(1), Finish(0)]) && IsRun(one, steps[1..]) && After(one, steps[1..]) == w;
  }

  /** Binding an agent while it is being deactivated leaves an active binding to an inactive agent. */
  lemma ALateBindBreaksARoute() returns (w: World, steps: seq<Step>)
    ensures Inv(TABLES) && IsRun(World(TABLES, map[]), steps) && After(World(TABLES, map[]), steps) == w
    ensures IsActive(w.db, 0) && w.db.bindings[0].agentId == 0 && 0 in w.db.agents && w.db.agents[0].status == Inactive
  {
    w, steps := Racing(BindBot(0, 0, 0), UpdateAgent(0, NO_PATCH.(status := Some(Inactive)), true));
  }

  /** Any update that was checked before a deletion and is written after it brings the old handle back. */
  lemma ALateUpdateRevivesADeletedAgent(uuid: string) returns (w: World, steps: seq<Step>)
    ensures IsRun(World(TABLES, map[]), steps) && After(World(TABLES, map[]), steps) == w
    ensures IsDead(Late(ADMIN, TABLES, TABLES, DeleteAgent(0, uuid)), 0)
    ensures 0 in w.db.agents && w.db.agents[0].handle == "h" && 0 in ListedAgents(w.db, ADMIN)
  {
    w, steps := Racing(UpdateAgent(0, NO_PATCH.(rest := Some("x")), true), DeleteAgent(0, uuid));
  }
}
