/**
 * What every sequence of admin store operations keeps (apps/api/src/admin-api.ts): the
 * bindings, the rows of others, and the tombstones.
 */
module AdminTheorems {
  import opened Wrappers
  import opened AdminTables

  // ---- Bindings ----

  /**
   * The patch checks read one active binding only (LIMIT 1). Whichever they get decides for all
   * of them: with sound routes a bound agent can be patched exactly if it stays active and in
   * its tenant.
   */
  lemma LimitOneIsEnoughForAgents(db: Db, id: Id, picked: Id, status: AgentStatus, tenantKey: string)
    requires RoutesSound(db) && IsActive(db, picked) && db.bindings[picked].agentId == id
    ensures AgentKeepsRoutes(db, id, status, tenantKey) <==> AgentRouteKept(db, picked, status, tenantKey)
    ensures AgentRouteKept(db, picked, status, tenantKey) <==> status == Active && tenantKey == db.agents[id].tenantKey
  {
    assert BindingSound(db, db.bindings[picked]);
    forall b | b in db.bindings && db.bindings[b].agentId == id && AgentRouteKept(db, picked, status, tenantKey)
      ensures AgentRouteKept(db, b, status, tenantKey)
    {
      assert IsActive(db, b) ==> BindingSound(db, db.bindings[b]);
    }
  }

  lemma LimitOneIsEnoughForApps(db: Db, id: Id, picked: Id, status: SwitchStatus, tenantKey: string)
    requires RoutesSound(db) && IsActive(db, picked) && db.bindings[picked].appId == id
    ensures AppKeepsRoutes(db, id, status, tenantKey) <==> AppRouteKept(db, picked, status, tenantKey)
    ensures AppRouteKept(db, picked, status, tenantKey) <==> status == Enabled && tenantKey == db.apps[id].tenantKey
  {
    assert BindingSound(db, db.bindings[picked]);
    forall b | b in db.bindings && db.bindings[b].appId == id && AppRouteKept(db, picked, status, tenantKey)
      ensures AppRouteKept(db, b, status, tenantKey)
    {
      assert IsActive(db, b) ==> BindingSound(db, db.bindings[b]);
    }
  }

  lemma BindBotKeepsInv(db: Db, scope: OwnerScope, agentId: Id, appId: Id, newId: Id)
    requires Inv(db) && BindRefusal(db, scope, agentId, appId, newId).None?
    ensures Inv(Written(db, scope, BindBot(agentId, appId, newId)))
  {
    var db' := Written(db, scope, BindBot(agentId, appId, newId));
    forall b | IsActive(db', b) && b != newId
      ensures IsActive(db, b) && db'.bindings[b] == db.bindings[b]
      ensures db.bindings[b].agentId != agentId && db.bindings[b].appId != appId
    {
    }
  }

  predicate SameAgentRoute(db: Db, db': Db, id: Id) {
    id in db.agents ==>
      && id in db'.agents
      && db'.agents[id].status == db.agents[id].status
      && db'.agents[id].tenantKey == db.agents[id].tenantKey
  }

  predicate SameAppRoute(db: Db, db': Db, id: Id) {
    id in db.apps ==>
      && id in db'.apps
      && db'.apps[id].status == db.apps[id].status
      && db'.apps[id].tenantKey == db.apps[id].tenantKey
  }

  /** Operations that touch neither bindings nor a column of the route. */
  lemma SameRoutesKeepInv(db: Db, db': Db)
    requires Inv(db) && db'.bindings == db.bindings
    requires forall id :: SameAgentRoute(db, db', id)
    requires forall id :: SameAppRoute(db, db', id)
    ensures Inv(db')
  {
    forall b | IsActive(db', b) ensures BindingSound(db', db'.bindings[b]) {
      assert IsActive(db, b);
      assert SameAgentRoute(db, db', db.bindings[b].agentId) && SameAppRoute(db, db', db.bindings[b].appId);
    }
  }

  predicate IsOldActive(db: Db, db': Db, b: Id) {
    IsActive(db', b) ==>
      && IsActive(db, b)
      && db'.bindings[b] == db.bindings[b]
      && BindingSound(db', db.bindings[b])
  }

  /** Dropping or deactivating bindings is always fine. */
  lemma FewerBindingsKeepInv(db: Db, db': Db)
    requires Inv(db) && forall b :: IsOldActive(db, db', b)
    ensures Inv(db')
  {
    forall b | IsActive(db', b)
      ensures IsActive(db, b) && db'.bindings[b] == db.bindings[b] && BindingSound(db', db'.bindings[b])
    {
      assert IsOldActive(db, db', b);
    }
  }

  lemma UpdateAgentKeepsInv(db: Db, scope: OwnerScope, id: Id, patch: AgentPatch, credentialsOk: bool)
    requires Inv(db) && AgentPatchRefusal(db, scope, id, patch, credentialsOk).None?
    ensures Inv(Written(db, scope, UpdateAgent(id, patch, credentialsOk)))
  {
    var db' := Written(db, scope, UpdateAgent(id, patch, credentialsOk));
    forall b ensures IsOldActive(db, db', b) {
      assert IsActive(db', b) ==> IsActive(db, b) && BindingSound(db, db.bindings[b]);
      if IsActive(db', b) && db.bindings[b].agentId == id && (patch.status.Some? || patch.tenantKey.Some?) {
        assert AgentRouteKept(db, b, db'.agents[id].status, db'.agents[id].tenantKey);
      }
    }
    FewerBindingsKeepInv(db, db');
  }

  lemma UpdateAppKeepsInv(db: Db, scope: OwnerScope, id: Id, patch: AppPatch)
    requires Inv(db) && AppPatchRefusal(db, scope, id, patch).None?
    ensures Inv(Written(db, scope, UpdateApp(id, patch)))
  {
    var db' := Written(db, scope, UpdateApp(id, patch));
    forall b ensures IsOldActive(db, db', b) {
      assert IsActive(db', b) ==> IsActive(db, b) && BindingSound(db, db.bindings[b]);
      if IsActive(db', b) && db.bindings[b].appId == id && (patch.status.Some? || patch.tenantKey.Some?) {
        assert AppRouteKept(db, b, db'.apps[id].status, db'.apps[id].tenantKey);
      }
    }
    FewerBindingsKeepInv(db, db');
  }

  lemma DeleteAgentKeepsInv(db: Db, scope: OwnerScope, id: Id, uuid: string)
    requires Inv(db) && Refusal(db, scope, DeleteAgent(id, uuid)).None?
    ensures Inv(Written(db, scope, DeleteAgent(id, uuid)))
  {
    var db' := Written(db, scope, DeleteAgent(id, uuid));
    forall b ensures IsOldActive(db, db', b) {
      assert IsActive(db', b) ==> IsActive(db, b) && BindingSound(db, db.bindings[b]);
    }
    FewerBindingsKeepInv(db, db');
  }

  lemma DeleteAppKeepsInv(db: Db, scope: OwnerScope, id: Id, uuid: string)
    requires Inv(db) && Refusal(db, scope, DeleteApp(id, uuid)).None?
    ensures Inv(Written(db, scope, DeleteApp(id, uuid)))
  {
    var db' := Written(db, scope, DeleteApp(id, uuid));
    forall b ensures IsOldActive(db, db', b) {
      assert IsActive(db', b) ==> IsActive(db, b) && BindingSound(db, db.bindings[b]);
    }
    FewerBindingsKeepInv(db, db');
  }

  lemma UnbindBotKeepsInv(db: Db, scope: OwnerScope, id: Id)
    requires Inv(db) && Refusal(db, scope, UnbindBot(id)).None?
    ensures Inv(Written(db, scope, UnbindBot(id)))
  {
    var db' := Written(db, scope, UnbindBot(id));
    forall b ensures IsOldActive(db, db', b) {
      assert IsActive(db', b) ==> IsActive(db, b) && BindingSound(db, db.bindings[b]);
    }
    FewerBindingsKeepInv(db, db');
  }

  lemma CreateAgentKeepsInv(db: Db, scope: OwnerScope, op: Op)
    requires op.CreateAgent? && Inv(db) && Refusal(db, scope, op).None?
    ensures Inv(Written(db, scope, op))
  {
    SameRoutesKeepInv(db, Written(db, scope, op));
  }

  lemma CreateAppKeepsInv(db: Db, scope: OwnerScope, op: Op)
    requires op.CreateApp? && Inv(db) && Refusal(db, scope, op).None?
    ensures Inv(Written(db, scope, op))
  {
    SameRoutesKeepInv(db, Written(db, scope, op));
  }

  lemma OperationKeepsInv(db: Db, scope: OwnerScope, op: Op)
    requires Inv(db)
    ensures Inv(Perform(db, scope, op))
  {
    if Refusal(db, scope, op).None? {
      match op {
        case CreateAgent(_, _, _, _) => CreateAgentKeepsInv(db, scope, op);
        case UpdateAgent(id, patch, ok) => UpdateAgentKeepsInv(db, scope, id, patch, ok);
        case DeleteAgent(id, uuid) => DeleteAgentKeepsInv(db, scope, id, uuid);
        case CreateApp(_, _) => CreateAppKeepsInv(db, scope, op);
        case UpdateApp(id, patch) => UpdateAppKeepsInv(db, scope, id, patch);
        case DeleteApp(id, uuid) => DeleteAppKeepsInv(db, scope, id, uuid);
        case BindBot(agentId, appId, newId) => BindBotKeepsInv(db, scope, agentId, appId, newId);
        case UnbindBot(id) => UnbindBotKeepsInv(db, scope, id);
        case SyncApp(_, _) => SameRoutesKeepInv(db, Written(db, scope, op));
        case _ => SameRoutesKeepInv(db, Written(db, scope, op));
      }
    }
  }

  /** Over every sequence of requests, by whomever. */
  lemma {:induction false} BindingsStaySound(db: Db, requests: seq<Request>)
    requires Inv(db)
    ensures Inv(Served(db, requests))
    decreases |requests|
  {
    if requests != [] {
      OperationKeepsInv(db, requests[0].scope, requests[0].op);
      BindingsStaySound(Perform(db, requests[0].scope, requests[0].op), requests[1..]);
    }
  }

  /** Binding moves the agent and the app to each other and leaves all other active bindings alone. */
  lemma BindBotRebinds(db: Db, scope: OwnerScope, agentId: Id, appId: Id, newId: Id, b: Id)
    requires Refusal(db, scope, BindBot(agentId, appId, newId)).None?
    ensures var db' := Perform(db, scope, BindBot(agentId, appId, newId));
      IsActive(db', b) <==>
        b == newId || (IsActive(db, b) && db.bindings[b].agentId != agentId && db.bindings[b].appId != appId)
  {
  }

  // ---- Rows of others ----

  predicate Survives<K, V(==)>(rows: map<K, V>, rows': map<K, V>, id: K) {
    id in rows ==> id in rows' && rows'[id] == rows[id]
  }

  // An operation changes no row that its caller does not own.

  lemma OthersAgentStays(db: Db, scope: OwnerScope, op: Op, id: Id)
    requires !scope.isSuperadmin && id in db.agents && !Owns(scope, db.agents[id].owner)
    ensures Survives(db.agents, Perform(db, scope, op).agents, id)
  {
  }

  lemma OthersProfileStays(db: Db, scope: OwnerScope, op: Op, id: Id)
    requires !scope.isSuperadmin && id in db.profiles && !Owns(scope, db.profiles[id].owner)
    ensures Survives(db.profiles, Perform(db, scope, op).profiles, id)
  {
  }

  lemma OthersAppStays(db: Db, scope: OwnerScope, op: Op, id: Id)
    requires !scope.isSuperadmin && id in db.apps && !Owns(scope, db.apps[id].owner)
    ensures Survives(db.apps, Perform(db, scope, op).apps, id)
  {
  }

  lemma OthersInstallationStays(db: Db, scope: OwnerScope, op: Op, id: Id)
    requires !scope.isSuperadmin && id in db.installations && !Owns(scope, db.installations[id].owner)
    ensures Survives(db.installations, Perform(db, scope, op).installations, id)
  {
  }

  lemma OthersMachineStays(db: Db, scope: OwnerScope, op: Op, id: Id)
    requires !scope.isSuperadmin && id in db.machines && !Owns(scope, db.machines[id].owner)
    ensures Survives(db.machines, Perform(db, scope, op).machines, id)
  {
  }

  predicate AllPlain(requests: seq<Request>) {
    forall i :: 0 <= i < |requests| ==> !requests[i].scope.isSuperadmin
  }

  /** None of the callers is this owner; a row without owner is nobody's. */
  predicate NoneOwns(requests: seq<Request>, owner: Option<Id>) {
    forall i :: 0 <= i < |requests| ==> !Owns(requests[i].scope, owner)
  }

  lemma {:induction false} OthersAgentsStay(db: Db, requests: seq<Request>, id: Id)
    requires AllPlain(requests) && id in db.agents && NoneOwns(requests, db.agents[id].owner)
    ensures Survives(db.agents, Served(db, requests).agents, id)
    decreases |requests|
  {
    if requests != [] {
      OthersAgentStays(db, requests[0].scope, requests[0].op, id);
      OthersAgentsStay(Perform(db, requests[0].scope, requests[0].op), requests[1..], id);
    }
  }

  lemma {:induction false} OthersProfilesStay(db: Db, requests: seq<Request>, id: Id)
    requires AllPlain(requests) && id in db.profiles && NoneOwns(requests, db.profiles[id].owner)
    ensures Survives(db.profiles, Served(db, requests).profiles, id)
    decreases |requests|
  {
    if requests != [] {
      OthersProfileStays(db, requests[0].scope, requests[0].op, id);
      OthersProfilesStay(Perform(db, requests[0].scope, requests[0].op), requests[1..], id);
    }
  }

  lemma {:induction false} OthersAppsStay(db: Db, requests: seq<Request>, id: Id)
    requires AllPlain(requests) && id in db.apps && NoneOwns(requests, db.apps[id].owner)
    ensures Survives(db.apps, Served(db, requests).apps, id)
    decreases |requests|
  {
    if requests != [] {
      OthersAppStays(db, requests[0].scope, requests[0].op, id);
      OthersAppsStay(Perform(db, requests[0].scope, requests[0].op), requests[1..], id);
    }
  }

  lemma {:induction false} OthersInstallationsStay(db: Db, requests: seq<Request>, id: Id)
    requires AllPlain(requests) && id in db.installations && NoneOwns(requests, db.installations[id].owner)
    ensures Survives(db.installations, Served(db, requests).installations, id)
    decreases |requests|
  {
    if requests != [] {
      OthersInstallationStays(db, requests[0].scope, requests[0].op, id);
      OthersInstallationsStay(Perform(db, requests[0].scope, requests[0].op), requests[1..], id);
    }
  }

  lemma {:induction false} OthersMachinesStay(db: Db, requests: seq<Request>, id: Id)
    requires AllPlain(requests) && id in db.machines && NoneOwns(requests, db.machines[id].owner)
    ensures Survives(db.machines, Served(db, requests).machines, id)
    decreases |requests|
  {
    if requests != [] {
      OthersMachineStays(db, requests[0].scope, requests[0].op, id);
      OthersMachinesStay(Perform(db, requests[0].scope, requests[0].op), requests[1..], id);
    }
  }

  // ---- Tombstones ----

  lemma DeletedAgentStays(db: Db, scope: OwnerScope, op: Op, id: Id)
    requires id in db.agents && IsDeletedAgent(db.agents[id])
    ensures Survives(db.agents, Perform(db, scope, op).agents, id)
  {
  }

  lemma DeletedAppStays(db: Db, scope: OwnerScope, op: Op, id: Id)
    requires id in db.apps && IsDeletedApp(db.apps[id])
    ensures Survives(db.apps, Perform(db, scope, op).apps, id)
  {
  }

  lemma DeletedInstallationStays(db: Db, scope: OwnerScope, op: Op, id: Id)
    requires id in db.installations && IsDeletedInstallation(db.installations[id])
    ensures Survives(db.installations, Perform(db, scope, op).installations, id)
  {
  }

  /** A deleted row never changes again and no list ever shows it, whoever asks. */
  lemma {:induction false} DeletedAgentsStayDeleted(db: Db, requests: seq<Request>, viewer: OwnerScope, id: Id)
    requires id in db.agents && IsDeletedAgent(db.agents[id])
    ensures Survives(db.agents, Served(db, requests).agents, id)
    ensures id !in ListedAgents(Served(db, requests), viewer)
    decreases |requests|
  {
    if requests != [] {
      DeletedAgentStays(db, requests[0].scope, requests[0].op, id);
      DeletedAgentsStayDeleted(Perform(db, requests[0].scope, requests[0].op), requests[1..], viewer, id);
    }
  }

  lemma {:induction false} DeletedAppsStayDeleted(db: Db, requests: seq<Request>, viewer: OwnerScope, id: Id)
    requires id in db.apps && IsDeletedApp(db.apps[id])
    ensures Survives(db.apps, Served(db, requests).apps, id)
    ensures id !in ListedApps(Served(db, requests), viewer)
    decreases |requests|
  {
    if requests != [] {
      DeletedAppStays(db, requests[0].scope, requests[0].op, id);
      DeletedAppsStayDeleted(Perform(db, requests[0].scope, requests[0].op), requests[1..], viewer, id);
    }
  }

  lemma {:induction false} DeletedInstallationsStayDeleted(db: Db, requests: seq<Request>, viewer: OwnerScope, id: Id)
    requires id in db.installations && IsDeletedInstallation(db.installations[id])
    ensures Survives(db.installations, Served(db, requests).installations, id)
    ensures id !in ListedInstallations(Served(db, requests), viewer)
    decreases |requests|
  {
    if requests != [] {
      DeletedInstallationStays(db, requests[0].scope, requests[0].op, id);
      DeletedInstallationsStayDeleted(Perform(db, requests[0].scope, requests[0].op), requests[1..], viewer, id);
    }
  }

  predicate Unreferenced(db: Db, agentId: Id) {
    forall b :: b in db.bindings ==> db.bindings[b].agentId != agentId
  }

  lemma NoNewBindingForTheDead(db: Db, scope: OwnerScope, op: Op, id: Id)
    requires id in db.agents && IsDeletedAgent(db.agents[id]) && Unreferenced(db, id)
    ensures Unreferenced(Perform(db, scope, op), id)
  {
  }

  lemma {:induction false} TheDeadStayUnbound(db: Db, requests: seq<Request>, id: Id)
    requires id in db.agents && IsDeletedAgent(db.agents[id]) && Unreferenced(db, id)
    ensures Unreferenced(Served(db, requests), id)
    decreases |requests|
  {
    if requests != [] {
      DeletedAgentStays(db, requests[0].scope, requests[0].op, id);
      NoNewBindingForTheDead(db, requests[0].scope, requests[0].op, id);
      TheDeadStayUnbound(Perform(db, requests[0].scope, requests[0].op), requests[1..], id);
    }
  }

  /**
   * Deleting an agent one may delete always works, and for good: whatever requests follow, the
   * row keeps its sentinel handle, is shown to nobody and has no binding, active or not.
   */
  lemma DeletingAnAgentIsFinal(
    db: Db, scope: OwnerScope, id: Id, uuid: string, requests: seq<Request>, viewer: OwnerScope)
    requires id in db.agents && !IsDeletedAgent(db.agents[id]) && Owns(scope, db.agents[id].owner)
    ensures Refusal(db, scope, DeleteAgent(id, uuid)).None?
    ensures var db' := Served(Perform(db, scope, DeleteAgent(id, uuid)), requests);
      && id in db'.agents && db'.agents[id] == BuriedAgent(db.agents[id], uuid)
      && id !in ListedAgents(db', viewer)
      && Unreferenced(db', id)
  {
    assert (DELETED + uuid)[..|DELETED|] == DELETED;
    var deleted := Perform(db, scope, DeleteAgent(id, uuid));
    DeletedAgentsStayDeleted(deleted, requests, viewer, id);
    TheDeadStayUnbound(deleted, requests, id);
  }
}
