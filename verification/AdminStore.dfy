/**
 * The store methods of the admin API as code (apps/api/src/admin-api.ts): their checks in the
 * source's order, one row read at a time, and their writes. Each is proved to do what its
 * operation in AdminTables says and so to keep the invariant of the bindings.
 */
module AdminStore {
  import opened Wrappers
  import opened AdminTables
  import opened AdminTheorems

  /** What every method promises: the operation of the tables, refused with its own error. */
  predicate IsOutcome(before: Db, after: Db, scope: OwnerScope, op: Op, error: Option<Error>) {
    error == Refusal(before, scope, op) && after == Perform(before, scope, op)
  }

  class Store {
    var agents: map<Id, Agent>
    var profiles: map<Id, Profile>
    var apps: map<Id, App>
    var installations: map<Id, Installation>
    var machines: map<Id, Machine>
    var bindings: map<Id, Binding>

    constructor ()
      ensures Tables() == Db(map[], map[], map[], map[], map[], map[]) && Valid()
    {
      agents, profiles, apps, installations, machines, bindings := map[], map[], map[], map[], map[], map[];
    }

    function Tables(): Db
      reads this
    {
      Db(agents, profiles, apps, installations, machines, bindings)
    }

    ghost predicate Valid()
      reads this
    {
      Inv(Tables())
    }

    method BindBot(scope: OwnerScope, agentId: Id, appId: Id, newId: Id) returns (error: Option<Error>)
      requires Valid()
      modifies this
      ensures Valid()
      ensures IsOutcome(old(Tables()), Tables(), scope, AdminTables.Op.BindBot(agentId, appId, newId), error)
    {
      ghost var op := AdminTables.Op.BindBot(agentId, appId, newId);
      OperationKeepsInv(Tables(), scope, op);
      if agentId !in agents || !Owns(scope, agents[agentId].owner) {
        return Some(NotFound);
      }
      if agents[agentId].status != Active {
        return Some(Conflict);
      }
      if appId !in apps || !Owns(scope, apps[appId].owner) {
        return Some(NotFound);
      }
      if apps[appId].status != Enabled || agents[agentId].tenantKey != apps[appId].tenantKey {
        return Some(Conflict);
      }
      // one transaction: deactivate, then insert; a failed insert rolls both back
      if newId in bindings {
        return Some(UniqueViolation);
      }
      bindings := Deactivated(bindings, agentId, appId);
      bindings := bindings[newId := Binding(agentId, appId, apps[appId].botOpenId, BindingActive)];
      error := None;
    }

    method UnbindBot(scope: OwnerScope, id: Id) returns (error: Option<Error>)
      requires Valid()
      modifies this
      ensures Valid()
      ensures IsOutcome(old(Tables()), Tables(), scope, AdminTables.Op.UnbindBot(id), error)
    {
      OperationKeepsInv(Tables(), scope, AdminTables.Op.UnbindBot(id));
      if !scope.isSuperadmin {
        if id !in bindings || !OwnsBinding(Tables(), scope, bindings[id]) {
          return Some(NotFound);
        }
      }
      if id !in bindings {
        return Some(NotFound);
      }
      bindings := bindings[id := bindings[id].(status := BindingInactive)];
      error := None;
    }

    /** `assertAgentPatchKeepsActiveBinding`: looks at one active binding, if there is one. */
    method AgentPatchKeepsActiveBinding(id: Id, status: AgentStatus, tenantKey: string) returns (kept: bool)
      requires Valid()
      ensures kept == AgentKeepsRoutes(Tables(), id, status, tenantKey)
    {
      if b :| b in bindings && bindings[b].agentId == id && bindings[b].status == BindingActive {
        LimitOneIsEnoughForAgents(Tables(), id, b, status, tenantKey);
        assert BindingSound(Tables(), bindings[b]);
        var app := apps[bindings[b].appId];
        kept := RouteHolds(status, app.status, tenantKey, app.tenantKey);
      } else {
        kept := true;
      }
    }

    method AppPatchKeepsActiveBinding(id: Id, status: SwitchStatus, tenantKey: string) returns (kept: bool)
      requires Valid()
      ensures kept == AppKeepsRoutes(Tables(), id, status, tenantKey)
    {
      if b :| b in bindings && bindings[b].appId == id && bindings[b].status == BindingActive {
        LimitOneIsEnoughForApps(Tables(), id, b, status, tenantKey);
        assert BindingSound(Tables(), bindings[b]);
        var agent := agents[bindings[b].agentId];
        kept := RouteHolds(agent.status, status, agent.tenantKey, tenantKey);
      } else {
        kept := true;
      }
    }

    /** The checks of `updateAgent`, up to the transaction. */
    method CheckAgentPatch(scope: OwnerScope, id: Id, patch: AgentPatch, credentialsOk: bool)
      returns (error: Option<Error>)
      requires Valid() && id in agents && !IsDeletedAgent(agents[id]) && Owns(scope, agents[id].owner)
      ensures error == AgentPatchRefusal(Tables(), scope, id, patch, credentialsOk)
    {
      var current := agents[id];
      if patch.machine.ServerLocal? && !scope.computerAccess {
        return Some(Forbidden);
      }
      if patch.machine.On? {
        error := MachineRefusal(Tables(), scope, patch.machine.machineId, current.owner);
        if error.Some? {
          return;
        }
      }
      var targetId := Or(patch.profileId, current.profileId);
      if targetId != current.profileId {
        if targetId !in profiles || !MayAssign(scope, profiles[targetId].owner) {
          return Some(NotFound);
        }
      }
      var next := PatchedAgent(current, patch);
      if patch.status.Some? || patch.tenantKey.Some? {
        var kept := AgentPatchKeepsActiveBinding(id, next.status, next.tenantKey);
        if !kept {
          return Some(Conflict);
        }
      }
      if patch.profileEdit.Some? && !MayEditProfile(Tables(), scope, targetId) {
        return Some(NotFound);
      }
      if targetId !in profiles {
        return Some(NotFound);
      }
      if !credentialsOk {
        return Some(BadRequest);
      }
      error := if HandleTaken(Tables(), id, next) then Some(Conflict) else None;
    }

    method UpdateAgent(scope: OwnerScope, id: Id, patch: AgentPatch, credentialsOk: bool) returns (error: Option<Error>)
      requires Valid()
      modifies this
      ensures Valid()
      ensures IsOutcome(old(Tables()), Tables(), scope, AdminTables.Op.UpdateAgent(id, patch, credentialsOk), error)
    {
      OperationKeepsInv(Tables(), scope, AdminTables.Op.UpdateAgent(id, patch, credentialsOk));
      if id !in agents || IsDeletedAgent(agents[id]) || !Owns(scope, agents[id].owner) {
        return Some(NotFound);
      }
      error := CheckAgentPatch(scope, id, patch, credentialsOk);
      if error.Some? {
        return;
      }
      var current := agents[id];
      if patch.profileEdit.Some? {
        var targetId := Or(patch.profileId, current.profileId);
        profiles := profiles[targetId := profiles[targetId].(rest := patch.profileEdit.value)];
      }
      agents := agents[id := PatchedAgent(current, patch)];
    }

    method DeleteAgent(scope: OwnerScope, id: Id, uuid: string) returns (error: Option<Error>)
      requires Valid()
      modifies this
      ensures Valid()
      ensures IsOutcome(old(Tables()), Tables(), scope, AdminTables.Op.DeleteAgent(id, uuid), error)
    {
      OperationKeepsInv(Tables(), scope, AdminTables.Op.DeleteAgent(id, uuid));
      if id !in agents || IsDeletedAgent(agents[id]) || !Owns(scope, agents[id].owner) {
        return Some(NotFound);
      }
      if id !in ListedAgents(Tables(), scope) {
        return Some(NotFound);
      }
      bindings := map b | b in bindings && bindings[b].agentId != id :: bindings[b];
      agents := agents[id := agents[id].(handle := DELETED + uuid, status := Archived)];
      error := None;
    }

    method UpdateFeishuApp(scope: OwnerScope, id: Id, patch: AppPatch) returns (error: Option<Error>)
      requires Valid()
      modifies this
      ensures Valid()
      ensures IsOutcome(old(Tables()), Tables(), scope, UpdateApp(id, patch), error)
    {
      OperationKeepsInv(Tables(), scope, UpdateApp(id, patch));
      if id !in apps || IsDeletedApp(apps[id]) || !Owns(scope, apps[id].owner) {
        return Some(NotFound);
      }
      var next := PatchedApp(apps[id], patch);
      if patch.status.Some? || patch.tenantKey.Some? {
        var kept := AppPatchKeepsActiveBinding(id, next.status, next.tenantKey);
        if !kept {
          return Some(Conflict);
        }
      }
      if AppIdTaken(Tables(), id, next.appId) {
        return Some(UniqueViolation);
      }
      apps := apps[id := next];
      error := None;
    }

    method SyncFeishuAppMetadata(scope: OwnerScope, id: Id, fetchedName: Option<string>) returns (error: Option<Error>)
      requires Valid()
      modifies this
      ensures Valid()
      ensures IsOutcome(old(Tables()), Tables(), scope, SyncApp(id, fetchedName), error)
    {
      OperationKeepsInv(Tables(), scope, SyncApp(id, fetchedName));
      if id !in apps || IsDeletedApp(apps[id]) || !Owns(scope, apps[id].owner) {
        return Some(NotFound);
      }
      if fetchedName.None? || fetchedName.value == "" {
        return Some(BadGateway);
      }
      apps := apps[id := apps[id].(botName := fetchedName)];
      error := None;
    }

    method DeleteFeishuApp(scope: OwnerScope, id: Id, uuid: string) returns (error: Option<Error>)
      requires Valid()
      modifies this
      ensures Valid()
      ensures IsOutcome(old(Tables()), Tables(), scope, DeleteApp(id, uuid), error)
    {
      OperationKeepsInv(Tables(), scope, DeleteApp(id, uuid));
      if id !in apps || IsDeletedApp(apps[id]) || !Owns(scope, apps[id].owner) {
        return Some(NotFound);
      }
      if id !in ListedApps(Tables(), scope) {
        return Some(NotFound);
      }
      bindings := map b | b in bindings && bindings[b].appId != id :: bindings[b];
      apps := apps[id := apps[id].(appId := DELETED + uuid, appSecretRef := "deleted", appSecret := None,
                                   botOpenId := None, status := Disabled)];
      error := None;
    }

    method UpdateSlackInstallation(scope: OwnerScope, id: Id, patch: InstallationPatch) returns (error: Option<Error>)
      requires Valid()
      modifies this
      ensures Valid()
      ensures IsOutcome(old(Tables()), Tables(), scope, UpdateInstallation(id, patch), error)
    {
      OperationKeepsInv(Tables(), scope, UpdateInstallation(id, patch));
      if id !in installations || IsDeletedInstallation(installations[id]) || !Owns(scope, installations[id].owner) {
        return Some(NotFound);
      }
      var current := installations[id];
      var effectiveRef := Or(patch.botTokenRef, current.botTokenRef);
      var effectiveToken := if patch.botToken.Some? then patch.botToken else current.botToken;
      var hasToken :=
        || (effectiveRef != "" && effectiveRef != "stored" && effectiveRef != "deleted")
        || (effectiveToken.Some? && effectiveToken.value != "");
      if Or(patch.status, current.status) == Enabled && !hasToken {
        return Some(BadRequest);
      }
      if TeamTaken(Tables(), id, Or(patch.teamId, current.teamId)) {
        return Some(UniqueViolation);
      }
      installations := installations[id := PatchedInstallation(current, patch)];
      error := None;
    }

    method DeleteSlackInstallation(scope: OwnerScope, id: Id, uuid: string) returns (error: Option<Error>)
      requires Valid()
      modifies this
      ensures Valid()
      ensures IsOutcome(old(Tables()), Tables(), scope, DeleteInstallation(id, uuid), error)
    {
      OperationKeepsInv(Tables(), scope, DeleteInstallation(id, uuid));
      if id !in installations || IsDeletedInstallation(installations[id]) || !Owns(scope, installations[id].owner) {
        return Some(NotFound);
      }
      if id !in ListedInstallations(Tables(), scope) {
        return Some(NotFound);
      }
      installations := installations[id := installations[id].(teamId := DELETED + uuid, botToken := None,
        botTokenRef := "deleted", botUserId := None, status := Disabled)];
      error := None;
    }

    method UpdateProfile(scope: OwnerScope, id: Id, newName: Option<string>, newRest: Option<string>)
      returns (error: Option<Error>)
      requires Valid()
      modifies this
      ensures Valid()
      ensures IsOutcome(old(Tables()), Tables(), scope, AdminTables.Op.UpdateProfile(id, newName, newRest), error)
    {
      OperationKeepsInv(Tables(), scope, AdminTables.Op.UpdateProfile(id, newName, newRest));
      if !scope.isSuperadmin {
        if scope.userId.None? || id !in profiles || profiles[id].owner != scope.userId {
          return Some(NotFound);
        }
      }
      if id !in profiles {
        return Some(NotFound);
      }
      if ProfileNameTaken(Tables(), id, Or(newName, profiles[id].name)) {
        return Some(UniqueViolation);
      }
      profiles := profiles[
        id := profiles[id].(name := Or(newName, profiles[id].name), rest := Or(newRest, profiles[id].rest))];
      error := None;
    }

    method DisconnectMachine(scope: OwnerScope, id: Id, now: int) returns (error: Option<Error>)
      requires Valid()
      modifies this
      ensures Valid()
      ensures IsOutcome(old(Tables()), Tables(), scope, AdminTables.Op.DisconnectMachine(id, now), error)
    {
      OperationKeepsInv(Tables(), scope, AdminTables.Op.DisconnectMachine(id, now));
      if id !in machines || !(scope.isSuperadmin || (scope.userId.Some? && machines[id].owner == scope.userId)) {
        return Some(NotFound);
      }
      machines := machines[id := machines[id].(disconnectRequestedAt := Some(now))];
      error := None;
    }

    /** `createAgent`: the profile, if a new one is needed, and the agent in one transaction. */
    method CreateAgent(scope: OwnerScope, newId: Id, agent: Agent, newProfile: Option<Profile>, credentialsOk: bool)
      returns (error: Option<Error>)
      requires Valid()
      modifies this
      ensures Valid()
      ensures IsOutcome(
        old(Tables()), Tables(), scope, AdminTables.Op.CreateAgent(newId, agent, newProfile, credentialsOk), error)
    {
      OperationKeepsInv(Tables(), scope, AdminTables.Op.CreateAgent(newId, agent, newProfile, credentialsOk));
      if agent.machineId.Some? {
        error := MachineRefusal(Tables(), scope, agent.machineId.value, scope.userId);
        if error.Some? {
          return;
        }
      } else if !scope.computerAccess {
        return Some(Forbidden);
      }
      if newProfile.None? {
        if agent.profileId !in profiles {
          return Some(NotFound);
        }
      } else if agent.profileId in profiles || ProfileNameTaken(Tables(), agent.profileId, newProfile.value.name) {
        return Some(UniqueViolation);
      }
      if !credentialsOk {
        return Some(BadRequest);
      }
      if newId in agents {
        return Some(UniqueViolation);
      }
      if HandleTaken(Tables(), newId, agent.(owner := scope.userId)) {
        return Some(Conflict);
      }
      if newProfile.Some? {
        profiles := profiles[agent.profileId := newProfile.value.(owner := scope.userId)];
      }
      agents := agents[newId := agent.(owner := scope.userId)];
      error := None;
    }
  }
}
