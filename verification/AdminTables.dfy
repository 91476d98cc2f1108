/**
 * The tables behind the admin console and its store operations
 * (apps/api/src/admin-api.ts; unique indexes in packages/storage/src/schema.ts), one
 * operation at a time: when it is refused, and what it writes otherwise.
 */
module AdminTables {
  import opened Wrappers

  /** Row ids and platform user ids are UUIDs. */
  type Id = nat

  datatype AgentStatus = Active | Inactive | Archived

  datatype SwitchStatus = Enabled | Disabled

  datatype BindingStatus = BindingActive | BindingInactive

  datatype MachineStatus = MachineActive | MachineRevoked

  /** `scopeKey` stands for scope type and id; `rest` for the columns no operation looks at. */
  datatype Agent = Agent(
    tenantKey: string,
    scopeKey: string,
    handle: string,
    status: AgentStatus,
    owner: Option<Id>,
    profileId: Id,
    machineId: Option<Id>,
    rest: string)

  datatype Profile = Profile(name: string, owner: Option<Id>, rest: string)

  datatype App = App(
    tenantKey: string,
    appId: string,
    appSecretRef: string,
    appSecret: Option<string>,
    botOpenId: Option<string>,
    botName: Option<string>,
    status: SwitchStatus,
    owner: Option<Id>,
    rest: string)

  datatype Installation = Installation(
    teamId: string,
    botTokenRef: string,
    botToken: Option<string>,
    botUserId: Option<string>,
    status: SwitchStatus,
    owner: Option<Id>,
    rest: string)

  datatype Machine = Machine(owner: Option<Id>, status: MachineStatus, disconnectRequestedAt: Option<int>)

  datatype Binding = Binding(agentId: Id, appId: Id, botOpenId: Option<string>, status: BindingStatus)

  datatype Db = Db(
    agents: map<Id, Agent>,
    profiles: map<Id, Profile>,
    apps: map<Id, App>,
    installations: map<Id, Installation>,
    machines: map<Id, Machine>,
    bindings: map<Id, Binding>)

  /** Who calls: a superadmin, or a platform user; a token admin has no user id. */
  datatype OwnerScope = OwnerScope(isSuperadmin: bool, userId: Option<Id>, computerAccess: bool)

  datatype Error = NotFound | Conflict | BadRequest | Forbidden | BadGateway | UniqueViolation

  // ---- Tombstones ----

  const DELETED := "__deleted__"

  predicate HasDeletedPrefix(s: string) {
    |s| >= |DELETED| && s[..|DELETED|] == DELETED
  }

  predicate IsDeletedAgent(row: Agent) {
    row.status == Archived && HasDeletedPrefix(row.handle)
  }

  predicate IsDeletedApp(row: App) {
    row.status == Disabled && HasDeletedPrefix(row.appId)
  }

  predicate IsDeletedInstallation(row: Installation) {
    row.status == Disabled && HasDeletedPrefix(row.teamId)
  }

  // ---- Ownership ----

  predicate Owns(scope: OwnerScope, owner: Option<Id>) {
    scope.isSuperadmin || (scope.userId.Some? && owner == scope.userId)
  }

  /** A reference to a row is also allowed when nobody owns it. */
  predicate MayAssign(scope: OwnerScope, owner: Option<Id>) {
    scope.isSuperadmin || owner.None? || owner == scope.userId
  }

  /** What the lists of this scope show. */
  function ListedAgents(db: Db, scope: OwnerScope): set<Id> {
    set id | id in db.agents && Owns(scope, db.agents[id].owner) && !IsDeletedAgent(db.agents[id])
  }

  function ListedApps(db: Db, scope: OwnerScope): set<Id> {
    set id | id in db.apps && Owns(scope, db.apps[id].owner) && !IsDeletedApp(db.apps[id])
  }

  function ListedInstallations(db: Db, scope: OwnerScope): set<Id> {
    set id | id in db.installations && Owns(scope, db.installations[id].owner)
      && !IsDeletedInstallation(db.installations[id])
  }

  // ---- Bindings ----

  /** The route an active binding stands for. */
  predicate RouteHolds(agentStatus: AgentStatus, appStatus: SwitchStatus, agentTenant: string, appTenant: string) {
    agentStatus == Active && appStatus == Enabled && agentTenant == appTenant
  }

  predicate IsActive(db: Db, b: Id) {
    b in db.bindings && db.bindings[b].status == BindingActive
  }

  predicate BindingSound(db: Db, binding: Binding) {
    && binding.agentId in db.agents
    && binding.appId in db.apps
    && var agent, app := db.agents[binding.agentId], db.apps[binding.appId];
       RouteHolds(agent.status, app.status, agent.tenantKey, app.tenantKey)
  }

  /** Would the agent's route through this binding still hold with the patched columns? */
  predicate AgentRouteKept(db: Db, b: Id, status: AgentStatus, tenantKey: string) {
    IsActive(db, b) ==>
      && db.bindings[b].appId in db.apps
      && var app := db.apps[db.bindings[b].appId];
         RouteHolds(status, app.status, tenantKey, app.tenantKey)
  }

  predicate AppRouteKept(db: Db, b: Id, status: SwitchStatus, tenantKey: string) {
    IsActive(db, b) ==>
      && db.bindings[b].agentId in db.agents
      && var agent := db.agents[db.bindings[b].agentId];
         RouteHolds(agent.status, status, agent.tenantKey, tenantKey)
  }

  predicate AgentKeepsRoutes(db: Db, id: Id, status: AgentStatus, tenantKey: string) {
    forall b :: b in db.bindings && db.bindings[b].agentId == id ==> AgentRouteKept(db, b, status, tenantKey)
  }

  predicate AppKeepsRoutes(db: Db, id: Id, status: SwitchStatus, tenantKey: string) {
    forall b :: b in db.bindings && db.bindings[b].appId == id ==> AppRouteKept(db, b, status, tenantKey)
  }

  // ---- Operations ----

  datatype MachineChoice = Unchanged | ServerLocal | On(machineId: Id)

  datatype AgentPatch = AgentPatch(
    tenantKey: Option<string>,
    scopeKey: Option<string>,
    handle: Option<string>,
    status: Option<AgentStatus>,
    machine: MachineChoice,
    profileId: Option<Id>,
    profileEdit: Option<string>,
    rest: Option<string>)

  datatype AppPatch = AppPatch(
    tenantKey: Option<string>,
    appId: Option<string>,
    appSecretRef: Option<string>,
    appSecret: Option<string>,
    botOpenId: Option<Option<string>>,
    status: Option<SwitchStatus>,
    rest: Option<string>)

  datatype InstallationPatch = InstallationPatch(
    teamId: Option<string>,
    botTokenRef: Option<string>,
    botToken: Option<string>,
    botUserId: Option<Option<string>>,
    status: Option<SwitchStatus>,
    rest: Option<string>)

  /**
   * The calls of the store. `newId` comes from the database, `uuid` from the store;
   * `handle` is derived from a display name and `credentialsOk` tells whether the effective
   * runtime and environment pass the credential check.
   */
  datatype Op =
    | CreateProfile(newId: Id, name: string, rest: string)
    | UpdateProfile(id: Id, newName: Option<string>, newRest: Option<string>)
    | CreateAgent(newId: Id, agent: Agent, newProfile: Option<Profile>, credentialsOk: bool)
    | UpdateAgent(id: Id, patch: AgentPatch, credentialsOk: bool)
    | DeleteAgent(id: Id, uuid: string)
    | CreateApp(newId: Id, app: App)
    | UpdateApp(id: Id, appPatch: AppPatch)
    | SyncApp(id: Id, fetchedName: Option<string>)
    | DeleteApp(id: Id, uuid: string)
    | CreateInstallation(newId: Id, installation: Installation)
    | UpdateInstallation(id: Id, installationPatch: InstallationPatch)
    | DeleteInstallation(id: Id, uuid: string)
    | DisconnectMachine(id: Id, now: int)
    | BindBot(agentId: Id, appId: Id, newId: Id)
    | UnbindBot(id: Id)

  function Or<T>(patched: Option<T>, current: T): T {
    if patched.Some? then patched.value else current
  }

  // ---- Unique indexes ----

  predicate HandleTaken(db: Db, id: Id, row: Agent) {
    exists other :: other in db.agents && other != id && SameHandleIndex(db.agents[other], row)
  }

  predicate SameHandleIndex(a: Agent, b: Agent) {
    && a.tenantKey == b.tenantKey
    && a.handle == b.handle
    && a.owner == b.owner
    && (a.owner.None? ==> a.scopeKey == b.scopeKey)
  }

  predicate AppIdTaken(db: Db, id: Id, appId: string) {
    exists other :: other in db.apps && other != id && db.apps[other].appId == appId
  }

  predicate TeamTaken(db: Db, id: Id, teamId: string) {
    exists other :: other in db.installations && other != id && db.installations[other].teamId == teamId
  }

  predicate ProfileNameTaken(db: Db, id: Id, name: string) {
    exists other :: other in db.profiles && other != id && db.profiles[other].name == name
  }

  // ---- What an operation writes ----

  function PatchedAgent(row: Agent, patch: AgentPatch): Agent {
    row.(tenantKey := Or(patch.tenantKey, row.tenantKey),
         scopeKey := Or(patch.scopeKey, row.scopeKey),
         handle := Or(patch.handle, row.handle),
         status := Or(patch.status, row.status),
         profileId := Or(patch.profileId, row.profileId),
         machineId := match patch.machine
                      case Unchanged => row.machineId
                      case ServerLocal => None
                      case On(m) => Some(m),
         rest := Or(patch.rest, row.rest))
  }

  /** The profile an inline edit goes to is the one the patched agent uses. */
  function WithProfileEdit(db: Db, row: Agent, patch: AgentPatch): Db
    requires Or(patch.profileId, row.profileId) in db.profiles
  {
    if patch.profileEdit.None? then db
    else
      var id := Or(patch.profileId, row.profileId);
      db.(profiles := db.profiles[id := db.profiles[id].(rest := patch.profileEdit.value)])
  }

  function PatchedApp(row: App, patch: AppPatch): App {
    row.(tenantKey := Or(patch.tenantKey, row.tenantKey),
         appId := Or(patch.appId, row.appId),
         appSecretRef := Or(patch.appSecretRef, row.appSecretRef),
         appSecret := if patch.appSecret.Some? then patch.appSecret else row.appSecret,
         botOpenId := Or(patch.botOpenId, row.botOpenId),
         status := Or(patch.status, row.status),
         rest := Or(patch.rest, row.rest))
  }

  function PatchedInstallation(row: Installation, patch: InstallationPatch): Installation {
    row.(teamId := Or(patch.teamId, row.teamId),
         botTokenRef := Or(patch.botTokenRef, row.botTokenRef),
         botToken := if patch.botToken.Some? then patch.botToken else row.botToken,
         botUserId := Or(patch.botUserId, row.botUserId),
         status := Or(patch.status, row.status),
         rest := Or(patch.rest, row.rest))
  }

  /** An enabled installation needs an env reference or a stored token. */
  predicate HasToken(row: Installation) {
    || (row.botTokenRef != "" && row.botTokenRef != "stored" && row.botTokenRef != "deleted")
    || (row.botToken.Some? && row.botToken.value != "")
  }

  function BuriedAgent(row: Agent, uuid: string): Agent {
    row.(handle := DELETED + uuid, status := Archived)
  }

  function BuriedApp(row: App, uuid: string): App {
    row.(appId := DELETED + uuid, appSecretRef := "deleted", appSecret := None, botOpenId := None, status := Disabled)
  }

  function BuriedInstallation(row: Installation, uuid: string): Installation {
    row.(teamId := DELETED + uuid, botToken := None, botTokenRef := "deleted", botUserId := None, status := Disabled)
  }

  function Deactivated(bindings: map<Id, Binding>, agentId: Id, appId: Id): map<Id, Binding> {
    map b | b in bindings ::
      if bindings[b].agentId == agentId || bindings[b].appId == appId
      then bindings[b].(status := BindingInactive)
      else bindings[b]
  }

  // ---- When an operation is refused ----

  function MachineRefusal(db: Db, scope: OwnerScope, machineId: Id, owner: Option<Id>): Option<Error> {
    if machineId !in db.machines then Some(BadRequest)
    else if db.machines[machineId].status == MachineRevoked then Some(BadRequest)
    else if scope.isSuperadmin then None
    else if owner.None? || db.machines[machineId].owner != owner then Some(BadRequest)
    else None
  }

  function PlacementRefusal(db: Db, scope: OwnerScope, machine: MachineChoice, owner: Option<Id>): Option<Error> {
    match machine
    case Unchanged => None
    case ServerLocal => if scope.computerAccess then None else Some(Forbidden)
    case On(machineId) => MachineRefusal(db, scope, machineId, owner)
  }

  predicate MayEditProfile(db: Db, scope: OwnerScope, id: Id) {
    scope.isSuperadmin || (id in db.profiles && Owns(scope, db.profiles[id].owner))
  }

  /** The checks before the write; the write itself can still meet a taken handle. */
  function AgentPatchCheck(db: Db, scope: OwnerScope, id: Id, patch: AgentPatch, credentialsOk: bool): Option<Error> {
    if id !in db.agents || IsDeletedAgent(db.agents[id]) || !Owns(scope, db.agents[id].owner) then Some(NotFound)
    else
      var row := db.agents[id];
      var next, target := PatchedAgent(row, patch), Or(patch.profileId, row.profileId);
      var placement := PlacementRefusal(db, scope, patch.machine, row.owner);
      if placement.Some? then placement
      else if target != row.profileId && (target !in db.profiles || !MayAssign(scope, db.profiles[target].owner)) then
        Some(NotFound)
      else if AsksForRoutes(patch) && !AgentKeepsRoutes(db, id, next.status, next.tenantKey) then Some(Conflict)
      else if patch.profileEdit.Some? && !MayEditProfile(db, scope, target) then Some(NotFound)
      else if target !in db.profiles then Some(NotFound)
      else if !credentialsOk then Some(BadRequest)
      else None
  }

  /** Only a patch of these columns is checked against the bindings. */
  predicate AsksForRoutes(patch: AgentPatch) {
    patch.status.Some? || patch.tenantKey.Some?
  }

  function AgentPatchRefusal(db: Db, scope: OwnerScope, id: Id, patch: AgentPatch, credentialsOk: bool): Option<Error> {
    var refusal := AgentPatchCheck(db, scope, id, patch, credentialsOk);
    if refusal.Some? then refusal
    else if HandleTaken(db, id, PatchedAgent(db.agents[id], patch)) then Some(Conflict)
    else None
  }

  function AgentCreationRefusal(db: Db, scope: OwnerScope, newId: Id, agent: Agent, newProfile: Option<Profile>,
                                credentialsOk: bool): Option<Error> {
    var placement := PlacementRefusal(db, scope,
      if agent.machineId.Some? then On(agent.machineId.value) else ServerLocal, scope.userId);
    if placement.Some? then placement
    else if newProfile.None? && agent.profileId !in db.profiles then Some(NotFound)
    else if newProfile.Some? && agent.profileId in db.profiles then Some(UniqueViolation)
    else if newProfile.Some? && ProfileNameTaken(db, agent.profileId, newProfile.value.name) then Some(UniqueViolation)
    else if !credentialsOk then Some(BadRequest)
    else if newId in db.agents then Some(UniqueViolation)
    else if HandleTaken(db, newId, agent.(owner := scope.userId)) then Some(Conflict)
    else None
  }

  function AppRefusal(db: Db, scope: OwnerScope, id: Id): Option<Error> {
    if id !in db.apps || IsDeletedApp(db.apps[id]) || !Owns(scope, db.apps[id].owner) then Some(NotFound) else None
  }

  predicate AppAsksForRoutes(patch: AppPatch) {
    patch.status.Some? || patch.tenantKey.Some?
  }

  function AppPatchCheck(db: Db, scope: OwnerScope, id: Id, patch: AppPatch): Option<Error> {
    var refusal := AppRefusal(db, scope, id);
    if refusal.Some? then refusal
    else
      var next := PatchedApp(db.apps[id], patch);
      if AppAsksForRoutes(patch) && !AppKeepsRoutes(db, id, next.status, next.tenantKey) then Some(Conflict) else None
  }

  function AppPatchRefusal(db: Db, scope: OwnerScope, id: Id, patch: AppPatch): Option<Error> {
    var refusal := AppPatchCheck(db, scope, id, patch);
    if refusal.Some? then refusal
    else if AppIdTaken(db, id, PatchedApp(db.apps[id], patch).appId) then Some(UniqueViolation)
    else None
  }

  function InstallationRefusal(db: Db, scope: OwnerScope, id: Id): Option<Error> {
    if id !in db.installations then Some(NotFound)
    else if IsDeletedInstallation(db.installations[id]) || !Owns(scope, db.installations[id].owner) then Some(NotFound)
    else None
  }

  function InstallationPatchRefusal(db: Db, scope: OwnerScope, id: Id, patch: InstallationPatch): Option<Error> {
    var refusal := InstallationRefusal(db, scope, id);
    if refusal.Some? then refusal
    else
      var next := PatchedInstallation(db.installations[id], patch);
      if next.status == Enabled && !HasToken(next) then Some(BadRequest)
      else if TeamTaken(db, id, next.teamId) then Some(UniqueViolation)
      else None
  }

  function BindCheck(db: Db, scope: OwnerScope, agentId: Id, appId: Id): Option<Error> {
    if agentId !in db.agents || !Owns(scope, db.agents[agentId].owner) then Some(NotFound)
    else if db.agents[agentId].status != Active then Some(Conflict)
    else if appId !in db.apps || !Owns(scope, db.apps[appId].owner) then Some(NotFound)
    else if db.apps[appId].status != Enabled then Some(Conflict)
    else if db.agents[agentId].tenantKey != db.apps[appId].tenantKey then Some(Conflict)
    else None
  }

  function BindRefusal(db: Db, scope: OwnerScope, agentId: Id, appId: Id, newId: Id): Option<Error> {
    var refusal := BindCheck(db, scope, agentId, appId);
    if refusal.Some? then refusal else if newId in db.bindings then Some(UniqueViolation) else None
  }

  /** A binding belongs to whoever owns its agent or its app. */
  predicate OwnsBinding(db: Db, scope: OwnerScope, binding: Binding) {
    || scope.isSuperadmin
    || (binding.agentId in db.agents && Owns(scope, db.agents[binding.agentId].owner))
    || (binding.appId in db.apps && Owns(scope, db.apps[binding.appId].owner))
  }

  function Refusal(db: Db, scope: OwnerScope, op: Op): Option<Error> {
    match op
    case CreateProfile(newId, name, _) =>
      if newId in db.profiles || ProfileNameTaken(db, newId, name) then Some(UniqueViolation) else None
    case UpdateProfile(id, newName, _) =>
      if !MayEditProfile(db, scope, id) || id !in db.profiles then Some(NotFound)
      else if ProfileNameTaken(db, id, Or(newName, db.profiles[id].name)) then Some(UniqueViolation)
      else None
    case CreateAgent(newId, agent, newProfile, credentialsOk) =>
      AgentCreationRefusal(db, scope, newId, agent, newProfile, credentialsOk)
    case UpdateAgent(id, patch, credentialsOk) => AgentPatchRefusal(db, scope, id, patch, credentialsOk)
    case DeleteAgent(id, _) =>
      if id !in db.agents || IsDeletedAgent(db.agents[id]) || !Owns(scope, db.agents[id].owner) then Some(NotFound)
      else if id !in ListedAgents(db, scope) then Some(NotFound)
      else None
    case CreateApp(newId, app) =>
      if newId in db.apps || AppIdTaken(db, newId, app.appId) then Some(UniqueViolation) else None
    case UpdateApp(id, patch) => AppPatchRefusal(db, scope, id, patch)
    case SyncApp(id, fetchedName) =>
      var refusal := AppRefusal(db, scope, id);
      if refusal.Some? then refusal
      else if fetchedName.None? || fetchedName.value == "" then Some(BadGateway)
      else None
    case DeleteApp(id, _) =>
      var refusal := AppRefusal(db, scope, id);
      if refusal.Some? then refusal else if id !in ListedApps(db, scope) then Some(NotFound) else None
    case CreateInstallation(newId, installation) =>
      if newId in db.installations || TeamTaken(db, newId, installation.teamId) then Some(UniqueViolation) else None
    case UpdateInstallation(id, patch) => InstallationPatchRefusal(db, scope, id, patch)
    case DeleteInstallation(id, _) =>
      var refusal := InstallationRefusal(db, scope, id);
      if refusal.Some? then refusal else if id !in ListedInstallations(db, scope) then Some(NotFound) else None
    case DisconnectMachine(id, _) =>
      if id !in db.machines || !Owns(scope, db.machines[id].owner) then Some(NotFound) else None
    case BindBot(agentId, appId, newId) => BindRefusal(db, scope, agentId, appId, newId)
    case UnbindBot(id) =>
      if id !in db.bindings || !OwnsBinding(db, scope, db.bindings[id]) then Some(NotFound) else None
  }

  /** The tables after an operation that is not refused; rows of others' tables as they were. */
  function Written(db: Db, scope: OwnerScope, op: Op): Db
    requires Refusal(db, scope, op).None?
  {
    match op
    case CreateProfile(newId, name, rest) =>
      db.(profiles := db.profiles[newId := Profile(name, scope.userId, rest)])
    case UpdateProfile(id, newName, newRest) =>
      var row := db.profiles[id];
      db.(profiles := db.profiles[id := row.(name := Or(newName, row.name), rest := Or(newRest, row.rest))])
    case CreateAgent(newId, agent, newProfile, _) =>
      db.(agents := db.agents[newId := agent.(owner := scope.userId)],
          profiles := if newProfile.None? then db.profiles
                      else db.profiles[agent.profileId := newProfile.value.(owner := scope.userId)])
    case UpdateAgent(id, patch, _) =>
      WithProfileEdit(db, db.agents[id], patch).(agents := db.agents[id := PatchedAgent(db.agents[id], patch)])
    case DeleteAgent(id, uuid) =>
      db.(agents := db.agents[id := BuriedAgent(db.agents[id], uuid)],
          bindings := map b | b in db.bindings && db.bindings[b].agentId != id :: db.bindings[b])
    case CreateApp(newId, app) =>
      db.(apps := db.apps[newId := app.(owner := scope.userId)])
    case UpdateApp(id, patch) =>
      db.(apps := db.apps[id := PatchedApp(db.apps[id], patch)])
    case SyncApp(id, fetchedName) =>
      db.(apps := db.apps[id := db.apps[id].(botName := fetchedName)])
    case DeleteApp(id, uuid) =>
      db.(apps := db.apps[id := BuriedApp(db.apps[id], uuid)],
          bindings := map b | b in db.bindings && db.bindings[b].appId != id :: db.bindings[b])
    case CreateInstallation(newId, installation) =>
      db.(installations := db.installations[newId := installation.(owner := scope.userId)])
    case UpdateInstallation(id, patch) =>
      db.(installations := db.installations[id := PatchedInstallation(db.installations[id], patch)])
    case DeleteInstallation(id, uuid) =>
      db.(installations := db.installations[id := BuriedInstallation(db.installations[id], uuid)])
    case DisconnectMachine(id, now) =>
      db.(machines := db.machines[id := db.machines[id].(disconnectRequestedAt := Some(now))])
    case BindBot(agentId, appId, newId) =>
      db.(bindings := Deactivated(db.bindings, agentId, appId)[
            newId := Binding(agentId, appId, db.apps[appId].botOpenId, BindingActive)])
    case UnbindBot(id) =>
      db.(bindings := db.bindings[id := db.bindings[id].(status := BindingInactive)])
  }

  function Perform(db: Db, scope: OwnerScope, op: Op): Db {
    if Refusal(db, scope, op).Some? then db else Written(db, scope, op)
  }

  // ---- Runs ----

  datatype Request = Request(scope: OwnerScope, op: Op)

  function Served(db: Db, requests: seq<Request>): Db
    decreases |requests|
  {
    if requests == [] then db
    else Served(Perform(db, requests[0].scope, requests[0].op), requests[1..])
  }

  // ---- Invariant of the bindings ----

  ghost predicate OneActivePerAgent(db: Db) {
    forall b, c :: IsActive(db, b) && IsActive(db, c) && db.bindings[b].agentId == db.bindings[c].agentId ==> b == c
  }

  ghost predicate OneActivePerApp(db: Db) {
    forall b, c :: IsActive(db, b) && IsActive(db, c) && db.bindings[b].appId == db.bindings[c].appId ==> b == c
  }

  ghost predicate RoutesSound(db: Db) {
    forall b :: IsActive(db, b) ==> BindingSound(db, db.bindings[b])
  }

  ghost predicate Inv(db: Db) {
    OneActivePerAgent(db) && OneActivePerApp(db) && RoutesSound(db)
  }
}
