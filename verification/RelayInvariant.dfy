/** What holds of the authorization state between any two requests. */
module RelayInvariant {
  import opened Wrappers
  import opened RelayState
  import opened RelayOps
  import Text

  predicate RouteOk(r: Route) {
    match r
    case Named(name) => Text.DeviceName(name)
    case Immutable(id) => Text.DeviceId(id)
  }

  predicate ResourceOk(resource: Resource) {
    HasDevice(resource) ==> RouteOk(resource.device)
  }

  ghost predicate Indexed(usernames: map<string, string>, username: string, u: string) {
    var n := NormalizeUsername(username);
    n.Some? && n.value in usernames && usernames[n.value] == u
  }

  ghost predicate Backed(users: map<string, User>, n: string, u: string) {
    u in users && NormalizeUsername(users[u].username) == Some(n)
  }

  /** Every account is filed under its own ID, and the index of normalized names
      is exactly the accounts' names, one account each. */
  ghost predicate NamesAgree(users: map<string, User>, usernames: map<string, string>) {
    (forall u :: u in users ==> u != "" && users[u].id == u && Indexed(usernames, users[u].username, u)) &&
    (forall n :: n in usernames ==> Backed(users, n, usernames[n]))
  }

  predicate ClientOk(id: string, c: Client) {
    id != "" && c.id == id &&
    if c.deviceKey == NoKey then c.deviceId == "" && !c.keyVerified
    else Text.DeviceId(c.deviceId) && c.keyVerified && c.deviceKey == Key(c.deviceId)
  }

  ghost predicate ClientsOk(clients: map<string, Client>) {
    forall c :: c in clients ==> ClientOk(c, clients[c])
  }

  /** An owned route has a known owner, is not retired, and its record names the same owner. */
  ghost predicate DevicesOk(devices: map<Route, string>, retired: map<Route, bool>, records: map<Route, DeviceRecord>, known: set<string>) {
    forall r :: r in devices ==>
      RouteOk(r) && devices[r] in known && r !in retired && Get(records, r, NoRecord).owner in {"", devices[r]}
  }

  ghost predicate FlagsOk(disabled: map<Route, bool>, retired: map<Route, bool>) {
    (forall r :: r in disabled ==> RouteOk(r)) && (forall r :: r in retired ==> RouteOk(r) && retired[r])
  }

  predicate RecordKeyOk(r: Route, key: PublicKey) {
    key == NoKey || (r.Immutable? && key == Key(r.id))
  }

  ghost predicate RecordsOk(records: map<Route, DeviceRecord>, known: set<string>) {
    forall r :: r in records ==>
      RouteOk(r) && RecordKeyOk(r, records[r].key) && (records[r].owner == "" || records[r].owner in known)
  }

  ghost predicate RegistryOk(reg: Registry) {
    NamesAgree(reg.users, reg.usernames) && ClientsOk(reg.clients) &&
    DevicesOk(reg.devices, reg.retired, reg.records, reg.users.Keys) && FlagsOk(reg.disabled, reg.retired) &&
    RecordsOk(reg.records, reg.users.Keys)
  }

  predicate Approved(clients: map<string, Client>, id: string) {
    id != "" && id in clients && clients[id].id == id && clients[id].approved
  }

  predicate Active(users: map<string, User>, u: string) {
    u in users && users[u].id == u && !users[u].disabled
  }

  /** A token names an approved client and an enabled user, and its scope is the one its resource calls for. */
  predicate TokenOk(clients: map<string, Client>, users: map<string, User>, t: Token) {
    Approved(clients, t.client) && Active(users, t.user) && ResourceOk(t.resource) && t.scope.kind == KindOf(t.resource)
  }

  ghost predicate TokensOk(clients: map<string, Client>, users: map<string, User>, m: map<string, Token>) {
    forall k :: k in m ==> TokenOk(clients, users, m[k])
  }

  predicate PendingOk(p: Pending) {
    ResourceOk(p.resource) && p.scope.kind == KindOf(p.resource)
  }

  ghost predicate PendingsOk(m: map<string, Pending>) {
    forall k :: k in m ==> PendingOk(m[k])
  }

  ghost predicate CodesOk(m: map<string, Code>) {
    forall k :: k in m ==> PendingOk(m[k].grant)
  }

  ghost predicate GrantsOk(clients: map<string, Client>, users: map<string, User>, g: Grants) {
    TokensOk(clients, users, g.access) && TokensOk(clients, users, g.refresh) && TokensOk(clients, users, g.refreshUsed) &&
    PendingsOk(g.pending) && CodesOk(g.codes)
  }

  ghost predicate Inv(s: State) {
    RegistryOk(s.reg) && GrantsOk(s.reg.clients, s.reg.users, s.grants)
  }

  /** No account owns more routes than the quota. */
  ghost predicate WithinQuota(reg: Registry) {
    forall u :: |RoutesOf(reg.devices, u)| <= MAX_DEVICES_USER
  }

  // ------------------------------------------------------------- shrinking

  /** Every client and user some token of `g` names is as good in the new registry. */
  ghost predicate Supports(clients: map<string, Client>, users: map<string, User>, g: Grants) {
    (forall k :: k in g.access ==> Approved(clients, g.access[k].client) && Active(users, g.access[k].user)) &&
    (forall k :: k in g.refresh ==> Approved(clients, g.refresh[k].client) && Active(users, g.refresh[k].user)) &&
    (forall k :: k in g.refreshUsed ==> Approved(clients, g.refreshUsed[k].client) && Active(users, g.refreshUsed[k].user))
  }

  /** Losing grants keeps the invariant, in any registry that still supports the rest. */
  lemma ShrinkKeeps(s: State, t: State)
    requires Inv(s) && RegistryOk(t.reg) && SubGrants(t.grants, s.grants) && Supports(t.reg.clients, t.reg.users, t.grants)
    ensures Inv(t)
  {
    hide RegistryOk, RouteOk, KindOf;
  }

  lemma CleanupRegistry(s: State, now: int)
    requires RegistryOk(s.reg)
    ensures RegistryOk(Cleanup(s, now).reg)
  {
    hide NamesAgree, DevicesOk, FlagsOk, RecordsOk, ClientOk, CleanGrants;
  }

  lemma CleanupShrinks(reg: Registry, g: Grants, now: int)
    ensures SubGrants(CleanGrants(reg, g, now), g)
  {
    hide TokenLive, PendingLive, CodeLive;
  }

  /** Clean-up drops no client that a surviving token names. */
  lemma CleanupSupport(s: State, now: int)
    requires Inv(s)
    ensures Supports(Cleanup(s, now).reg.clients, s.reg.users, Cleanup(s, now).grants)
  {
    hide RegistryOk, Intact, PendingLive, CodeLive;
  }

  lemma CleanupKeeps(s: State, now: int)
    requires Inv(s)
    ensures Inv(Cleanup(s, now))
  {
    assert RegistryOk(s.reg);
    CleanupRegistry(s, now);
    CleanupShrinks(s.reg, s.grants, now);
    CleanupSupport(s, now);
    assert Cleanup(s, now).reg.users == s.reg.users && Cleanup(s, now).grants == CleanGrants(s.reg, s.grants, now);
    hide *;
    ShrinkKeeps(s, Cleanup(s, now));
  }

  // ------------------------------------------------------ each way of shrinking

  lemma RevokeFamilyKeeps(s: State, family: string)
    requires Inv(s)
    ensures Inv(s.(grants := RevokeFamily(s.grants, family)))
  {
    var t := s.(grants := RevokeFamily(s.grants, family));
    assert SubGrants(t.grants, s.grants) && Supports(t.reg.clients, t.reg.users, t.grants) by {
      hide RegistryOk, ResourceOk, KindOf;
    }
    hide *;
    ShrinkKeeps(s, t);
  }

  lemma FewerClients(reg: Registry, clients: map<string, Client>)
    requires RegistryOk(reg) && Sub(clients, reg.clients)
    ensures RegistryOk(reg.(clients := clients))
  {
    hide NamesAgree, DevicesOk, FlagsOk, RecordsOk, ClientOk;
  }

  lemma RevokeClientsSupport(s: State, ids: set<string>)
    requires Inv(s)
    ensures SubGrants(RevokeClients(s, ids).grants, s.grants)
    ensures Supports(s.reg.clients - ids, s.reg.users, RevokeClients(s, ids).grants)
  {
    hide RegistryOk, ResourceOk, KindOf;
  }

  lemma RevokeClientsKeeps(s: State, ids: set<string>)
    requires Inv(s)
    ensures Inv(RevokeClients(s, ids))
  {
    FewerClients(s.reg, s.reg.clients - ids);
    RevokeClientsSupport(s, ids);
    assert RevokeClients(s, ids).reg == s.reg.(clients := s.reg.clients - ids);
    hide *;
    ShrinkKeeps(s, RevokeClients(s, ids));
  }

  lemma RevokeUserSupport(s: State, u: string)
    requires Inv(s)
    ensures SubGrants(RevokeUser(s, u).grants, s.grants)
    ensures Supports(s.reg.clients, s.reg.users - {u}, RevokeUser(s, u).grants)
  {
    hide RegistryOk, ResourceOk, KindOf;
  }

  lemma ChangedNames(users: map<string, User>, usernames: map<string, string>, u: string, user: User)
    requires NamesAgree(users, usernames) && u in users && user.id == u && user.username == users[u].username
    ensures NamesAgree(users[u := user], usernames)
  {
    hide NormalizeUsername, Indexed;
  }

  /** Changing an account other than its name keeps the registry in order. */
  lemma ChangedUser(reg: Registry, u: string, user: User)
    requires RegistryOk(reg) && u in reg.users && user.id == u && user.username == reg.users[u].username
    ensures RegistryOk(reg.(users := reg.users[u := user]))
  {
    hide NamesAgree, ClientsOk, DevicesOk, RecordsOk, FlagsOk;
    ChangedNames(reg.users, reg.usernames, u, user);
    assert reg.users[u := user].Keys == reg.users.Keys;
  }

  lemma SupportWithout(clients: map<string, Client>, users: map<string, User>, u: string, user: User, g: Grants)
    requires Supports(clients, users - {u}, g)
    ensures Supports(clients, users[u := user], g)
  {
  }

  /** Changing an account and revoking its credentials keeps the invariant: nothing is left that names it. */
  lemma ChangeAndRevokeUserKeeps(s: State, u: string, user: User)
    requires Inv(s) && u in s.reg.users && user.id == u && user.username == s.reg.users[u].username
    ensures Inv(RevokeUser(s.(reg := s.reg.(users := s.reg.users[u := user])), u))
  {
    var reg := s.reg.(users := s.reg.users[u := user]);
    var t := RevokeUser(s.(reg := reg), u);
    assert t.grants == RevokeUser(s, u).grants && t.reg == reg && RegistryOk(s.reg);
    hide *;
    ChangedUser(s.reg, u, user);
    RevokeUserSupport(s, u);
    SupportWithout(s.reg.clients, s.reg.users, u, user, t.grants);
    ShrinkKeeps(s, t);
  }

  lemma RetiredRegistryOk(reg: Registry, routes: set<Route>)
    requires RegistryOk(reg) && forall r :: r in routes ==> RouteOk(r)
    ensures RegistryOk(reg.(retired := reg.retired + (map r | r in routes :: true), devices := reg.devices - routes,
                            disabled := reg.disabled - routes, records := reg.records - routes))
  {
    hide NamesAgree, ClientsOk, RouteOk;
  }

  lemma RevokeRoutesSupport(s: State, routes: set<Route>)
    requires Inv(s)
    ensures SubGrants(RevokeRoutes(s.grants, routes), s.grants)
    ensures Supports(s.reg.clients, s.reg.users, RevokeRoutes(s.grants, routes))
  {
    hide RegistryOk, ResourceOk, KindOf, UsesAny;
  }

  lemma RetireKeeps(s: State, routes: set<Route>)
    requires Inv(s) && forall r :: r in routes ==> RouteOk(r)
    ensures Inv(Retire(s, routes))
  {
    var reg := s.reg.(retired := s.reg.retired + (map r | r in routes :: true), devices := s.reg.devices - routes,
                      disabled := s.reg.disabled - routes, records := s.reg.records - routes);
    var t := s.(reg := reg, grants := RevokeRoutes(s.grants, routes));
    var ids := BoundToAny(s.reg.clients, routes);
    assert Retire(s, routes) == RevokeClients(t, ids) && RegistryOk(s.reg);
    hide *;
    RetiredRegistryOk(s.reg, routes);
    RevokeRoutesSupport(s, routes);
    ShrinkKeeps(s, t);
    RevokeClientsKeeps(t, ids);
  }

  lemma RemovedNames(users: map<string, User>, usernames: map<string, string>, u: string)
    requires NamesAgree(users, usernames)
    ensures NamesAgree(users - {u}, map n | n in usernames && usernames[n] != u :: usernames[n])
  {
    hide NormalizeUsername;
  }

  /** An account that owns nothing can be removed. */
  lemma RemovedUser(reg: Registry, u: string)
    requires RegistryOk(reg)
    requires forall r :: r in reg.devices ==> reg.devices[r] != u
    requires forall r :: r in reg.records ==> reg.records[r].owner != u
    ensures RegistryOk(RemoveUser(reg, u))
  {
    hide NamesAgree, ClientsOk, FlagsOk, RouteOk;
    RemovedNames(reg.users, reg.usernames, u);
  }

  lemma LeftBehindRoutes(reg: Registry, u: string)
    requires RegistryOk(reg)
    ensures forall r :: r in LeftBehind(reg, u) ==> RouteOk(r)
    ensures u != "" ==> forall r :: r in reg.devices - LeftBehind(reg, u) ==> reg.devices[r] != u
    ensures forall r :: r in reg.records - LeftBehind(reg, u) ==> reg.records[r].owner != u
  {
    hide NamesAgree, ClientsOk, RouteOk;
  }

  lemma DeleteUserKeeps(s: State, u: string)
    requires Inv(s) && u in s.reg.users
    ensures Inv(RevokeUser(Retire(s.(reg := RemoveUser(s.reg, u)), LeftBehind(s.reg, u)), u))
  {
    var routes := LeftBehind(s.reg, u);
    var r1 := Retire(s, routes);
    var t := RevokeUser(Retire(s.(reg := RemoveUser(s.reg, u)), routes), u);
    assert t.reg == RemoveUser(r1.reg, u) && t.grants == RevokeUser(r1, u).grants;
    assert RegistryOk(s.reg) && r1.reg.devices == s.reg.devices - routes && r1.reg.records == s.reg.records - routes;
    assert r1.reg.users - {u} == t.reg.users && r1.reg.clients == t.reg.clients;
    assert u != "" by { hide Retire, RevokeUser; }
    RetireKeeps(s, routes) by { LeftBehindRoutes(s.reg, u); }
    assert RegistryOk(r1.reg);
    hide *;
    LeftBehindRoutes(s.reg, u);
    RemovedUser(r1.reg, u);
    RevokeUserSupport(r1, u);
    ShrinkKeeps(r1, t);
  }

  // ------------------------------------------------------- registry that grows

  /** Nothing the tokens depend on is taken away. */
  ghost predicate Extends(a: Registry, b: Registry) {
    (forall c :: Approved(b.clients, c) ==> Approved(a.clients, c)) &&
    (forall u :: Active(b.users, u) ==> Active(a.users, u))
  }

  lemma ExtendKeeps(s: State, t: State)
    requires Inv(s) && RegistryOk(t.reg) && Extends(t.reg, s.reg) && t.grants == s.grants
    ensures Inv(t)
  {
    hide RegistryOk, RouteOk, KindOf, Approved, Active;
  }

  lemma RecordSet(reg: Registry, r: Route, record: DeviceRecord)
    requires RegistryOk(reg) && RouteOk(r) && RecordKeyOk(r, record.key)
    requires record.owner == "" || record.owner in reg.users
    requires r in reg.devices ==> record.owner in {"", reg.devices[r]}
    ensures RegistryOk(reg.(records := reg.records[r := record]))
  {
    hide NamesAgree, ClientsOk, FlagsOk, RouteOk, RecordKeyOk;
  }

  lemma DeviceClaimed(reg: Registry, r: Route, u: string)
    requires RegistryOk(reg) && RouteOk(r) && u in reg.users && r !in reg.retired
    requires Get(reg.records, r, NoRecord).owner in {"", u}
    ensures RegistryOk(reg.(devices := reg.devices[r := u]))
  {
    hide NamesAgree, ClientsOk, FlagsOk, RouteOk, RecordKeyOk;
  }

  lemma NoNamelessUser(reg: Registry)
    requires RegistryOk(reg)
    ensures "" !in reg.users && forall r :: r in reg.devices ==> reg.devices[r] != ""
  {
    hide ClientsOk, RecordsOk, FlagsOk, Indexed, Backed, RouteOk;
  }

  /** A key that passes validation is the one the route is derived from. */
  lemma ValidatedKey(reg: Registry, clientId: string, resource: Resource)
    requires HasDevice(resource) && ValidateDeviceKey(reg, clientId, resource).Success?
    ensures RecordKeyOk(resource.device, ValidateDeviceKey(reg, clientId, resource).value)
  {
  }

  lemma BoundRecord(reg: Registry, r: Route, u: string, key: PublicKey)
    requires RegistryOk(reg) && RouteOk(r) && RecordKeyOk(r, key) && u in reg.users
    requires r in reg.devices ==> reg.devices[r] == u
    requires Get(reg.records, r, NoRecord).owner in {"", u}
    ensures RegistryOk(reg.(records := reg.records[r := BindKey(EnsureRecord(reg, r, u), key)]))
  {
    var record := BindKey(EnsureRecord(reg, r, u), key);
    assert RecordKeyOk(r, record.key) by {
      hide NamesAgree, ClientsOk, DevicesOk, FlagsOk, RouteOk;
    }
    hide RegistryOk, RouteOk, RecordKeyOk;
    RecordSet(reg, r, record);
  }

  lemma AuthorizeRegistry(s: State, fault: bool, u: string, clientId: string, resource: Resource)
    requires RegistryOk(s.reg) && ResourceOk(resource)
    requires AuthorizeResource(s, fault, u, clientId, resource).Success?
    ensures RegistryOk(AuthorizeResource(s, fault, u, clientId, resource).value)
  {
    NoNamelessUser(s.reg);
    hide RegistryOk, RouteOk, ValidateDeviceKey, BindKey, EnsureRecord, RoutesOf, RecordKeyOk;
    var reg := AuthorizeResource(s, fault, u, clientId, resource).value;
    if reg != s.reg {
      var r := resource.device;
      ValidatedKey(s.reg, clientId, resource);
      var key := ValidateDeviceKey(s.reg, clientId, resource).value;
      BoundOwner(s.reg, r, u, key);
      BoundRecord(s.reg, r, u, key);
      if r !in s.reg.devices {
        RetiredOff(s.reg, r);
        DeviceClaimed(s.reg.(records := reg.records), r, u);
      }
    }
  }

  lemma RetiredOff(reg: Registry, r: Route)
    requires RegistryOk(reg) && !On(reg.retired, r)
    ensures r !in reg.retired
  {
    hide NamesAgree, ClientsOk, DevicesOk, RecordsOk, RouteOk;
  }

  lemma BoundOwner(reg: Registry, r: Route, u: string, key: PublicKey)
    requires Get(reg.records, r, NoRecord).owner in {"", u}
    ensures BindKey(EnsureRecord(reg, r, u).(owner := u), key) == BindKey(EnsureRecord(reg, r, u), key)
    ensures BindKey(EnsureRecord(reg, r, u), key).owner == u
    ensures key == NoKey ==> BindKey(EnsureRecord(reg, r, u), key) == EnsureRecord(reg, r, u)
  {
  }

  /** A successful authorization leaves the user owning the device, claims at most
      that one route, and only when nobody owned it. */
  lemma AuthorizedOwns(s: State, fault: bool, u: string, clientId: string, resource: Resource)
    requires RegistryOk(s.reg) && AuthorizeResource(s, fault, u, clientId, resource).Success?
    ensures var reg := AuthorizeResource(s, fault, u, clientId, resource).value;
            reg == s.reg.(devices := reg.devices, records := reg.records) &&
            (HasDevice(resource) ==> DeviceOn(reg, resource.device) && Owns(reg, u, resource.device)) &&
            (reg.devices == s.reg.devices || (resource.Agent? && resource.device !in s.reg.devices &&
                                              reg.devices == s.reg.devices[resource.device := u] &&
                                              |RoutesOf(s.reg.devices, u)| < MAX_DEVICES_USER))
    ensures !fault && !s.switches.kill && u in s.reg.users && !s.reg.users[u].disabled
  {
    NoNamelessUser(s.reg);
    hide RegistryOk, ValidateDeviceKey, RoutesOf;
  }

  lemma ApproveClient(reg: Registry, id: string)
    requires RegistryOk(reg) && id in reg.clients
    ensures RegistryOk(reg.(clients := reg.clients[id := reg.clients[id].(approved := true)]))
  {
    hide NamesAgree, DevicesOk, FlagsOk, RecordsOk, Text.DeviceId;
  }

  lemma CommitRegistry(s: State, fault: bool, now: int, request: string, u: string, code: string)
    requires Inv(s) && CommitAuthorization(s, fault, now, request, u, code).Success?
    ensures RegistryOk(CommitAuthorization(s, fault, now, request, u, code).value.reg)
  {
    var p := s.grants.pending[request];
    assert ResourceOk(p.resource) && RegistryOk(s.reg);
    var t := CommitAuthorization(s, fault, now, request, u, code).value;
    var reg := AuthorizeResource(s, fault, u, p.client, p.resource).value;
    AuthorizeRegistry(s, fault, u, p.client, p.resource);
    AuthorizedOwns(s, fault, u, p.client, p.resource);
    var mid := reg.(records := t.reg.records);
    if t.reg.records != reg.records {
      assert RecordKeyOk(p.resource.device, NoKey);
      BoundRecord(reg, p.resource.device, u, NoKey);
    }
    assert t.reg == mid.(clients := mid.clients[p.client := mid.clients[p.client].(approved := true)]);
    hide *;
    ApproveClient(mid, p.client);
  }

  lemma ApproveExtends(a: Registry, b: Registry, id: string)
    requires id in b.clients && a.users == b.users && a.clients == b.clients[id := b.clients[id].(approved := true)]
    ensures Extends(a, b)
  {
  }

  lemma CommitExtends(s: State, fault: bool, now: int, request: string, u: string, code: string)
    requires RegistryOk(s.reg) && CommitAuthorization(s, fault, now, request, u, code).Success?
    ensures Extends(CommitAuthorization(s, fault, now, request, u, code).value.reg, s.reg)
  {
    var p := s.grants.pending[request];
    hide AuthorizeResource, EnsureRecord, RegistryOk, Owns, DeviceOn, Extends, RoutesOf;
    AuthorizedOwns(s, fault, u, p.client, p.resource);
    ApproveExtends(CommitAuthorization(s, fault, now, request, u, code).value.reg, s.reg, p.client);
  }

  /** Requests and codes may come and go as long as each asks for a valid resource and its own scope. */
  lemma RequestsKeep(s: State, t: State)
    requires Inv(s) && t.reg == s.reg && PendingsOk(t.grants.pending) && CodesOk(t.grants.codes)
    requires t.grants == s.grants.(pending := t.grants.pending, codes := t.grants.codes)
    ensures Inv(t)
  {
    hide RegistryOk, TokensOk, PendingsOk, CodesOk;
  }

  /** A commitment turns one pending request into one code and touches no other grant. */
  lemma CommitGrants(s: State, fault: bool, now: int, request: string, u: string, code: string)
    requires GrantsOk(s.reg.clients, s.reg.users, s.grants) && CommitAuthorization(s, fault, now, request, u, code).Success?
    ensures var g := CommitAuthorization(s, fault, now, request, u, code).value.grants;
            PendingsOk(g.pending) && CodesOk(g.codes) && g == s.grants.(pending := g.pending, codes := g.codes)
  {
    hide AuthorizeResource, EnsureRecord, TokensOk, RouteOk, KindOf, ClientMatches;
  }

  lemma CommitKeeps(s: State, fault: bool, now: int, request: string, u: string, code: string)
    requires Inv(s) && CommitAuthorization(s, fault, now, request, u, code).Success?
    ensures Inv(CommitAuthorization(s, fault, now, request, u, code).value)
  {
    var t := CommitAuthorization(s, fault, now, request, u, code).value;
    var mid := t.(grants := s.grants);
    assert RegistryOk(s.reg) && GrantsOk(s.reg.clients, s.reg.users, s.grants);
    hide *;
    CommitGrants(s, fault, now, request, u, code);
    CommitRegistry(s, fault, now, request, u, code);
    CommitExtends(s, fault, now, request, u, code);
    ExtendKeeps(s, mid);
    RequestsKeep(mid, t);
  }

  lemma DropPendingKeeps(s: State, request: string)
    requires Inv(s)
    ensures Inv(DropPending(s, request))
  {
    var t := DropPending(s, request);
    assert PendingsOk(t.grants.pending) && CodesOk(t.grants.codes) by { hide RegistryOk, TokensOk, PendingOk; }
    assert t.grants == s.grants.(pending := t.grants.pending, codes := t.grants.codes) && t.reg == s.reg;
    hide *;
    RequestsKeep(s, t);
  }

  // -------------------------------------------------------------------- users

  lemma AddedNames(users: map<string, User>, usernames: map<string, string>, user: User, n: string)
    requires NamesAgree(users, usernames) && user.id != "" && user.id !in users && n !in usernames
    requires NormalizeUsername(user.username) == Some(n)
    ensures NamesAgree(users[user.id := user], usernames[n := user.id])
  {
    hide NormalizeUsername;
  }

  lemma AddedRegistry(reg: Registry, user: User, n: string)
    requires RegistryOk(reg) && NamesAgree(reg.users[user.id := user], reg.usernames[n := user.id])
    ensures RegistryOk(AddUser(reg, user, n))
  {
    hide NamesAgree, ClientsOk, FlagsOk, RouteOk, RecordKeyOk;
  }

  lemma AddedExtends(reg: Registry, user: User, n: string)
    requires user.id !in reg.users
    ensures Extends(AddUser(reg, user, n), reg)
  {
  }

  lemma AddUserKeeps(s: State, t: State, user: User, n: string)
    requires Inv(s) && user.id != "" && user.id !in s.reg.users && n !in s.reg.usernames
    requires NormalizeUsername(user.username) == Some(n)
    requires t.reg == AddUser(s.reg, user, n) && t.grants == s.grants
    ensures Inv(t)
  {
    assert RegistryOk(s.reg) && NamesAgree(s.reg.users, s.reg.usernames);
    hide *;
    AddedNames(s.reg.users, s.reg.usernames, user, n);
    AddedRegistry(s.reg, user, n);
    AddedExtends(s.reg, user, n);
    ExtendKeeps(s, t);
  }
}
