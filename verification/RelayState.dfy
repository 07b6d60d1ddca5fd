/** The authorization server's state, and the questions asked of it without
    changing it.

    Tokens, codes and sessions are identified by their SHA-256 handle. An Ed25519
    public key is identified by the device ID it hashes to. A resource URL and a
    scope are held by their parts: the server only ever stores canonical ones
    (module `StateFile` proves the round trip to text). */
module RelayState {
  import opened Wrappers
  import Text

  // ---------------------------------------------------------------- entities

  datatype Route = Named(name: string) | Immutable(id: string)

  datatype Resource = AccountMcp | Mcp(device: Route) | Agent(device: Route)

  datatype Kind = McpKind | AgentKind

  datatype Scope = Scope(kind: Kind, offline: bool)

  datatype PublicKey = NoKey | Key(derivedId: string)

  datatype User = User(id: string, username: string, passwordHash: string, admin: bool, disabled: bool)

  datatype Client = Client(id: string, redirects: seq<string>, announcesName: bool,
                           deviceId: string, deviceKey: PublicKey, keyVerified: bool,
                           issuedAt: int, approved: bool)

  datatype Token = Token(client: string, user: string, resource: Resource, scope: Scope,
                         family: string, expires: int)

  datatype DeviceRecord = DeviceRecord(owner: string, key: PublicKey, disabled: bool)

  datatype Session = Session(user: string, expires: int, reauthAt: int)

  datatype Invite = Invite(expires: int, uses: int)

  datatype Pending = Pending(client: string, redirect: string, scope: Scope, resource: Resource,
                             challenge: string, ip: string, expires: int, attempts: int, user: string)

  datatype Code = Code(grant: Pending, expires: int)

  datatype Mode = Private | Public

  // ------------------------------------------------------------------- state

  /** Who exists and which device route belongs to whom. */
  datatype Registry = Registry(clients: map<string, Client>,
                               users: map<string, User>,
                               usernames: map<string, string>,
                               devices: map<Route, string>,
                               disabled: map<Route, bool>,
                               retired: map<Route, bool>,
                               records: map<Route, DeviceRecord>)

  /** Every bearer credential and every grant on its way to becoming one. */
  datatype Grants = Grants(access: map<string, Token>,
                           refresh: map<string, Token>,
                           refreshUsed: map<string, Token>,
                           pending: map<string, Pending>,
                           codes: map<string, Code>)

  /** Browser sessions and invitations. */
  datatype Web = Web(sessions: map<string, Session>, ephemeral: set<string>, invites: map<string, Invite>)

  /** Operator switches. */
  datatype Switches = Switches(mode: Mode, registration: bool, dcr: bool, mcp: bool, agent: bool,
                               kill: bool, awaitingSetup: bool)

  /** `a` has no credential or grant that `b` does not have. */
  ghost predicate SubGrants(a: Grants, b: Grants) {
    Sub(a.access, b.access) && Sub(a.refresh, b.refresh) && Sub(a.refreshUsed, b.refreshUsed) &&
    Sub(a.pending, b.pending) && Sub(a.codes, b.codes)
  }

  datatype State = State(reg: Registry, grants: Grants, web: Web, switches: Switches)

  /** Operator choices that no request changes. */
  datatype Config = Config(modeConfigured: bool, registrationDisabled: bool, allowLegacyUnboundAgents: bool,
                           ownerUsername: string)

  const EmptyRegistry := Registry(map[], map[], map[], map[], map[], map[], map[])
  const EmptyGrants := Grants(map[], map[], map[], map[], map[])
  const EmptyWeb := Web(map[], {}, map[])

  const ACCESS_LIFETIME := 3600
  const REFRESH_LIFETIME := 30 * 24 * 3600
  const CODE_LIFETIME := 300
  const PENDING_LIFETIME := 600
  const SESSION_LIFETIME := 30 * 24 * 3600
  const UNAPPROVED_CLIENT_LIFETIME := 3600
  const MAX_CLIENTS := 2048
  const MAX_PENDING := 1024
  const MAX_PENDING_IP := 8
  const MAX_DEVICES_USER := 16
  const MAX_USERS := 4096
  const MAX_INVITES := 1024
  const INVITE_LIFETIME := 24 * 3600

  // ----------------------------------------------------------------- lookups

  function Get<K(==), V>(m: map<K, V>, k: K, zero: V): V {
    if k in m then m[k] else zero
  }

  /** Every entry of `a` is an entry of `b`. */
  ghost predicate Sub<K(!new), V>(a: map<K, V>, b: map<K, V>) {
    forall k :: k in a ==> k in b && a[k] == b[k]
  }

  predicate On(m: map<Route, bool>, r: Route) {
    r in m && m[r]
  }

  const NoRecord := DeviceRecord("", NoKey, false)
  const NoClient := Client("", [], false, "", NoKey, false, 0, false)

  predicate HasDevice(resource: Resource) {
    !resource.AccountMcp?
  }

  predicate UsesDevice(resource: Resource, r: Route) {
    HasDevice(resource) && resource.device == r
  }

  function KindOf(resource: Resource): Kind {
    if resource.Agent? then AgentKind else McpKind
  }

  predicate ClientMatches(reg: Registry, id: string) {
    id != "" && id in reg.clients && reg.clients[id].id == id
  }

  predicate ApprovedClient(reg: Registry, id: string) {
    ClientMatches(reg, id) && reg.clients[id].approved
  }

  predicate ActiveUser(reg: Registry, u: string) {
    u in reg.users && reg.users[u].id == u && !reg.users[u].disabled
  }

  /** The device is not switched off in any of the three places that say so. */
  predicate DeviceOn(reg: Registry, r: Route) {
    !On(reg.disabled, r) && !On(reg.retired, r) && !Get(reg.records, r, NoRecord).disabled
  }

  /** The device belongs to the user, and no ownership record contradicts it. */
  predicate Owns(reg: Registry, u: string, r: Route) {
    r in reg.devices && reg.devices[r] == u && Get(reg.records, r, NoRecord).owner in {"", u}
  }

  /** `resourceOwnershipIntactLocked`, for the kind the resource itself has. */
  predicate Intact(reg: Registry, u: string, resource: Resource) {
    ActiveUser(reg, u) &&
    (HasDevice(resource) ==> DeviceOn(reg, resource.device) && Owns(reg, u, resource.device))
  }

  /** `resourceEnabledLocked` */
  predicate Enabled(s: State, fault: bool, resource: Resource, kind: Kind) {
    !fault && !s.switches.kill &&
    (kind.McpKind? ==> s.switches.mcp) && (kind.AgentKind? ==> s.switches.agent) &&
    KindOf(resource) == kind &&
    (HasDevice(resource) ==> DeviceOn(s.reg, resource.device))
  }

  /** `resourceOwnedByUserLocked` */
  predicate OwnedByUser(s: State, fault: bool, u: string, resource: Resource, kind: Kind) {
    ActiveUser(s.reg, u) && Enabled(s, fault, resource, kind) &&
    (HasDevice(resource) ==> Owns(s.reg, u, resource.device))
  }

  /** `verifyAccessKeyLocked`: the credential is good for the resource and scope. */
  predicate Verifies(s: State, fault: bool, key: string, resource: Resource, kind: Kind) {
    key in s.grants.access &&
    var t := s.grants.access[key];
    OwnedByUser(s, fault, t.user, resource, kind) &&
    ApprovedClient(s.reg, t.client) && t.user != "" && t.resource == resource && t.scope.kind == kind
  }

  predicate LiveAdmin(reg: Registry, current: User) {
    current.id in reg.users &&
    var live := reg.users[current.id];
    live.id == current.id && live.admin && !live.disabled &&
    current.passwordHash != "" && live.passwordHash == current.passwordHash
  }

  /** The session user's record is still the one that was authenticated. */
  predicate LiveUser(reg: Registry, current: User) {
    current.id in reg.users && !reg.users[current.id].disabled &&
    reg.users[current.id].passwordHash == current.passwordHash
  }

  function RoutesOf(devices: map<Route, string>, u: string): set<Route> {
    set r | r in devices && devices[r] == u
  }

  // --------------------------------------------------------------- usernames

  predicate UsernameStart(c: char) {
    'a' <= c <= 'z' || 'A' <= c <= 'Z' || '0' <= c <= '9'
  }

  predicate UsernameText(s: string) {
    3 <= |s| <= 64 && UsernameStart(s[0]) && forall c :: c in s ==> Text.NameChar(c)
  }

  function NormalizeUsername(raw: string): Option<string> {
    var t := Text.Trim(raw);
    if UsernameText(t) then Some(Text.Lower(t)) else None
  }

  /** Trimming a submitted name, as account creation does, keeps its identity. */
  lemma TrimKeepsUsername(raw: string)
    ensures NormalizeUsername(Text.Trim(raw)) == NormalizeUsername(raw)
  {
    Text.TrimIsTight(raw);
    Text.TrimTight(Text.Trim(raw));
  }
}
