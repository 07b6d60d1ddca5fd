/** What every request does to the authorization state, written as functions.

    A request either changes memory only, or ends in a save. A save that fails
    puts back what the request put aside: usually the state before the request,
    sometimes the attempted state, and for token issuance a state in between. */
module RelayOps {
  import opened Wrappers
  import opened RelayState
  import Text

  datatype Effect =
    | Quiet(next: State)
    | Commit(attempt: State, onFailure: State, recovery: bool)

  datatype Error = Refused | ClientInvalid

  // ---------------------------------------------------------------- clean-up

  predicate TokenLive(reg: Registry, t: Token, now: int) {
    now < t.expires && ApprovedClient(reg, t.client) && Intact(reg, t.user, t.resource)
  }

  predicate PendingLive(reg: Registry, p: Pending, now: int) {
    now <= p.expires && ClientMatches(reg, p.client) && (p.user != "" ==> ActiveUser(reg, p.user)) &&
    (HasDevice(p.resource) ==> DeviceOn(reg, p.resource.device))
  }

  predicate CodeLive(reg: Registry, c: Code, now: int) {
    now <= c.expires && ApprovedClient(reg, c.grant.client) && Intact(reg, c.grant.user, c.grant.resource)
  }

  predicate StaleClient(c: Client, now: int) {
    !c.approved && now - c.issuedAt > UNAPPROVED_CLIENT_LIFETIME
  }

  predicate StaleClientId(reg: Registry, id: string, now: int) {
    id in reg.clients && StaleClient(reg.clients[id], now)
  }

  function LiveTokens(reg: Registry, m: map<string, Token>, now: int): (kept: map<string, Token>)
    ensures Sub(kept, m)
    ensures forall k :: k in m ==> (k in kept <==> TokenLive(reg, m[k], now))
  {
    map k | k in m && TokenLive(reg, m[k], now) :: m[k]
  }

  function LiveSessions(reg: Registry, m: map<string, Session>, now: int): (kept: map<string, Session>)
    ensures Sub(kept, m)
    ensures forall k :: k in m ==> (k in kept <==> now < m[k].expires && ActiveUser(reg, m[k].user))
  {
    map k | k in m && now < m[k].expires && ActiveUser(reg, m[k].user) :: m[k]
  }

  function LiveInvites(m: map<string, Invite>, now: int): (kept: map<string, Invite>)
    ensures Sub(kept, m)
    ensures forall k :: k in m ==> (k in kept <==> now < m[k].expires && m[k].uses > 0)
  {
    map k | k in m && now < m[k].expires && m[k].uses > 0 :: m[k]
  }

  function LivePendings(reg: Registry, m: map<string, Pending>, now: int): (kept: map<string, Pending>)
    ensures Sub(kept, m)
    ensures forall k :: k in m ==> (k in kept <==> PendingLive(reg, m[k], now) && !StaleClientId(reg, m[k].client, now))
  {
    map k | k in m && PendingLive(reg, m[k], now) && !StaleClientId(reg, m[k].client, now) :: m[k]
  }

  function LiveCodes(reg: Registry, m: map<string, Code>, now: int): (kept: map<string, Code>)
    ensures Sub(kept, m)
    ensures forall k :: k in m ==> (k in kept <==> CodeLive(reg, m[k], now) && !StaleClientId(reg, m[k].grant.client, now))
  {
    map k | k in m && CodeLive(reg, m[k], now) && !StaleClientId(reg, m[k].grant.client, now) :: m[k]
  }

  function FreshClients(m: map<string, Client>, now: int): (kept: map<string, Client>)
    ensures Sub(kept, m)
    ensures forall k :: k in m ==> (k in kept <==> !StaleClient(m[k], now))
  {
    map c | c in m && !StaleClient(m[c], now) :: m[c]
  }

  function CleanGrants(reg: Registry, g: Grants, now: int): (kept: Grants)
    ensures SubGrants(kept, g)
  {
    Grants(LiveTokens(reg, g.access, now), LiveTokens(reg, g.refresh, now), LiveTokens(reg, g.refreshUsed, now),
           LivePendings(reg, g.pending, now), LiveCodes(reg, g.codes, now))
  }

  /** `cleanupLocked` */
  function Cleanup(s: State, now: int): State {
    var sessions := LiveSessions(s.reg, s.web.sessions, now);
    State(s.reg.(clients := FreshClients(s.reg.clients, now)),
          CleanGrants(s.reg, s.grants, now),
          Web(sessions, s.web.ephemeral * sessions.Keys, LiveInvites(s.web.invites, now)),
          s.switches)
  }

  // -------------------------------------------------------------- revocation

  function WithoutFamily(m: map<string, Token>, family: string): (kept: map<string, Token>)
    ensures Sub(kept, m)
    ensures forall k :: k in m ==> (k in kept <==> m[k].family != family)
  {
    map k | k in m && m[k].family != family :: m[k]
  }

  /** `revokeFamilyLocked`: the empty family is never revoked. */
  function RevokeFamily(g: Grants, family: string): (kept: Grants)
    ensures SubGrants(kept, g)
  {
    if family == "" then g
    else g.(access := WithoutFamily(g.access, family),
            refresh := WithoutFamily(g.refresh, family),
            refreshUsed := WithoutFamily(g.refreshUsed, family))
  }

  function WithoutClients(m: map<string, Token>, ids: set<string>): (kept: map<string, Token>)
    ensures Sub(kept, m)
    ensures forall k :: k in m ==> (k in kept <==> m[k].client !in ids)
  {
    map k | k in m && m[k].client !in ids :: m[k]
  }

  function PendingsWithoutClients(m: map<string, Pending>, ids: set<string>): (kept: map<string, Pending>)
    ensures Sub(kept, m)
    ensures forall k :: k in m ==> (k in kept <==> m[k].client !in ids)
  {
    map k | k in m && m[k].client !in ids :: m[k]
  }

  function CodesWithoutClients(m: map<string, Code>, ids: set<string>): (kept: map<string, Code>)
    ensures Sub(kept, m)
    ensures forall k :: k in m ==> (k in kept <==> m[k].grant.client !in ids)
  {
    map k | k in m && m[k].grant.client !in ids :: m[k]
  }

  /** `revokeClientLocked`, for each client of a set. */
  function RevokeClients(s: State, ids: set<string>): (t: State)
    ensures SubGrants(t.grants, s.grants)
  {
    s.(reg := s.reg.(clients := s.reg.clients - ids),
       grants := Grants(WithoutClients(s.grants.access, ids),
                        WithoutClients(s.grants.refresh, ids),
                        WithoutClients(s.grants.refreshUsed, ids),
                        PendingsWithoutClients(s.grants.pending, ids),
                        CodesWithoutClients(s.grants.codes, ids)))
  }

  /** The clients that proved possession of a device's key. */
  function ClientsBoundTo(clients: map<string, Client>, r: Route): set<string> {
    set c | c in clients && r.Immutable? && clients[c].keyVerified && clients[c].deviceId == r.id
  }

  function WithoutUser(m: map<string, Token>, u: string): (kept: map<string, Token>)
    ensures Sub(kept, m)
    ensures forall k :: k in m ==> (k in kept <==> m[k].user != u)
  {
    map k | k in m && m[k].user != u :: m[k]
  }

  function PendingsWithoutUser(m: map<string, Pending>, u: string): (kept: map<string, Pending>)
    ensures Sub(kept, m)
    ensures forall k :: k in m ==> (k in kept <==> m[k].user != u)
  {
    map k | k in m && m[k].user != u :: m[k]
  }

  function CodesWithoutUser(m: map<string, Code>, u: string): (kept: map<string, Code>)
    ensures Sub(kept, m)
    ensures forall k :: k in m ==> (k in kept <==> m[k].grant.user != u)
  {
    map k | k in m && m[k].grant.user != u :: m[k]
  }

  /** `deleteUserSessionsLocked` */
  function DropSessions(web: Web, u: string): Web {
    var gone := set k | k in web.sessions && web.sessions[k].user == u;
    web.(sessions := web.sessions - gone, ephemeral := web.ephemeral - gone)
  }

  /** `revokeUserCredentialsLocked` */
  function RevokeUser(s: State, u: string): (t: State)
    ensures SubGrants(t.grants, s.grants)
  {
    s.(grants := Grants(WithoutUser(s.grants.access, u),
                        WithoutUser(s.grants.refresh, u),
                        WithoutUser(s.grants.refreshUsed, u),
                        PendingsWithoutUser(s.grants.pending, u),
                        CodesWithoutUser(s.grants.codes, u)),
       web := DropSessions(s.web, u))
  }

  predicate UsesAny(resource: Resource, routes: set<Route>) {
    HasDevice(resource) && resource.device in routes
  }

  function WithoutRoutes(m: map<string, Token>, routes: set<Route>): (kept: map<string, Token>)
    ensures Sub(kept, m)
    ensures forall k :: k in m ==> (k in kept <==> !UsesAny(m[k].resource, routes))
  {
    map k | k in m && !UsesAny(m[k].resource, routes) :: m[k]
  }

  function PendingsWithoutRoutes(m: map<string, Pending>, routes: set<Route>): (kept: map<string, Pending>)
    ensures Sub(kept, m)
    ensures forall k :: k in m ==> (k in kept <==> !UsesAny(m[k].resource, routes))
  {
    map k | k in m && !UsesAny(m[k].resource, routes) :: m[k]
  }

  function CodesWithoutRoutes(m: map<string, Code>, routes: set<Route>): (kept: map<string, Code>)
    ensures Sub(kept, m)
    ensures forall k :: k in m ==> (k in kept <==> !UsesAny(m[k].grant.resource, routes))
  {
    map k | k in m && !UsesAny(m[k].grant.resource, routes) :: m[k]
  }

  /** `revokeDeviceTokensLocked`, for each device of a set. */
  function RevokeRoutes(g: Grants, routes: set<Route>): (kept: Grants)
    ensures SubGrants(kept, g)
  {
    Grants(WithoutRoutes(g.access, routes),
           WithoutRoutes(g.refresh, routes),
           WithoutRoutes(g.refreshUsed, routes),
           PendingsWithoutRoutes(g.pending, routes),
           CodesWithoutRoutes(g.codes, routes))
  }

  function BoundToAny(clients: map<string, Client>, routes: set<Route>): set<string> {
    set c | c in clients && clients[c].keyVerified && Immutable(clients[c].deviceId) in routes
  }

  /** Permanent retirement of a set of routes, as device revocation and account
      deletion perform it. */
  function Retire(s: State, routes: set<Route>): (t: State)
    ensures SubGrants(t.grants, s.grants)
  {
    var reg := s.reg.(retired := s.reg.retired + (map r | r in routes :: true),
                      devices := s.reg.devices - routes,
                      disabled := s.reg.disabled - routes,
                      records := s.reg.records - routes);
    hide RevokeRoutes, RevokeClients, BoundToAny;
    RevokeClients(s.(reg := reg, grants := RevokeRoutes(s.grants, routes)), BoundToAny(s.reg.clients, routes))
  }

  // ------------------------------------------------------- devices and grants

  /** `ensureDeviceRecordLocked` */
  function EnsureRecord(reg: Registry, r: Route, owner: string): DeviceRecord {
    var found := Get(reg.records, r, NoRecord);
    found.(owner := if found.owner == "" then owner else found.owner,
         disabled := found.disabled || On(reg.disabled, r))
  }

  /** `validateAgentDeviceKeyLocked` */
  function ValidateDeviceKey(reg: Registry, clientId: string, resource: Resource): Result<PublicKey, Error> {
    if !(resource.Agent? && resource.device.Immutable?) then Success(NoKey)
    else
      var id := resource.device.id;
      var client := Get(reg.clients, clientId, NoClient);
      var record := Get(reg.records, resource.device, NoRecord);
      if client.deviceKey != NoKey && (!client.keyVerified || client.deviceId != id) then Failure(Refused)
      else if client.deviceKey == NoKey then
        if Get(reg.devices, resource.device, "") == "" || record.key != NoKey then Failure(Refused)
        else Success(NoKey)
      else if client.deviceKey.derivedId != id then Failure(Refused)
      else if record.key != NoKey && record.key != client.deviceKey then Failure(Refused)
      else Success(client.deviceKey)
  }

  function BindKey(record: DeviceRecord, key: PublicKey): DeviceRecord {
    if key == NoKey then record else record.(key := key)
  }

  /** The first claim of a route by an Agent. */
  function Claim(reg: Registry, mode: Mode, u: string, r: Route, key: PublicKey): Result<Registry, Error> {
    if mode.Public? && r.Named? then Failure(Refused)
    else if |RoutesOf(reg.devices, u)| >= MAX_DEVICES_USER then Failure(Refused)
    else
      Success(reg.(devices := reg.devices[r := u],
                   records := reg.records[r := BindKey(EnsureRecord(reg, r, u).(owner := u), key)]))
  }

  /** `authorizeResourceLocked` */
  function AuthorizeResource(s: State, fault: bool, u: string, clientId: string, resource: Resource)
    : Result<Registry, Error>
  {
    if u !in s.reg.users || s.reg.users[u].id == "" || s.reg.users[u].disabled then Failure(Refused)
    else
      var key :- ValidateDeviceKey(s.reg, clientId, resource);
      if fault || s.switches.kill || (resource.Agent? && !s.switches.agent) || (!resource.Agent? && !s.switches.mcp) then
        Failure(Refused)
      else if resource.AccountMcp? then Success(s.reg)
      else
        var r := resource.device;
        var owner := Get(s.reg.devices, r, "");
        var record := Get(s.reg.records, r, NoRecord);
        if !DeviceOn(s.reg, r) then Failure(Refused)
        else if record.owner != "" && record.owner != owner then Failure(Refused)
        else if resource.Mcp? then
          if owner != u then Failure(Refused) else Success(s.reg)
        else if owner == "" then Claim(s.reg, s.switches.mode, u, r, key)
        else if owner != u then Failure(Refused)
        else if key == NoKey then Success(s.reg)
        else Success(s.reg.(records := s.reg.records[r := BindKey(EnsureRecord(s.reg, r, u), key)]))
  }

  /** `commitAuthorizationLocked` */
  function CommitAuthorization(s: State, fault: bool, now: int, request: string, u: string, code: string)
    : Result<State, Error>
  {
    if request !in s.grants.pending || now > s.grants.pending[request].expires then Failure(Refused)
    else
      var p := s.grants.pending[request];
      if !ClientMatches(s.reg, p.client) || p.redirect !in s.reg.clients[p.client].redirects then Failure(ClientInvalid)
      else
        var reg :- AuthorizeResource(s, fault, u, p.client, p.resource);
        var client := s.reg.clients[p.client];
        var records :=
          if p.resource.Agent? && client.announcesName then
            reg.records[p.resource.device := EnsureRecord(reg, p.resource.device, u)]
          else reg.records;
        Success(s.(reg := reg.(records := records, clients := reg.clients[p.client := client.(approved := true)]),
                   grants := s.grants.(pending := s.grants.pending - {request},
                                       codes := s.grants.codes[code := Code(p.(user := u), now + CODE_LIFETIME)])))
  }

  function DropPending(s: State, request: string): State {
    s.(grants := s.grants.(pending := s.grants.pending - {request}))
  }

  /** How a refused authorization ends: a request whose client has become invalid
      is dropped and the drop is saved, whether or not the save succeeds. */
  function RefuseAuthorization(s: State, request: string, e: Error): Effect {
    if e.ClientInvalid? then Commit(DropPending(s, request), DropPending(s, request), false) else Quiet(s)
  }

  /** `grantAuthorization` */
  function Grant(s: State, fault: bool, now: int, request: string, u: string, code: string): Effect {
    match CommitAuthorization(s, fault, now, request, u, code)
    case Failure(e) => RefuseAuthorization(s, request, e)
    case Success(t) => Commit(t, s, false)
  }

  predicate InvitesOpen(web: Web, now: int) {
    exists k :: k in web.invites && now < web.invites[k].expires && web.invites[k].uses > 0
  }

  /** `registrationPolicyLocked`: some form of registration is open. */
  predicate RegistrationOpen(s: State, now: int) {
    s.switches.mode.Public? && !s.switches.awaitingSetup && (s.switches.registration || InvitesOpen(s.web, now))
  }

  /** `consumeInviteLocked` */
  function ConsumeInvite(s: State, invite: string, now: int): Option<Web> {
    if !s.switches.mode.Public? then None
    else if s.switches.registration then Some(s.web)
    else if invite !in s.web.invites || s.web.invites[invite].expires <= now || s.web.invites[invite].uses <= 0 then None
    else
      var rec := s.web.invites[invite];
      Some(s.web.(invites := if rec.uses - 1 <= 0 then s.web.invites - {invite}
                             else s.web.invites[invite := rec.(uses := rec.uses - 1)]))
  }

  function AddUser(reg: Registry, user: User, normalized: string): Registry {
    reg.(users := reg.users[user.id := user], usernames := reg.usernames[normalized := user.id])
  }

  /** `registerAndGrantAuthorization` */
  function RegisterAndGrant(s: State, fault: bool, now: int, request: string, user: User, invite: string,
                            code: string, session: string): Effect {
    var normalized := NormalizeUsername(user.username);
    if normalized.None? || user.id == "" || user.passwordHash == "" then Quiet(s)
    else if !RegistrationOpen(s, now) || normalized.value in s.reg.usernames || |s.reg.users| >= MAX_USERS then Quiet(s)
    else
      match ConsumeInvite(s, invite, now)
      case None => Quiet(s)
      case Some(web) =>
        var joined := s.(reg := AddUser(s.reg, user, normalized.value), web := web);
        match CommitAuthorization(joined, fault, now, request, user.id, code)
        case Failure(e) => RefuseAuthorization(s, request, e)
        case Success(t) =>
          Commit(t.(web := t.web.(sessions := t.web.sessions[session := Session(user.id, now + SESSION_LIFETIME, now)])),
                 s, false)
  }

  // ------------------------------------------------------------------ clients

  /** A dynamic registration request whose device proof, if any, has been checked. */
  datatype Registration = Registration(redirects: seq<string>, announcesName: bool, device: PublicKey)

  /** Whether `victim` is what eviction may pick: an unapproved client that is the oldest such. */
  predicate Evictable(clients: map<string, Client>, victim: string, now: int) {
    victim in clients && !clients[victim].approved && clients[victim].issuedAt <= now &&
    forall c :: c in clients && !clients[c].approved ==> clients[victim].issuedAt <= clients[c].issuedAt
  }

  function NewClient(id: string, req: Registration, now: int): Client {
    Client(id, req.redirects, req.announcesName,
           if req.device == NoKey then "" else req.device.derivedId, req.device, req.device != NoKey, now, false)
  }

  /** `handleRegister`, after validation of the request and of its challenge. */
  function RegisterClient(s: State, fault: bool, now: int, id: string, req: Registration, victim: string): Effect {
    if fault || !s.switches.dcr then Quiet(s) else AddClient(Cleanup(s, now), now, id, req, victim)
  }

  function AddClient(c: State, now: int, id: string, req: Registration, victim: string): Effect {
    if req.device != NoKey && On(c.reg.retired, Immutable(req.device.derivedId)) then Quiet(c)
    else if |c.reg.clients| >= MAX_CLIENTS && !Evictable(c.reg.clients, victim, now) then Quiet(c)
    else
      var kept := if |c.reg.clients| >= MAX_CLIENTS then RevokeClients(c, {victim}) else c;
      Commit(kept.(reg := kept.reg.(clients := kept.reg.clients[id := NewClient(id, req, now)])), c, false)
  }

  /** An authorization request as `handleAuthorizeGET` has parsed it; `proved` is
      the outcome of the device proof over exactly these parameters. */
  datatype AuthRequest = AuthRequest(client: string, redirect: string, scope: Scope, resource: Resource,
                                     challenge: string, ip: string, proved: bool)

  predicate MayAskFor(reg: Registry, cfg: Config, a: AuthRequest) {
    ClientMatches(reg, a.client) && a.redirect in reg.clients[a.client].redirects &&
    var client := reg.clients[a.client];
    if client.keyVerified || client.deviceId != "" || client.deviceKey != NoKey then
      client.keyVerified && client.deviceId != "" && client.deviceKey != NoKey &&
      a.resource == Agent(Immutable(client.deviceId)) &&
      ValidateDeviceKey(reg, a.client, a.resource).Success? && a.proved
    else
      a.resource.Agent? ==> cfg.allowLegacyUnboundAgents
  }

  /** `handleAuthorizeGET` */
  function BeginAuthorization(s: State, cfg: Config, now: int, request: string, a: AuthRequest): Effect {
    var c := Cleanup(s, now);
    var sameIp := set k | k in c.grants.pending && c.grants.pending[k].ip == a.ip;
    if !MayAskFor(c.reg, cfg, a) || |c.grants.pending| >= MAX_PENDING || |sameIp| >= MAX_PENDING_IP then Quiet(c)
    else
      Quiet(c.(grants := c.grants.(pending := c.grants.pending[request :=
        Pending(a.client, a.redirect, a.scope, a.resource, a.challenge, a.ip, now + PENDING_LIFETIME, 0, "")])))
  }

  /** `failAuthorization`: the fifth failed login drops the request. */
  function FailAuthorization(s: State, request: string): Effect {
    if request !in s.grants.pending then Quiet(s)
    else
      var p := s.grants.pending[request];
      if p.attempts + 1 >= 5 then Quiet(DropPending(s, request))
      else Quiet(s.(grants := s.grants.(pending := s.grants.pending[request := p.(attempts := p.attempts + 1)])))
  }

  // ------------------------------------------------------------------- tokens

  predicate VerifierChar(c: char) {
    Text.NameChar(c) || c == '~'
  }

  /** S256: the challenge is represented by the verifier it was made from. */
  predicate PkceMatches(verifier: string, challenge: string) {
    43 <= |verifier| <= 128 && (forall c :: c in verifier ==> VerifierChar(c)) && verifier == challenge
  }

  datatype Fresh = Fresh(access: string, refresh: string, family: string)

  function Issue(g: Grants, f: Fresh, client: string, u: string, resource: Resource, scope: Scope, family: string, now: int)
    : Grants
  {
    g.(access := g.access[f.access := Token(client, u, resource, scope, family, now + ACCESS_LIFETIME)],
       refresh := g.refresh[f.refresh := Token(client, u, resource, scope, family, now + REFRESH_LIFETIME)])
  }

  datatype CodeRequest = CodeRequest(code: string, client: string, redirect: string, resource: Option<Resource>, verifier: string)

  predicate CodeBound(reg: Registry, c: Code, q: CodeRequest) {
    ApprovedClient(reg, c.grant.client) && c.grant.client == q.client && c.grant.redirect == q.redirect &&
    PkceMatches(q.verifier, c.grant.challenge) && (q.resource.Some? ==> q.resource.value == c.grant.resource)
  }

  /** `exchangeCode` */
  function ExchangeCode(s: State, fault: bool, now: int, q: CodeRequest, f: Fresh): Effect {
    RedeemCode(Cleanup(s, now), fault, now, q, f)
  }

  function RedeemCode(c: State, fault: bool, now: int, q: CodeRequest, f: Fresh): Effect {
    if q.code !in c.grants.codes then Quiet(c)
    else
      var code := c.grants.codes[q.code];
      var spent := c.(grants := c.grants.(codes := c.grants.codes - {q.code}));
      if !CodeBound(c.reg, code, q) ||
         !OwnedByUser(spent, fault, code.grant.user, code.grant.resource, KindOf(code.grant.resource)) then Quiet(spent)
      else
        var g := Issue(spent.grants, f, code.grant.client, code.grant.user, code.grant.resource, code.grant.scope, f.family, now);
        Commit(spent.(grants := g),
               spent.(grants := g.(access := g.access - {f.access}, refresh := g.refresh - {f.refresh})), false)
  }

  datatype RefreshRequest = RefreshRequest(key: string, client: string, resource: Option<Resource>)

  predicate Presents(g: Grants, q: RefreshRequest) {
    q.key in g.refresh && g.refresh[q.key].client == q.client &&
    (q.resource.Some? ==> q.resource.value == g.refresh[q.key].resource)
  }

  predicate Replays(g: Grants, q: RefreshRequest) {
    q.key in g.refreshUsed && (q.client == "" || g.refreshUsed[q.key].client == q.client)
  }

  /** `exchangeRefresh` */
  function ExchangeRefresh(s: State, fault: bool, now: int, q: RefreshRequest, f: Fresh): Effect {
    RotateToken(Cleanup(s, now), fault, now, q, f)
  }

  function RotateToken(c: State, fault: bool, now: int, q: RefreshRequest, f: Fresh): Effect {
    if !Presents(c.grants, q) then
      if Replays(c.grants, q) then
        var dead := c.(grants := RevokeFamily(c.grants, c.grants.refreshUsed[q.key].family));
        Commit(dead, dead, false)
      else Quiet(c)
    else
      var t := c.grants.refresh[q.key];
      if !ApprovedClient(c.reg, t.client) || !OwnedByUser(c, fault, t.user, t.resource, KindOf(t.resource)) then
        var dropped := c.(grants := c.grants.(refresh := c.grants.refresh - {q.key}));
        Commit(dropped, dropped, false)
      else
        var kept := t.(family := if t.family == "" then f.family else t.family);
        var moved := c.grants.(refresh := c.grants.refresh - {q.key}, refreshUsed := c.grants.refreshUsed[q.key := kept]);
        var g := Issue(moved, f, t.client, t.user, t.resource, t.scope, kept.family, now);
        Commit(c.(grants := g),
               c.(grants := g.(access := g.access - {f.access},
                               refresh := (g.refresh - {f.refresh})[q.key := kept],
                               refreshUsed := g.refreshUsed - {q.key})), false)
  }

  /** The family `handleRevoke` and `revoke-token` find for a handle. */
  function FamilyOf(g: Grants, key: string): string {
    if key in g.access then g.access[key].family
    else if key in g.refresh then g.refresh[key].family
    else if key in g.refreshUsed then g.refreshUsed[key].family
    else ""
  }

  /** `handleRevoke` */
  function Revoke(s: State, key: string): Effect {
    var g := RevokeFamily(s.grants, FamilyOf(s.grants, key));
    var t := s.(grants := g.(access := g.access - {key}, refresh := g.refresh - {key}, refreshUsed := g.refreshUsed - {key}));
    Commit(t, t, false)
  }

  // ----------------------------------------------------------------- sessions

  /** `createSession` */
  function CreateSession(s: State, fault: bool, now: int, current: User, handle: string): Effect {
    if current.id !in s.reg.users || s.reg.users[current.id].id == "" || s.reg.users[current.id].disabled ||
       current.passwordHash == "" || s.reg.users[current.id].passwordHash != current.passwordHash then Quiet(s)
    else
      var web := s.web.(sessions := s.web.sessions[handle := Session(current.id, now + SESSION_LIFETIME, now)]);
      if fault then Quiet(s.(web := web.(ephemeral := web.ephemeral + {handle})))
      else Commit(s.(web := web), s, false)
  }

  function DropSession(s: State, handle: string): State {
    s.(web := s.web.(sessions := s.web.sessions - {handle}, ephemeral := s.web.ephemeral - {handle}))
  }

  /** `clearSession` */
  function ClearSession(s: State, handle: string): Effect {
    Commit(DropSession(s, handle), DropSession(s, handle), false)
  }

  /** `handleAdminReauthPOST`, for a password already verified: the session moves to a new handle. */
  function Reauthenticate(s: State, fault: bool, now: int, current: User, handle: string, renewed: string): Effect {
    if handle !in s.web.sessions || s.web.sessions[handle].user != current.id || !LiveAdmin(s.reg, current) then Quiet(s)
    else
      var gone := DropSession(s, handle);
      var web := gone.web.(sessions := gone.web.sessions[renewed := s.web.sessions[handle].(reauthAt := now)]);
      if fault then Quiet(gone.(web := web.(ephemeral := web.ephemeral + {renewed})))
      else Commit(gone.(web := web), s, false)
  }

  /** `handleAdminInvite` */
  function CreateInvite(s: State, fault: bool, now: int, current: User, handle: string): Effect {
    if !LiveAdmin(s.reg, current) || !s.switches.mode.Public? || fault then Quiet(s)
    else
      var c := Cleanup(s, now);
      if |c.web.invites| >= MAX_INVITES then Quiet(c)
      else Commit(c.(web := c.web.(invites := c.web.invites[handle := Invite(now + INVITE_LIFETIME, 1)])), c, false)
  }

  // ----------------------------------------------------------------- accounts

  /** `createUserLocked`, with the password already hashed (None when it is unacceptable). */
  function CreateUser(reg: Registry, username: string, hash: Option<string>, id: string, admin: bool): Option<Registry> {
    var normalized := NormalizeUsername(username);
    if normalized.None? || normalized.value in reg.usernames || |reg.users| >= MAX_USERS || hash.None? then None
    else Some(AddUser(reg, User(id, Text.Trim(username), hash.value, admin, false), normalized.value))
  }

  /** `handleSetupPOST`: the first account, once. */
  function Setup(s: State, cfg: Config, username: string, hash: Option<string>, id: string, mode: Mode, open: bool): Effect {
    if (cfg.modeConfigured && mode != s.switches.mode) || s.reg.users != map[] || !s.switches.awaitingSetup then Quiet(s)
    else
      match CreateUser(s.reg, username, hash, id, true)
      case None => Quiet(s)
      case Some(reg) =>
        Commit(s.(reg := reg, switches := s.switches.(mode := mode, registration := mode.Public? && open, awaitingSetup := false)),
               s, false)
  }

  datatype AccountAction =
    | OwnRename(route: Route, valid: bool)
    | OwnDisable(route: Route, toggle: Option<bool>)
    | OwnRevoke(route: Route)
    | OwnRevokeFamily(family: string)
    | OwnLogout(handle: string)
    | OwnLogoutOthers(keep: string)
    | OwnUnknown

  /** `applyAccountActionLocked` */
  function AccountChange(s: State, current: User, a: AccountAction): Option<State> {
    if !LiveUser(s.reg, current) then None
    else
      match a
      case OwnRename(r, valid) =>
        if Get(s.reg.devices, r, "") != current.id || !valid then None
        else Some(s.(reg := s.reg.(records := s.reg.records[r := EnsureRecord(s.reg, r, current.id)])))
      case OwnDisable(r, toggle) =>
        if Get(s.reg.devices, r, "") != current.id || toggle.None? then None
        else Some(SetDisabled(s, r, toggle.value, current.id))
      case OwnRevoke(r) =>
        if Get(s.reg.devices, r, "") != current.id then None else Some(Retire(s, {r}))
      case OwnRevokeFamily(family) =>
        if OwnsFamily(s.grants, current.id, family) then Some(s.(grants := RevokeFamily(s.grants, family))) else None
      case OwnLogout(handle) =>
        if handle in s.web.sessions && s.web.sessions[handle].user == current.id then Some(DropSession(s, handle)) else None
      case OwnLogoutOthers(keep) =>
        var gone := set k | k in s.web.sessions && s.web.sessions[k].user == current.id && k != keep;
        Some(s.(web := s.web.(sessions := s.web.sessions - gone, ephemeral := s.web.ephemeral - gone)))
      case OwnUnknown => None
  }

  predicate OwnsFamily(g: Grants, u: string, family: string) {
    family != "" && ((exists k :: k in g.access && g.access[k].user == u && g.access[k].family == family) ||
                     (exists k :: k in g.refresh && g.refresh[k].user == u && g.refresh[k].family == family))
  }

  /** `disable-device`, by the owner or by an administrator. */
  function SetDisabled(s: State, r: Route, off: bool, owner: string): State {
    var reg := s.reg.(disabled := s.reg.disabled[r := off]);
    var t := s.(reg := reg.(records := reg.records[r := EnsureRecord(reg, r, owner).(disabled := off)]));
    if off then t.(grants := RevokeRoutes(t.grants, {r})) else t
  }

  function Account(s: State, fault: bool, current: User, a: AccountAction): Effect {
    if fault then Quiet(s)
    else
      match AccountChange(s, current, a)
      case None => Quiet(s)
      case Some(t) => Commit(t, s, false)
  }

  /** `changeOwnPassword`, for an old password already verified. */
  function ChangePassword(s: State, fault: bool, current: User, hash: string): Effect {
    if fault || !LiveUser(s.reg, current) then Quiet(s)
    else
      var user := s.reg.users[current.id].(passwordHash := hash);
      Commit(RevokeUser(s.(reg := s.reg.(users := s.reg.users[current.id := user])), current.id), s, false)
  }

  // ----------------------------------------------------------- administration

  /** An administrator's action with its value already parsed: a toggle that is
      neither on nor off, an unknown mode or an unacceptable password is None. */
  datatype AdminAction =
    | RotatePassword(user: string, hash: Option<string>)
    | CreateAccount(username: string, hash: Option<string>, id: string)
    | SetMode(mode: Option<Mode>)
    | SetRegistration(toggle: Option<bool>)
    | SetDcr(toggle: Option<bool>)
    | SetMcp(toggle: Option<bool>)
    | SetAgent(toggle: Option<bool>)
    | SetUsage(toggle: Option<bool>)
    | SetReward(toggle: Option<bool>, ready: bool)
    | SetKillSwitch(toggle: Option<bool>)
    | DisableDevice(route: Route, toggle: Option<bool>)
    | RevokeDevice(route: Route)
    | RenameDevice(route: Route, valid: bool)
    | DisableUser(user: string, toggle: Option<bool>)
    | DeleteUser(user: string)
    | LogoutUser(user: string)
    | LogoutAll(user: string)
    | LogoutSession(handle: string)
    | RevokeClientAction(client: string)
    | RevokeToken(handle: string)
    | RevokeInvite(handle: string)
    | GrantQuota
    | UnknownAction

  /** `requiresFreshAdminAuth` */
  predicate RequiresFreshAuth(a: AdminAction) {
    match a
    case RevokeDevice(_) => true
    case DeleteUser(_) => true
    case RevokeClientAction(_) => true
    case RevokeToken(_) => true
    case RotatePassword(_, _) => true
    case RenameDevice(_, _) => true
    case CreateAccount(_, _, _) => true
    case GrantQuota => true
    case DisableDevice(_, t) => t == Some(false)
    case DisableUser(_, t) => t == Some(false)
    case SetRegistration(t) => t == Some(true)
    case SetDcr(t) => t == Some(true)
    case SetMcp(t) => t == Some(true)
    case SetAgent(t) => t == Some(true)
    case SetUsage(t) => t == Some(true)
    case SetReward(t, _) => t == Some(true)
    case SetMode(m) => m.Some?
    case SetKillSwitch(t) => t == Some(false)
    case _ => false
  }

  /** `persistenceRecoveryActionAllowed` */
  predicate RecoveryAllowed(a: AdminAction) {
    match a
    case RotatePassword(_, _) => true
    case RevokeDevice(_) => true
    case DeleteUser(_) => true
    case LogoutUser(_) => true
    case LogoutAll(_) => true
    case LogoutSession(_) => true
    case RevokeClientAction(_) => true
    case RevokeToken(_) => true
    case RevokeInvite(_) => true
    case DisableDevice(_, t) => t == Some(true)
    case DisableUser(_, t) => t == Some(true)
    case SetRegistration(t) => t == Some(false)
    case SetDcr(t) => t == Some(false)
    case SetMcp(t) => t == Some(false)
    case SetAgent(t) => t == Some(false)
    case SetUsage(t) => t == Some(false)
    case SetReward(t, _) => t == Some(false)
    case SetMode(m) => m == Some(Private)
    case SetKillSwitch(t) => t == Some(true)
    case _ => false
  }

  /** The devices an account leaves behind, by either record of ownership. */
  function LeftBehind(reg: Registry, u: string): set<Route> {
    RoutesOf(reg.devices, u) + (set r | r in reg.records && reg.records[r].owner == u)
  }

  function RemoveUser(reg: Registry, u: string): Registry {
    reg.(users := reg.users - {u},
         usernames := map n | n in reg.usernames && reg.usernames[n] != u :: reg.usernames[n])
  }

  /** The change an accepted administrator's action makes; None is an error. */
  function AdminChange(s: State, cfg: Config, current: User, a: AdminAction): Option<State> {
    match a
    case RotatePassword(u, hash) =>
      if hash.None? || u !in s.reg.users || s.reg.users[u].disabled then None
      else Some(RevokeUser(s.(reg := s.reg.(users := s.reg.users[u := s.reg.users[u].(passwordHash := hash.value)])), u))
    case CreateAccount(username, hash, id) =>
      (match CreateUser(s.reg, username, hash, id, false)
       case None => None
       case Some(reg) => Some(s.(reg := reg)))
    case SetMode(m) =>
      if cfg.modeConfigured || m.None? || m.value == s.switches.mode then None
      else Some(s.(switches := s.switches.(mode := m.value, registration := false)))
    case SetRegistration(t) =>
      if t.None? || !s.switches.mode.Public? || cfg.registrationDisabled then None
      else Some(s.(switches := s.switches.(registration := t.value)))
    case SetDcr(t) => if t.None? then None else Some(s.(switches := s.switches.(dcr := t.value)))
    case SetMcp(t) => if t.None? then None else Some(s.(switches := s.switches.(mcp := t.value)))
    case SetAgent(t) => if t.None? then None else Some(s.(switches := s.switches.(agent := t.value)))
    case SetUsage(t) => if t.None? then None else Some(s)
    case SetReward(t, ready) => if t.None? || (t.value && !ready) then None else Some(s)
    case SetKillSwitch(t) => if t.None? then None else Some(s.(switches := s.switches.(kill := t.value)))
    case DisableDevice(r, t) =>
      if r !in s.reg.devices || t.None? then None else Some(SetDisabled(s, r, t.value, s.reg.devices[r]))
    case RevokeDevice(r) => if r !in s.reg.devices then None else Some(Retire(s, {r}))
    case RenameDevice(r, valid) =>
      if r !in s.reg.devices || !valid then None
      else Some(s.(reg := s.reg.(records := s.reg.records[r := EnsureRecord(s.reg, r, s.reg.devices[r])])))
    case DisableUser(u, t) =>
      if u !in s.reg.users || s.reg.users[u].id == current.id || t.None? then None
      else
        var changed := s.(reg := s.reg.(users := s.reg.users[u := s.reg.users[u].(disabled := t.value)]));
        Some(if t.value then RevokeUser(changed, u) else changed)
    case DeleteUser(u) =>
      if u == current.id || u !in s.reg.users then None
      else Some(RevokeUser(Retire(s.(reg := RemoveUser(s.reg, u)), LeftBehind(s.reg, u)), u))
    case LogoutUser(u) => if u !in s.reg.users then None else Some(s.(web := DropSessions(s.web, u)))
    case LogoutAll(u) => if u !in s.reg.users then None else Some(s.(web := DropSessions(s.web, u)))
    case LogoutSession(h) =>
      if h !in s.web.sessions then None else Some(s.(web := s.web.(sessions := s.web.sessions - {h})))
    case RevokeClientAction(c) => if c !in s.reg.clients then None else Some(RevokeClients(s, {c}))
    case RevokeToken(h) =>
      if h in s.grants.refresh then Some(s.(grants := RevokeFamily(s.grants, s.grants.refresh[h].family)))
      else if h in s.grants.refreshUsed then Some(s.(grants := RevokeFamily(s.grants, s.grants.refreshUsed[h].family)))
      else if h in s.grants.access then Some(s.(grants := RevokeFamily(s.grants, s.grants.access[h].family)))
      else None
    case RevokeInvite(h) =>
      if h !in s.web.invites then None else Some(s.(web := s.web.(invites := s.web.invites - {h})))
    case GrantQuota => None
    case UnknownAction => None
  }

  /** `applyAdminAction` */
  function Admin(s: State, cfg: Config, fault: bool, current: User, a: AdminAction): Effect {
    if !LiveAdmin(s.reg, current) || (fault && !RecoveryAllowed(a)) then Quiet(s)
    else
      match AdminChange(s, cfg, current, a)
      case None => Quiet(s)
      case Some(t) => Commit(t, s, fault)
  }
}
