/** The authorization state file: what is written, and what the loader accepts.

    Writing renders routes, resource URLs and scopes as text; loading
    canonicalizes them again and refuses a file whose parts do not fit together. */
module StateFile {
  import opened Wrappers
  import opened RelayState
  import opened RelayInvariant
  import opened Resources
  import Text

  datatype Settings = Settings(mode: Mode, registration: bool, dcr: bool, mcp: bool, agent: bool, kill: bool)

  /** The part of the state that is saved. */
  datatype Image = Image(clients: map<string, Client>, users: map<string, User>, devices: map<Route, string>,
                         disabled: map<Route, bool>, retired: map<Route, bool>, records: map<Route, DeviceRecord>,
                         access: map<string, Token>, refresh: map<string, Token>, refreshUsed: map<string, Token>,
                         sessions: map<string, Session>, invites: map<string, Invite>, settings: Settings)

  datatype TextToken = TextToken(client: string, user: string, resource: Url, scope: string, family: string, expires: int)

  /** The decoded JSON. */
  datatype TextState = TextState(clients: map<string, Client>, users: map<string, User>, devices: map<string, string>,
                                 disabled: map<string, bool>, retired: map<string, bool>, records: map<string, DeviceRecord>,
                                 access: map<string, TextToken>, refresh: map<string, TextToken>, refreshUsed: map<string, TextToken>,
                                 sessions: map<string, Session>, invites: map<string, Invite>, settings: Settings)

  /** What `saveLockedUnlocked` takes from memory. */
  function ImageOf(s: State): Image {
    Image(s.reg.clients, s.reg.users, s.reg.devices, s.reg.disabled, s.reg.retired, s.reg.records,
          s.grants.access, s.grants.refresh, s.grants.refreshUsed, s.web.sessions, s.web.invites,
          Settings(s.switches.mode, s.switches.registration && s.switches.mode.Public?, s.switches.dcr, s.switches.mcp,
                   s.switches.agent, s.switches.kill))
  }

  // ----------------------------------------------------------------- accepted

  /** Accounts filed under their own IDs, with valid names no two of which are the same. */
  ghost predicate UsersOk(users: map<string, User>) {
    (forall u :: u in users ==> u != "" && users[u].id == u && NormalizeUsername(users[u].username).Some?) &&
    (forall u, v :: u in users && v in users && NormalizeUsername(users[u].username) == NormalizeUsername(users[v].username) ==> u == v)
  }

  ghost predicate DirectoryOk(i: Image) {
    UsersOk(i.users) && ClientsOk(i.clients) && DevicesOk(i.devices, i.retired, i.records, i.users.Keys) &&
    FlagsOk(i.disabled, i.retired) && RecordsOk(i.records, i.users.Keys)
  }

  ghost predicate ImageOk(i: Image) {
    DirectoryOk(i) &&
    TokensOk(i.clients, i.users, i.access) && TokensOk(i.clients, i.users, i.refresh) && TokensOk(i.clients, i.users, i.refreshUsed)
  }

  // ------------------------------------------------------------------ writing

  function RoutesText<V>(m: map<Route, V>): map<string, V>
    requires forall r :: r in m ==> RouteOk(r)
  {
    RoutesInjective(m);
    map r | r in m :: RouteText(r) := m[r]
  }

  lemma RoutesInjective<V>(m: map<Route, V>)
    requires forall r :: r in m ==> RouteOk(r)
    ensures forall r1, r2 :: r1 in m && r2 in m && RouteText(r1) == RouteText(r2) ==> r1 == r2
  {
    forall r | r in m ensures CanonicalRoute(RouteText(r)) == Some(r) {
      RouteRoundTrip(r);
    }
  }

  function TokenText(base: Origin, t: Token): TextToken {
    TextToken(t.client, t.user, ResourceUrl(base, t.resource), ScopeText(t.scope), t.family, t.expires)
  }

  function TokensText(base: Origin, m: map<string, Token>): map<string, TextToken> {
    map k | k in m :: TokenText(base, m[k])
  }

  predicate Writable(i: Image) {
    (forall r :: r in i.devices ==> RouteOk(r)) && (forall r :: r in i.disabled ==> RouteOk(r)) &&
    (forall r :: r in i.retired ==> RouteOk(r)) && (forall r :: r in i.records ==> RouteOk(r))
  }

  function Encode(base: Origin, i: Image): TextState
    requires Writable(i)
  {
    TextState(i.clients, i.users, RoutesText(i.devices), RoutesText(i.disabled), RoutesText(i.retired), RoutesText(i.records),
              TokensText(base, i.access), TokensText(base, i.refresh), TokensText(base, i.refreshUsed),
              i.sessions, i.invites, i.settings)
  }

  // ------------------------------------------------------------------ loading

  /** `canonicalizeRouteMap`: every route canonical, and no two aliases of one route. */
  function CanonicalRoutes<V>(m: map<string, V>): Option<map<Route, V>> {
    if (forall k :: k in m ==> CanonicalRoute(k).Some?) &&
       (forall a, b :: a in m && b in m && CanonicalRoute(a) == CanonicalRoute(b) ==> a == b) then
      Some(map k | k in m :: CanonicalRoute(k).value := m[k])
    else None
  }

  function CanonicalClient(id: string, c: Client): Option<Client> {
    if id == "" || c.id != id then None
    else if c.deviceId == "" && c.deviceKey == NoKey && !c.keyVerified then Some(c)
    else
      var device := NormalizeDeviceId(c.deviceId);
      if device.None? || c.deviceKey == NoKey || !c.keyVerified || c.deviceKey.derivedId != device.value then None
      else Some(c.(deviceId := device.value))
  }

  function CanonicalClients(m: map<string, Client>): Option<map<string, Client>> {
    if forall k :: k in m ==> CanonicalClient(k, m[k]).Some? then Some(map k | k in m :: CanonicalClient(k, m[k]).value) else None
  }

  function CanonicalToken(base: Origin, clients: map<string, Client>, users: map<string, User>, t: TextToken): Option<Token> {
    var resource := ResourceParts(base, t.resource);
    if !Approved(clients, t.client) || !Active(users, t.user) || resource.None? then None
    else
      var scope := NormalizeScope(t.scope, KindOf(resource.value));
      if scope.None? then None else Some(Token(t.client, t.user, resource.value, scope.value, t.family, t.expires))
  }

  function CanonicalTokens(base: Origin, clients: map<string, Client>, users: map<string, User>, m: map<string, TextToken>)
    : Option<map<string, Token>>
  {
    if forall k :: k in m ==> CanonicalToken(base, clients, users, m[k]).Some? then
      Some(map k | k in m :: CanonicalToken(base, clients, users, m[k]).value)
    else None
  }

  predicate UsersAccepted(users: map<string, User>) {
    (forall u :: u in users ==> u != "" && users[u].id == u && NormalizeUsername(users[u].username).Some?) &&
    (forall u, v :: u in users && v in users && NormalizeUsername(users[u].username) == NormalizeUsername(users[v].username) ==> u == v)
  }

  predicate OwnersAccepted(users: map<string, User>, devices: map<Route, string>, retired: map<Route, bool>, records: map<Route, DeviceRecord>) {
    (forall r :: r in devices ==>
       devices[r] in users && devices[r] != "" && users[devices[r]].id == devices[r] && !On(retired, r) &&
       Get(records, r, NoRecord).owner in {"", devices[r]}) &&
    (forall r :: r in records ==>
       (records[r].owner == "" || (records[r].owner in users && users[records[r].owner].id == records[r].owner)) &&
       RecordKeyOk(r, records[r].key))
  }

  /** `canonicalizeDiskState`; None is a file the server refuses to start from. */
  function Canonicalize(base: Origin, raw: TextState): Option<Image> {
    var clients := CanonicalClients(raw.clients);
    var devices := CanonicalRoutes(raw.devices);
    var disabled := CanonicalRoutes(raw.disabled);
    var retired := CanonicalRoutes(raw.retired);
    var records := CanonicalRoutes(raw.records);
    if !UsersAccepted(raw.users) || clients.None? || devices.None? || disabled.None? || retired.None? || records.None? then None
    else if !OwnersAccepted(raw.users, devices.value, retired.value, records.value) then None
    else
      var access := CanonicalTokens(base, clients.value, raw.users, raw.access);
      var refresh := CanonicalTokens(base, clients.value, raw.users, raw.refresh);
      var refreshUsed := CanonicalTokens(base, clients.value, raw.users, raw.refreshUsed);
      if access.None? || refresh.None? || refreshUsed.None? then None
      else
        Some(Image(clients.value, raw.users, devices.value, disabled.value,
                   map r | r in retired.value && retired.value[r] :: true, records.value,
                   access.value, refresh.value, refreshUsed.value, raw.sessions, raw.invites, raw.settings))
  }

  // --------------------------------------------------------------- round trip

  lemma RoutesRoundTrip<V>(m: map<Route, V>)
    requires forall r :: r in m ==> RouteOk(r)
    ensures CanonicalRoutes(RoutesText(m)) == Some(m)
  {
    hide RouteOk, RouteText, CanonicalRoute;
    forall r | r in m ensures CanonicalRoute(RouteText(r)) == Some(r) {
      RouteRoundTrip(r);
    }
    var text := RoutesText(m);
    assert forall k :: k in text ==> exists r :: r in m && k == RouteText(r);
    assert forall r :: r in m ==> RouteText(r) in text && text[RouteText(r)] == m[r];
    var back := CanonicalRoutes(text).value;
    assert back.Keys == m.Keys;
    assert back == m;
  }

  lemma TokenRoundTrip(base: Origin, clients: map<string, Client>, users: map<string, User>, t: Token)
    requires TokenOk(clients, users, t)
    ensures CanonicalToken(base, clients, users, TokenText(base, t)) == Some(t)
  {
    hide ResourceParts, ResourceUrl, NormalizeScope, ScopeText, RouteOk;
    ResourceRoundTrip(base, t.resource);
    ScopeRoundTrip(t.scope);
  }

  lemma TokensRoundTrip(base: Origin, clients: map<string, Client>, users: map<string, User>, m: map<string, Token>)
    requires TokensOk(clients, users, m)
    ensures CanonicalTokens(base, clients, users, TokensText(base, m)) == Some(m)
  {
    hide TokenOk, TokenText, CanonicalToken;
    forall k | k in m ensures CanonicalToken(base, clients, users, TokenText(base, m[k])) == Some(m[k]) {
      TokenRoundTrip(base, clients, users, m[k]);
    }
    assert CanonicalTokens(base, clients, users, TokensText(base, m)).value == m;
  }

  lemma ClientsRoundTrip(m: map<string, Client>)
    requires ClientsOk(m)
    ensures CanonicalClients(m) == Some(m)
  {
    forall k | k in m ensures CanonicalClient(k, m[k]) == Some(m[k]) {
      if m[k].deviceKey != NoKey {
        HexIsStable(m[k].deviceId);
      }
    }
    hide CanonicalClient, ClientOk;
    assert CanonicalClients(m).value == m;
  }

  lemma OwnersRoundTrip(i: Image)
    requires DirectoryOk(i)
    ensures Writable(i) && UsersAccepted(i.users) && OwnersAccepted(i.users, i.devices, i.retired, i.records)
    ensures (map r | r in i.retired && i.retired[r] :: true) == i.retired
  {
    hide ClientsOk, RouteOk, RecordKeyOk, NormalizeUsername;
  }

  lemma CanonicalParts(base: Origin, raw: TextState, i: Image)
    requires CanonicalClients(raw.clients) == Some(i.clients) && CanonicalRoutes(raw.devices) == Some(i.devices)
    requires CanonicalRoutes(raw.disabled) == Some(i.disabled) && CanonicalRoutes(raw.retired) == Some(i.retired)
    requires CanonicalRoutes(raw.records) == Some(i.records)
    requires UsersAccepted(raw.users) && OwnersAccepted(raw.users, i.devices, i.retired, i.records)
    requires CanonicalTokens(base, i.clients, raw.users, raw.access) == Some(i.access)
    requires CanonicalTokens(base, i.clients, raw.users, raw.refresh) == Some(i.refresh)
    requires CanonicalTokens(base, i.clients, raw.users, raw.refreshUsed) == Some(i.refreshUsed)
    requires (map r | r in i.retired && i.retired[r] :: true) == i.retired
    requires raw.users == i.users && raw.sessions == i.sessions && raw.invites == i.invites && raw.settings == i.settings
    ensures Canonicalize(base, raw) == Some(i)
  {
    hide CanonicalClients, CanonicalRoutes, UsersAccepted, OwnersAccepted, CanonicalTokens;
  }

  /** What the server writes, the loader accepts and reads back unchanged. */
  lemma Reload(base: Origin, i: Image)
    requires ImageOk(i)
    ensures Writable(i) && Canonicalize(base, Encode(base, i)) == Some(i)
  {
    assert DirectoryOk(i) && TokensOk(i.clients, i.users, i.access) && TokensOk(i.clients, i.users, i.refresh) &&
           TokensOk(i.clients, i.users, i.refreshUsed) && ClientsOk(i.clients);
    hide TokensOk, RoutesText, CanonicalRoutes, CanonicalTokens, TokensText, CanonicalClients, UsersAccepted, OwnersAccepted,
         DirectoryOk, Canonicalize, ClientsOk, ImageOk, RouteOk;
    OwnersRoundTrip(i);
    ClientsRoundTrip(i.clients);
    RoutesRoundTrip(i.devices);
    RoutesRoundTrip(i.disabled);
    RoutesRoundTrip(i.retired);
    RoutesRoundTrip(i.records);
    TokensRoundTrip(base, i.clients, i.users, i.access);
    TokensRoundTrip(base, i.clients, i.users, i.refresh);
    TokensRoundTrip(base, i.clients, i.users, i.refreshUsed);
    CanonicalParts(base, Encode(base, i), i);
  }

  // ------------------------------------------------- what the loader promises

  lemma CanonicalRoutesOk<V>(m: map<string, V>)
    requires CanonicalRoutes(m).Some?
    ensures forall r :: r in CanonicalRoutes(m).value ==> RouteOk(r)
  {
    hide RouteOk;
  }

  lemma CanonicalClientsOk(m: map<string, Client>)
    requires CanonicalClients(m).Some?
    ensures ClientsOk(CanonicalClients(m).value)
  {
    hide Text.DeviceId;
  }

  lemma CanonicalTokensOk(base: Origin, clients: map<string, Client>, users: map<string, User>, m: map<string, TextToken>)
    requires CanonicalTokens(base, clients, users, m).Some?
    ensures TokensOk(clients, users, CanonicalTokens(base, clients, users, m).value)
  {
    hide ResourceParts, Fields, Approved, Active, ResourceOk;
  }

  lemma OwnersOk(i: Image)
    requires UsersAccepted(i.users) && OwnersAccepted(i.users, i.devices, i.retired, i.records) && Writable(i)
    requires forall r :: r in i.retired ==> i.retired[r]
    ensures UsersOk(i.users) && DevicesOk(i.devices, i.retired, i.records, i.users.Keys) &&
            FlagsOk(i.disabled, i.retired) && RecordsOk(i.records, i.users.Keys)
  {
    hide NormalizeUsername, RouteOk, RecordKeyOk;
  }

  /** A file the loader accepts is in order, whoever wrote it. */
  lemma Accepted(base: Origin, raw: TextState)
    requires Canonicalize(base, raw).Some?
    ensures ImageOk(Canonicalize(base, raw).value)
  {
    hide CanonicalClients, CanonicalRoutes, UsersAccepted, OwnersAccepted, CanonicalTokens, RouteOk, UsersOk, ClientsOk, DevicesOk,
         FlagsOk, RecordsOk, TokensOk;
    var i := Canonicalize(base, raw).value;
    CanonicalRoutesOk(raw.devices);
    CanonicalRoutesOk(raw.disabled);
    CanonicalRoutesOk(raw.retired);
    CanonicalRoutesOk(raw.records);
    CanonicalClientsOk(raw.clients);
    CanonicalTokensOk(base, i.clients, i.users, raw.access);
    CanonicalTokensOk(base, i.clients, i.users, raw.refresh);
    CanonicalTokensOk(base, i.clients, i.users, raw.refreshUsed);
    PrunedOwners(raw.users, i.devices, CanonicalRoutes(raw.retired).value, i.retired, i.records);
    OwnersOk(i);
  }

  lemma PrunedOwners(users: map<string, User>, devices: map<Route, string>, a: map<Route, bool>, b: map<Route, bool>,
                     records: map<Route, DeviceRecord>)
    requires OwnersAccepted(users, devices, a, records) && b == map r | r in a && a[r] :: true
    ensures OwnersAccepted(users, devices, b, records)
  {
    hide RecordKeyOk;
  }

  /** A rendered state is accepted and reproduced exactly when it is in order. */
  lemma ReloadExactly(base: Origin, i: Image)
    requires Writable(i)
    ensures Canonicalize(base, Encode(base, i)) == Some(i) <==> ImageOk(i)
  {
    hide Canonicalize, Encode, ImageOk, Writable;
    if ImageOk(i) {
      Reload(base, i);
    } else if Canonicalize(base, Encode(base, i)) == Some(i) {
      Accepted(base, Encode(base, i));
    }
  }

  // ------------------------------------------------------------- the invariant

  lemma NamesGiveUsers(users: map<string, User>, usernames: map<string, string>)
    requires NamesAgree(users, usernames)
    ensures UsersOk(users)
  {
    hide NormalizeUsername;
  }

  /** Every state satisfying the invariant can be saved and loaded again. */
  lemma InvariantIsReloadable(s: State)
    requires Inv(s)
    ensures ImageOk(ImageOf(s))
  {
    hide NamesAgree, UsersOk, ClientsOk, DevicesOk, FlagsOk, RecordsOk, TokensOk, PendingsOk, CodesOk;
    NamesGiveUsers(s.reg.users, s.reg.usernames);
  }
}
