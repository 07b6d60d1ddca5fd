/** What account holders and administrators do, told field by field: whose credentials end, which
    switch is thrown, what a device, a session or an account is afterwards, and that everything
    else stays. */
module RelayAccounts {
  import opened Wrappers
  import opened RelayState
  import opened RelayOps
  import opened RelayRequests
  import opened RelayConsent
  import Text

  // ------------------------------------------------------- whose credentials end

  /** `b` is `a` without the credentials, grants and sessions of the account, and with all others. */
  ghost predicate SignedOut(a: State, b: State, u: string) {
    (forall k :: k in b.grants.access <==> k in a.grants.access && a.grants.access[k].user != u) &&
    (forall k :: k in b.grants.refresh <==> k in a.grants.refresh && a.grants.refresh[k].user != u) &&
    (forall k :: k in b.grants.refreshUsed <==> k in a.grants.refreshUsed && a.grants.refreshUsed[k].user != u) &&
    (forall k :: k in b.grants.pending <==> k in a.grants.pending && a.grants.pending[k].user != u) &&
    (forall k :: k in b.grants.codes <==> k in a.grants.codes && a.grants.codes[k].grant.user != u) &&
    SubGrants(b.grants, a.grants) && SessionsEnded(a.web, b.web, u)
  }

  ghost predicate SessionsEnded(a: Web, b: Web, u: string) {
    (forall k :: k in b.sessions <==> k in a.sessions && a.sessions[k].user != u) && Sub(b.sessions, a.sessions) &&
    b.invites == a.invites && b.ephemeral == a.ephemeral - (set k | k in a.sessions && a.sessions[k].user == u)
  }

  lemma DroppedSessions(w: Web, u: string)
    ensures SessionsEnded(w, DropSessions(w, u), u)
  {
  }

  lemma Revoked(s: State, u: string)
    ensures SignedOut(s, RevokeUser(s, u), u) && RevokeUser(s, u).reg == s.reg && RevokeUser(s, u).switches == s.switches
  {
    DroppedSessions(s.web, u);
    hide DropSessions, SessionsEnded;
  }

  /** The account's record as it was, but for the new password. */
  function WithPassword(reg: Registry, u: string, hash: string): Registry
    requires u in reg.users
  {
    var was := reg.users[u];
    reg.(users := reg.users[u := User(was.id, was.username, hash, was.admin, was.disabled)])
  }

  /** A new password of one's own: taken exactly from an enabled account that is still the one that
      signed in, while the file is not in doubt. It ends every session and credential of the
      account, the one it was changed with included, and touches nobody else's. */
  lemma NewPasswordExactly(s: State, cfg: Config, fault: bool, now: int, current: User, hash: string)
    ensures var e, u := Effects(s, cfg, fault, now, NewPassword(current, hash)), current.id;
            if !fault && u in s.reg.users && !s.reg.users[u].disabled && s.reg.users[u].passwordHash == current.passwordHash then
              e.Commit? && !e.recovery && e.onFailure == s && e.attempt.reg == WithPassword(s.reg, u, hash) && e.attempt.switches == s.switches &&
              SignedOut(s, e.attempt, u)
            else e == Quiet(s)
  {
    var u := current.id;
    hide RevokeUser, SignedOut;
    if u in s.reg.users {
      Revoked(s.(reg := WithPassword(s.reg, u, hash)), u);
      SignedOutAs(s, s.(reg := WithPassword(s.reg, u, hash)), RevokeUser(s.(reg := WithPassword(s.reg, u, hash)), u), u);
    }
  }

  lemma SignedOutAs(s: State, m: State, t: State, u: string)
    requires m.grants == s.grants && m.web == s.web && SignedOut(m, t, u)
    ensures SignedOut(s, t, u)
  {
  }

  // ------------------------------------------------------- administrators' actions

  /** An administrator's action is carried out exactly when the administrator still is one, enabled
      and with the password that signed in, the action may be done at all, and, while the file is in
      doubt, is one that recovery allows; it is then saved as a recovery exactly in that case. */
  lemma AdminExactly(s: State, cfg: Config, fault: bool, now: int, current: User, a: AdminAction)
    ensures var e := Effects(s, cfg, fault, now, Manage(current, a));
            if current.id in s.reg.users && s.reg.users[current.id].id == current.id && s.reg.users[current.id].admin &&
               !s.reg.users[current.id].disabled && current.passwordHash != "" && s.reg.users[current.id].passwordHash == current.passwordHash &&
               (fault ==> RecoveryAllowed(a)) && AdminChange(s, cfg, current, a).Some?
            then e == Commit(AdminChange(s, cfg, current, a).value, s, fault)
            else e == Quiet(s)
  {
    hide AdminChange, RecoveryAllowed;
  }

  /** The switches an action asks for. */
  predicate SwitchAction(a: AdminAction) {
    a.SetMode? || a.SetRegistration? || a.SetDcr? || a.SetMcp? || a.SetAgent? || a.SetUsage? || a.SetReward? || a.SetKillSwitch?
  }

  /** Each switch action sets its own switch to what was asked and leaves all others, and everything
      else, as they were; a change of mode also closes registration, which is opened only on a
      public instance that permits it, and the mode changes only where it is not configured. */
  lemma SwitchesExactly(s: State, cfg: Config, current: User, a: AdminAction)
    requires SwitchAction(a)
    ensures var t, w := AdminChange(s, cfg, current, a), s.switches;
            (t.Some? ==> t.value == s.(switches := t.value.switches)) &&
            match a
            case SetMode(m) =>
              (t.Some? <==> !cfg.modeConfigured && m.Some? && m.value != w.mode) &&
              (t.Some? ==> t.value.switches == Switches(m.value, false, w.dcr, w.mcp, w.agent, w.kill, w.awaitingSetup))
            case SetRegistration(on) =>
              (t.Some? <==> on.Some? && w.mode.Public? && !cfg.registrationDisabled) &&
              (t.Some? ==> t.value.switches == Switches(w.mode, on.value, w.dcr, w.mcp, w.agent, w.kill, w.awaitingSetup))
            case SetDcr(on) =>
              (t.Some? <==> on.Some?) && (t.Some? ==> t.value.switches == Switches(w.mode, w.registration, on.value, w.mcp, w.agent, w.kill, w.awaitingSetup))
            case SetMcp(on) =>
              (t.Some? <==> on.Some?) && (t.Some? ==> t.value.switches == Switches(w.mode, w.registration, w.dcr, on.value, w.agent, w.kill, w.awaitingSetup))
            case SetAgent(on) =>
              (t.Some? <==> on.Some?) && (t.Some? ==> t.value.switches == Switches(w.mode, w.registration, w.dcr, w.mcp, on.value, w.kill, w.awaitingSetup))
            case SetKillSwitch(on) =>
              (t.Some? <==> on.Some?) && (t.Some? ==> t.value.switches == Switches(w.mode, w.registration, w.dcr, w.mcp, w.agent, on.value, w.awaitingSetup))
            case SetUsage(on) => (t.Some? <==> on.Some?) && (t.Some? ==> t.value == s)
            case SetReward(on, ready) => (t.Some? <==> on.Some? && (on.value ==> ready)) && (t.Some? ==> t.value == s)
            case _ => true
  {
  }

  /** A new password set for an enabled account, or an account switched off, ends all its sessions
      and credentials; one switched on gets none back. Nobody switches off the account it acts with. */
  lemma UserActionsExactly(s: State, cfg: Config, current: User, u: string, hash: Option<string>, toggle: Option<bool>)
    ensures var t := AdminChange(s, cfg, current, RotatePassword(u, hash));
            (t.Some? <==> hash.Some? && u in s.reg.users && !s.reg.users[u].disabled) &&
            (t.Some? ==> t.value.reg == WithPassword(s.reg, u, hash.value) && t.value.switches == s.switches && SignedOut(s, t.value, u))
    ensures var t := AdminChange(s, cfg, current, DisableUser(u, toggle));
            (t.Some? <==> toggle.Some? && u in s.reg.users && s.reg.users[u].id != current.id) &&
            (t.Some? ==> t.value.reg == Switched(s.reg, u, toggle.value) && t.value.switches == s.switches &&
                         if toggle.value then SignedOut(s, t.value, u) else t.value.grants == s.grants && t.value.web == s.web)
  {
    if u in s.reg.users {
      if hash.Some? { RevokedFrom(s, WithPassword(s.reg, u, hash.value), u); }
      RevokedFrom(s, Switched(s.reg, u, true), u);
    }
    hide RevokeUser, SignedOut;
  }

  /** The account's record as it was, but for being switched off or on. */
  function Switched(reg: Registry, u: string, off: bool): Registry
    requires u in reg.users
  {
    var was := reg.users[u];
    reg.(users := reg.users[u := User(was.id, was.username, was.passwordHash, was.admin, off)])
  }

  lemma RevokedFrom(s: State, reg: Registry, u: string)
    ensures var t := RevokeUser(s.(reg := reg), u); SignedOut(s, t, u) && t.reg == reg && t.switches == s.switches
  {
    hide RevokeUser, SignedOut;
    Revoked(s.(reg := reg), u);
    SignedOutAs(s, s.(reg := reg), RevokeUser(s.(reg := reg), u), u);
  }

  /** Signing out: an account's sessions, or one session, and nothing else. */
  lemma LogoutsExactly(s: State, cfg: Config, current: User, u: string, h: string)
    ensures forall a :: a == LogoutUser(u) || a == LogoutAll(u) ==>
              var t := AdminChange(s, cfg, current, a);
              (t.Some? <==> u in s.reg.users) && (t.Some? ==> t.value == s.(web := t.value.web) && SessionsEnded(s.web, t.value.web, u))
    ensures var t := AdminChange(s, cfg, current, LogoutSession(h));
            (t.Some? <==> h in s.web.sessions) && (t.Some? ==> t.value == s.(web := s.web.(sessions := s.web.sessions - {h})))
    ensures var t := AdminChange(s, cfg, current, RevokeInvite(h));
            (t.Some? <==> h in s.web.invites) && (t.Some? ==> t.value == s.(web := s.web.(invites := s.web.invites - {h})))
  {
    DroppedSessions(s.web, u);
    hide DropSessions, SessionsEnded;
  }

  // ------------------------------------------------------------ devices and clients

  predicate ForRoute(resource: Resource, routes: set<Route>) {
    !resource.AccountMcp? && resource.device in routes
  }

  /** `b` is `a` without the credentials and grants for the routes, and with all others. */
  ghost predicate RoutesCut(a: Grants, b: Grants, routes: set<Route>) {
    (forall k :: k in b.access <==> k in a.access && !ForRoute(a.access[k].resource, routes)) &&
    (forall k :: k in b.refresh <==> k in a.refresh && !ForRoute(a.refresh[k].resource, routes)) &&
    (forall k :: k in b.refreshUsed <==> k in a.refreshUsed && !ForRoute(a.refreshUsed[k].resource, routes)) &&
    (forall k :: k in b.pending <==> k in a.pending && !ForRoute(a.pending[k].resource, routes)) &&
    (forall k :: k in b.codes <==> k in a.codes && !ForRoute(a.codes[k].grant.resource, routes)) && SubGrants(b, a)
  }

  lemma CutRoutes(g: Grants, routes: set<Route>)
    ensures RoutesCut(g, RevokeRoutes(g, routes), routes)
  {
  }

  /** The device's record: the one it had, or a new one for the owner; a missing owner is filled in. */
  predicate RecordFor(a: Registry, b: Registry, r: Route, owner: string, off: bool) {
    var was := if r in a.records then a.records[r] else NoRecord;
    b.records == a.records[r := DeviceRecord(if was.owner == "" then owner else was.owner, was.key, off)]
  }

  /** A device switched off loses every credential and grant for it; one switched on gets none
      back; its key, its owner and all other devices stay as they were. */
  ghost predicate DeviceSwitched(s: State, t: State, r: Route, off: bool, owner: string) {
    t.web == s.web && t.switches == s.switches && t.reg == s.reg.(disabled := s.reg.disabled[r := off], records := t.reg.records) &&
    RecordFor(s.reg, t.reg, r, owner, off) && if off then RoutesCut(s.grants, t.grants, {r}) else t.grants == s.grants
  }

  lemma SwitchesDevice(s: State, r: Route, off: bool, owner: string)
    ensures DeviceSwitched(s, SetDisabled(s, r, off, owner), r, off, owner)
  {
    CutRoutes(s.grants, {r});
    hide RevokeRoutes, RoutesCut;
  }

  /** The clients that proved the key of one of the routes. */
  predicate HoldsKey(c: Client, routes: set<Route>) {
    c.keyVerified && Immutable(c.deviceId) in routes
  }

  /** Retired routes are nobody's, have no switch and no record, and are marked for good; nothing is
      left that was for them, nor any client that proved their key with what it held; everything
      else stays. */
  ghost predicate Retires(s: State, t: State, routes: set<Route>) {
    t.web == s.web && t.switches == s.switches && RegistryRetires(s.reg, t.reg, routes) && Unserved(s, t.grants, routes)
  }

  ghost predicate RegistryRetires(a: Registry, b: Registry, routes: set<Route>) {
    b.users == a.users && b.usernames == a.usernames && b.devices == a.devices - routes && b.disabled == a.disabled - routes &&
    b.records == a.records - routes && Marked(a.retired, b.retired, routes) &&
    (forall c :: c in b.clients <==> c in a.clients && !HoldsKey(a.clients[c], routes)) && Sub(b.clients, a.clients)
  }

  /** The routes are marked, beside those marked before. */
  ghost predicate Marked(a: map<Route, bool>, b: map<Route, bool>, routes: set<Route>) {
    (forall r :: r in b <==> r in a || r in routes) && forall r :: r in b ==> b[r] == if r in routes then true else a[r]
  }

  predicate Cut(s: State, client: string, resource: Resource, routes: set<Route>) {
    ForRoute(resource, routes) || (client in s.reg.clients && HoldsKey(s.reg.clients[client], routes))
  }

  ghost predicate TokensUncut(s: State, a: map<string, Token>, b: map<string, Token>, routes: set<Route>) {
    Sub(b, a) && forall k :: k in a ==> (k in b <==> !Cut(s, a[k].client, a[k].resource, routes))
  }

  ghost predicate RequestsUncut(s: State, a: map<string, Pending>, b: map<string, Pending>, routes: set<Route>) {
    Sub(b, a) && forall k :: k in a ==> (k in b <==> !Cut(s, a[k].client, a[k].resource, routes))
  }

  ghost predicate CodesUncut(s: State, a: map<string, Code>, b: map<string, Code>, routes: set<Route>) {
    Sub(b, a) && forall k :: k in a ==> (k in b <==> !Cut(s, a[k].grant.client, a[k].grant.resource, routes))
  }

  ghost predicate Unserved(s: State, b: Grants, routes: set<Route>) {
    TokensUncut(s, s.grants.access, b.access, routes) && TokensUncut(s, s.grants.refresh, b.refresh, routes) &&
    TokensUncut(s, s.grants.refreshUsed, b.refreshUsed, routes) && RequestsUncut(s, s.grants.pending, b.pending, routes) &&
    CodesUncut(s, s.grants.codes, b.codes, routes)
  }

  lemma RetiresExactly(s: State, routes: set<Route>)
    ensures Retires(s, Retire(s, routes), routes)
  {
    var bound := BoundToAny(s.reg.clients, routes);
    var reg := s.reg.(retired := s.reg.retired + (map r | r in routes :: true), devices := s.reg.devices - routes,
                      disabled := s.reg.disabled - routes, records := s.reg.records - routes);
    var m := s.(reg := reg, grants := RevokeRoutes(s.grants, routes));
    assert Retire(s, routes) == RevokeClients(m, bound) by { hide RevokeRoutes, RevokeClients, BoundToAny; }
    hide *;
    Bound(s, bound, routes);
    UnservedBoth(s, m, bound, routes);
    ClientsLeft(m, bound);
    RegistryLeft(s, reg, bound, routes);
    Together(s, RevokeClients(m, bound), routes);
  }

  lemma Together(s: State, t: State, routes: set<Route>)
    requires t.web == s.web && t.switches == s.switches && RegistryRetires(s.reg, t.reg, routes) && Unserved(s, t.grants, routes)
    ensures Retires(s, t, routes)
  {
    hide RegistryRetires, Unserved;
  }

  lemma RegistryLeft(s: State, reg: Registry, bound: set<string>, routes: set<Route>)
    requires forall c :: c in bound <==> c in s.reg.clients && HoldsKey(s.reg.clients[c], routes)
    requires reg == s.reg.(retired := s.reg.retired + (map r | r in routes :: true), devices := s.reg.devices - routes,
                           disabled := s.reg.disabled - routes, records := s.reg.records - routes)
    ensures RegistryRetires(s.reg, reg.(clients := reg.clients - bound), routes)
  {
    hide HoldsKey;
  }

  lemma Bound(s: State, bound: set<string>, routes: set<Route>)
    requires bound == BoundToAny(s.reg.clients, routes)
    ensures forall c :: c in bound <==> c in s.reg.clients && HoldsKey(s.reg.clients[c], routes)
  {
  }

  lemma ClientsLeft(m: State, bound: set<string>)
    ensures var t := RevokeClients(m, bound);
            t.web == m.web && t.switches == m.switches && t.reg == m.reg.(clients := m.reg.clients - bound)
  {
    hide WithoutClients, PendingsWithoutClients, CodesWithoutClients;
  }

  lemma TokensBoth(s: State, a: map<string, Token>, bound: set<string>, routes: set<Route>)
    requires forall c :: c in bound <==> c in s.reg.clients && HoldsKey(s.reg.clients[c], routes)
    ensures TokensUncut(s, a, WithoutClients(WithoutRoutes(a, routes), bound), routes)
  {
    hide HoldsKey;
  }

  lemma RequestsBoth(s: State, a: map<string, Pending>, codes: map<string, Code>, bound: set<string>, routes: set<Route>)
    requires forall c :: c in bound <==> c in s.reg.clients && HoldsKey(s.reg.clients[c], routes)
    ensures RequestsUncut(s, a, PendingsWithoutClients(PendingsWithoutRoutes(a, routes), bound), routes)
    ensures CodesUncut(s, codes, CodesWithoutClients(CodesWithoutRoutes(codes, routes), bound), routes)
  {
    hide HoldsKey;
  }

  lemma UnservedBoth(s: State, m: State, bound: set<string>, routes: set<Route>)
    requires m.grants == RevokeRoutes(s.grants, routes) && forall c :: c in bound <==> c in s.reg.clients && HoldsKey(s.reg.clients[c], routes)
    ensures Unserved(s, RevokeClients(m, bound).grants, routes)
  {
    TokensBoth(s, s.grants.access, bound, routes);
    TokensBoth(s, s.grants.refresh, bound, routes);
    TokensBoth(s, s.grants.refreshUsed, bound, routes);
    RequestsBoth(s, s.grants.pending, s.grants.codes, bound, routes);
    hide TokensUncut, RequestsUncut, CodesUncut, WithoutClients, WithoutRoutes, PendingsWithoutClients, PendingsWithoutRoutes,
         CodesWithoutClients, CodesWithoutRoutes, HoldsKey;
  }

  /** Administrators' actions on devices, each on a device that somebody owns. */
  lemma DeviceActionsExactly(s: State, cfg: Config, current: User, r: Route, toggle: Option<bool>, valid: bool)
    ensures var t := AdminChange(s, cfg, current, DisableDevice(r, toggle));
            (t.Some? <==> toggle.Some? && r in s.reg.devices) && (t.Some? ==> DeviceSwitched(s, t.value, r, toggle.value, s.reg.devices[r]))
    ensures var t := AdminChange(s, cfg, current, RevokeDevice(r));
            (t.Some? <==> r in s.reg.devices) && (t.Some? ==> Retires(s, t.value, {r}))
    ensures var t := AdminChange(s, cfg, current, RenameDevice(r, valid));
            (t.Some? <==> valid && r in s.reg.devices) && (t.Some? ==> Recorded(s, t.value, r, s.reg.devices[r]))
  {
    DisablesExactly(s, cfg, current, r, toggle);
    RevokesExactly(s, cfg, current, r);
    RenameExactly(s, cfg, current, r, valid);
    hide AdminChange, DeviceSwitched, Retires, Recorded;
  }

  lemma DisablesExactly(s: State, cfg: Config, current: User, r: Route, toggle: Option<bool>)
    ensures var t := AdminChange(s, cfg, current, DisableDevice(r, toggle));
            (t.Some? <==> toggle.Some? && r in s.reg.devices) && (t.Some? ==> DeviceSwitched(s, t.value, r, toggle.value, s.reg.devices[r]))
  {
    if r in s.reg.devices && toggle.Some? { SwitchesDevice(s, r, toggle.value, s.reg.devices[r]); }
    hide SetDisabled, DeviceSwitched;
  }

  lemma RevokesExactly(s: State, cfg: Config, current: User, r: Route)
    ensures var t := AdminChange(s, cfg, current, RevokeDevice(r));
            (t.Some? <==> r in s.reg.devices) && (t.Some? ==> Retires(s, t.value, {r}))
  {
    RetiresExactly(s, {r});
    hide Retire, Retires;
  }

  lemma RenameExactly(s: State, cfg: Config, current: User, r: Route, valid: bool)
    ensures var t := AdminChange(s, cfg, current, RenameDevice(r, valid));
            (t.Some? <==> valid && r in s.reg.devices) && (t.Some? ==> Recorded(s, t.value, r, s.reg.devices[r]))
  {
    if r in s.reg.devices {
      RecordedFor(s, r, s.reg.devices[r]);
    }
    hide EnsureRecord, Recorded;
  }

  lemma RecordedFor(s: State, r: Route, owner: string)
    ensures Recorded(s, s.(reg := s.reg.(records := s.reg.records[r := EnsureRecord(s.reg, r, owner)])), r, owner)
  {
  }

  /** Renaming gives the route a record, and changes nothing a record says of owner, key and switch. */
  predicate Recorded(s: State, t: State, r: Route, owner: string) {
    t == s.(reg := s.reg.(records := t.reg.records)) &&
    RecordFor(s.reg, t.reg, r, owner, (r in s.reg.records && s.reg.records[r].disabled) || (r in s.reg.disabled && s.reg.disabled[r]))
  }

  /** `b` is `a` without the tokens of the family. */
  ghost predicate FamilyCut(a: Grants, b: Grants, family: string) {
    b == a.(access := b.access, refresh := b.refresh, refreshUsed := b.refreshUsed) &&
    Sub(b.access, a.access) && Sub(b.refresh, a.refresh) && Sub(b.refreshUsed, a.refreshUsed) &&
    (forall k :: k in a.access ==> (k in b.access <==> family == "" || a.access[k].family != family)) &&
    (forall k :: k in a.refresh ==> (k in b.refresh <==> family == "" || a.refresh[k].family != family)) &&
    (forall k :: k in a.refreshUsed ==> (k in b.refreshUsed <==> family == "" || a.refreshUsed[k].family != family))
  }

  lemma CutFamily(g: Grants, family: string)
    ensures FamilyCut(g, RevokeFamily(g, family), family)
  {
  }

  /** The family of the token under the handle, looked for among the live, the used and the access tokens, in that order. */
  function FamilyUnder(g: Grants, h: string): Option<string> {
    if h in g.refresh then Some(g.refresh[h].family)
    else if h in g.refreshUsed then Some(g.refreshUsed[h].family)
    else if h in g.access then Some(g.access[h].family)
    else None
  }

  /** Revoking a client takes it and all it holds; revoking a token, its family; nothing else goes. */
  lemma RevocationsExactly(s: State, cfg: Config, current: User, c: string, h: string)
    ensures var t := AdminChange(s, cfg, current, RevokeClientAction(c));
            (t.Some? <==> c in s.reg.clients) &&
            (t.Some? ==> t.value == s.(grants := t.value.grants, reg := s.reg.(clients := s.reg.clients - {c})) && WithoutClient(s.grants, t.value.grants, c))
    ensures var t, family := AdminChange(s, cfg, current, RevokeToken(h)), FamilyUnder(s.grants, h);
            (t.Some? <==> family.Some?) && (t.Some? ==> t.value == s.(grants := t.value.grants) && FamilyCut(s.grants, t.value.grants, family.value))
  {
    ClientRevoked(s, cfg, current, c);
    TokenRevoked(s, cfg, current, h);
    hide AdminChange, WithoutClient, FamilyCut, FamilyUnder;
  }

  lemma ClientRevoked(s: State, cfg: Config, current: User, c: string)
    ensures var t := AdminChange(s, cfg, current, RevokeClientAction(c));
            (t.Some? <==> c in s.reg.clients) &&
            (t.Some? ==> t.value == s.(grants := t.value.grants, reg := s.reg.(clients := s.reg.clients - {c})) && WithoutClient(s.grants, t.value.grants, c))
  {
    ClientGone(s, c);
    hide RevokeClients, WithoutClient;
  }

  lemma TokenRevoked(s: State, cfg: Config, current: User, h: string)
    ensures var t, family := AdminChange(s, cfg, current, RevokeToken(h)), FamilyUnder(s.grants, h);
            (t.Some? <==> family.Some?) && (t.Some? ==> t.value == s.(grants := t.value.grants) && FamilyCut(s.grants, t.value.grants, family.value))
  {
    if FamilyUnder(s.grants, h).Some? { CutFamily(s.grants, FamilyUnder(s.grants, h).value); }
    hide RevokeFamily, FamilyCut;
  }

  /** An account is created exactly under a valid and unused name, with an acceptable password and
      below the limit; it is enabled, an administrator only if it is the first, and found under its name. */
  ghost predicate Enrolls(a: Registry, b: Registry, username: string, hash: string, id: string, admin: bool) {
    var n := NormalizeUsername(username);
    n.Some? && b == a.(users := a.users[id := User(id, Text.Trim(username), hash, admin, false)], usernames := a.usernames[n.value := id])
  }

  predicate NameFree(reg: Registry, username: string) {
    NormalizeUsername(username).Some? && NormalizeUsername(username).value !in reg.usernames && |reg.users| < 4096
  }

  lemma CreationsExactly(s: State, cfg: Config, fault: bool, now: int, current: User, username: string, hash: Option<string>, id: string, mode: Mode, open: bool)
    ensures var t := AdminChange(s, cfg, current, CreateAccount(username, hash, id));
            (t.Some? <==> hash.Some? && NameFree(s.reg, username)) &&
            (t.Some? ==> t.value == s.(reg := t.value.reg) && Enrolls(s.reg, t.value.reg, username, hash.value, id, false))
    ensures var e, w := Effects(s, cfg, fault, now, FirstRun(username, hash, id, mode, open)), s.switches;
            if s.reg.users == map[] && w.awaitingSetup && (cfg.modeConfigured ==> mode == w.mode) && hash.Some? && NameFree(s.reg, username) then
              e.Commit? && !e.recovery && e.onFailure == s && e.attempt.grants == s.grants && e.attempt.web == s.web &&
              Enrolls(s.reg, e.attempt.reg, username, hash.value, id, true) &&
              e.attempt.switches == Switches(mode, mode.Public? && open, w.dcr, w.mcp, w.agent, w.kill, false)
            else e == Quiet(s)
  {
    hide NormalizeUsername;
  }

  /** `b` is `a` without the account and the names it was found under. */
  ghost predicate Unlisted(a: Registry, b: Registry, u: string) {
    b == a.(users := a.users - {u}, usernames := b.usernames) && Sub(b.usernames, a.usernames) &&
    forall n :: n in a.usernames ==> (n in b.usernames <==> a.usernames[n] != u)
  }

  /** The routes that either record of ownership gives to the account. */
  function RoutesLeft(reg: Registry, u: string): set<Route> {
    (set r | r in reg.devices && reg.devices[r] == u) + (set r | r in reg.records && reg.records[r].owner == u)
  }

  /** Deleting an account, which nobody does to the one it acts with, takes the account and its
      name, retires every route it leaves behind, and ends every session and credential it had. */
  lemma DeletionExactly(s: State, cfg: Config, current: User, u: string)
    ensures var t := AdminChange(s, cfg, current, DeleteUser(u));
            (t.Some? <==> u in s.reg.users && u != current.id) &&
            (t.Some? ==> exists m: State, n: State :: m == s.(reg := m.reg) && Unlisted(s.reg, m.reg, u) && Retires(m, n, RoutesLeft(s.reg, u)) &&
                                        t.value.reg == n.reg && t.value.switches == n.switches && SignedOut(n, t.value, u))
  {
    if u in s.reg.users && u != current.id {
      var m := s.(reg := RemoveUser(s.reg, u));
      var n := Retire(m, LeftBehind(s.reg, u));
      assert LeftBehind(s.reg, u) == RoutesLeft(s.reg, u);
      assert Unlisted(s.reg, m.reg, u);
      RetiresExactly(m, LeftBehind(s.reg, u));
      Revoked(n, u);
      assert AdminChange(s, cfg, current, DeleteUser(u)) == Some(RevokeUser(n, u)) by { hide RevokeUser, Retire, RemoveUser, LeftBehind; }
    }
    hide *;
  }

  // ----------------------------------------------------------- holders and sessions

  /** What an account holder may do, while enabled and still the one that signed in: name, switch
      or retire a device that is its own, end a family that is its own, or end sessions of its own;
      and exactly that is done. */
  lemma OwnExactly(s: State, current: User, r: Route, toggle: Option<bool>, valid: bool)
    ensures var live, mine := Live(s.reg, current), r in s.reg.devices && s.reg.devices[r] == current.id && current.id != "";
            var t := AccountChange(s, current, OwnDisable(r, toggle));
            (current.id != "" ==> (t.Some? <==> live && mine && toggle.Some?)) && (t.Some? ==> DeviceSwitched(s, t.value, r, toggle.value, current.id))
    ensures var live, mine := Live(s.reg, current), r in s.reg.devices && s.reg.devices[r] == current.id && current.id != "";
            var t := AccountChange(s, current, OwnRevoke(r));
            (current.id != "" ==> (t.Some? <==> live && mine)) && (t.Some? ==> Retires(s, t.value, {r}))
    ensures var live, mine := Live(s.reg, current), r in s.reg.devices && s.reg.devices[r] == current.id && current.id != "";
            var t := AccountChange(s, current, OwnRename(r, valid));
            (current.id != "" ==> (t.Some? <==> live && mine && valid)) && (t.Some? ==> Recorded(s, t.value, r, current.id))
  {
    if toggle.Some? { SwitchesDevice(s, r, toggle.value, current.id); }
    RetiresExactly(s, {r});
    RecordedFor(s, r, current.id);
    hide SetDisabled, Retire, DeviceSwitched, Retires, Recorded, EnsureRecord, OwnsFamily;
  }

  /** The account is enabled and has the password that signed in. */
  predicate Live(reg: Registry, current: User) {
    current.id in reg.users && !reg.users[current.id].disabled && reg.users[current.id].passwordHash == current.passwordHash
  }

  lemma OwnSessionsExactly(s: State, current: User, family: string, h: string)
    ensures var t := AccountChange(s, current, OwnRevokeFamily(family));
            (t.Some? <==> Live(s.reg, current) && family != "" &&
                          exists k :: (k in s.grants.access && s.grants.access[k].user == current.id && s.grants.access[k].family == family) ||
                                      (k in s.grants.refresh && s.grants.refresh[k].user == current.id && s.grants.refresh[k].family == family)) &&
            (t.Some? ==> t.value == s.(grants := t.value.grants) && FamilyCut(s.grants, t.value.grants, family))
    ensures var t := AccountChange(s, current, OwnLogout(h));
            (t.Some? <==> Live(s.reg, current) && h in s.web.sessions && s.web.sessions[h].user == current.id) &&
            (t.Some? ==> t.value == s.(web := s.web.(sessions := s.web.sessions - {h}, ephemeral := s.web.ephemeral - {h})))
    ensures var t := AccountChange(s, current, OwnLogoutOthers(h));
            (t.Some? <==> Live(s.reg, current)) &&
            (t.Some? ==> t.value == s.(web := s.web.(sessions := t.value.web.sessions, ephemeral := t.value.web.ephemeral)) &&
                         Sub(t.value.web.sessions, s.web.sessions) &&
                         forall k :: k in s.web.sessions ==> (k in t.value.web.sessions <==> s.web.sessions[k].user != current.id || k == h))
  {
    CutFamily(s.grants, family);
    hide RevokeFamily, FamilyCut;
  }

  /** A holder's action is saved or put back exactly when it may be done and the file is not in doubt. */
  lemma HolderExactly(s: State, cfg: Config, fault: bool, now: int, current: User, a: AccountAction)
    ensures Effects(s, cfg, fault, now, Own(current, a)) ==
            if !fault && AccountChange(s, current, a).Some? then Commit(AccountChange(s, current, a).value, s, false) else Quiet(s)
  {
    hide AccountChange;
  }

  /** Signing in makes a session of thirty days for an enabled account that still has the password
      that was checked; while the file is in doubt it lives in memory only. Signing out ends exactly
      that session. */
  lemma SessionsExactly(s: State, cfg: Config, fault: bool, now: int, current: User, h: string)
    ensures var e, u := Effects(s, cfg, fault, now, Login(current, h)), current.id;
            var web := s.web.(sessions := s.web.sessions[h := Session(u, now + 2592000, now)]);
            if u in s.reg.users && s.reg.users[u].id != "" && current.passwordHash != "" && Live(s.reg, current) then
              if fault then e == Quiet(s.(web := web.(ephemeral := web.ephemeral + {h}))) else e == Commit(s.(web := web), s, false)
            else e == Quiet(s)
    ensures var t := s.(web := s.web.(sessions := s.web.sessions - {h}, ephemeral := s.web.ephemeral - {h}));
            Effects(s, cfg, fault, now, Logout(h)) == Commit(t, t, false)
  {
  }

  /** A fresh password moves an administrator's session to a new handle, and marks the time. */
  lemma ReauthExactly(s: State, cfg: Config, fault: bool, now: int, current: User, h: string, renewed: string)
    ensures var e := Effects(s, cfg, fault, now, Reauth(current, h, renewed));
            if h in s.web.sessions && s.web.sessions[h].user == current.id && AdminLive(s.reg, current) then
              var was := s.web.sessions[h];
              var sessions := (s.web.sessions - {h})[renewed := Session(was.user, was.expires, now)];
              if fault then e == Quiet(s.(web := s.web.(sessions := sessions, ephemeral := s.web.ephemeral - {h} + {renewed})))
              else e == Commit(s.(web := s.web.(sessions := sessions, ephemeral := s.web.ephemeral - {h})), s, false)
            else e == Quiet(s)
  {
  }

  /** An invitation is issued by a live administrator of a public instance, below the limit, for one account and for a day. */
  lemma InvitesExactly(s: State, cfg: Config, fault: bool, now: int, current: User, h: string)
    ensures var e, c := Effects(s, cfg, fault, now, IssueInvite(current, h)), Cleanup(s, now);
            if AdminLive(s.reg, current) && s.switches.mode.Public? && !fault then
              if |c.web.invites| < 1024 then e == Commit(c.(web := c.web.(invites := c.web.invites[h := Invite(now + 86400, 1)])), c, false)
              else e == Quiet(c)
            else e == Quiet(s)
  {
    hide Cleanup;
  }

  /** The administrator is one, enabled, and has the password that signed in. */
  predicate AdminLive(reg: Registry, current: User) {
    current.id in reg.users && reg.users[current.id].id == current.id && reg.users[current.id].admin && !reg.users[current.id].disabled &&
    current.passwordHash != "" && reg.users[current.id].passwordHash == current.passwordHash
  }

  /** A failed login is counted on its request, and the fifth ends it; refusing a request ends it. */
  lemma RefusalsExactly(s: State, cfg: Config, fault: bool, now: int, request: string)
    ensures var e, p := Effects(s, cfg, fault, now, Fail(request)), s.grants.pending;
            if request in p && p[request].attempts < 4 then
              e == Quiet(s.(grants := s.grants.(pending := p[request := p[request].(attempts := p[request].attempts + 1)])))
            else e == Quiet(s.(grants := s.grants.(pending := p - {request})))
    ensures Effects(s, cfg, fault, now, Deny(request)) == Quiet(s.(grants := s.grants.(pending := s.grants.pending - {request})))
  {
    if request !in s.grants.pending {
      assert s.grants.pending - {request} == s.grants.pending;
    }
  }

  /** Clean-up drops exactly what has ended: sessions past their time or of an account not enabled,
      invitations past their time or used up, and clients that nobody approved within an hour. */
  lemma CleanUpExactly(s: State, now: int, k: string)
    ensures var c := Cleanup(s, now);
            (k in c.web.sessions <==> k in s.web.sessions && now < s.web.sessions[k].expires &&
                                      s.web.sessions[k].user in s.reg.users && s.reg.users[s.web.sessions[k].user].id == s.web.sessions[k].user &&
                                      !s.reg.users[s.web.sessions[k].user].disabled) &&
            (k in c.web.invites <==> k in s.web.invites && now < s.web.invites[k].expires && s.web.invites[k].uses > 0) &&
            (k in c.reg.clients <==> k in s.reg.clients && (s.reg.clients[k].approved || now <= s.reg.clients[k].issuedAt + 3600))
    ensures var c := Cleanup(s, now);
            Sub(c.web.sessions, s.web.sessions) && Sub(c.web.invites, s.web.invites) && Sub(c.reg.clients, s.reg.clients) &&
            c.reg == s.reg.(clients := c.reg.clients) && c.switches == s.switches && c.web.ephemeral == s.web.ephemeral * c.web.sessions.Keys
  {
    hide CleanGrants;
  }
}
