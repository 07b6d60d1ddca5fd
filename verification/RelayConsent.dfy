/** What the steps of a consent do, told field by field: registering a client, asking, approving,
    joining by invitation, and what a credential must be to work. Each says exactly when the
    request succeeds and exactly what is then different. */
module RelayConsent {
  import opened Wrappers
  import opened RelayState
  import opened RelayOps
  import opened RelayRequests
  import opened RelayTokens
  import opened RelaySteps
  import Text

  // --------------------------------------------------------------- credentials

  /** The account exists under its own ID and is enabled. */
  predicate Enrolled(reg: Registry, u: string) {
    u in reg.users && reg.users[u].id == u && !reg.users[u].disabled
  }

  /** Nothing says that the route is switched off or retired. */
  predicate RouteOpen(reg: Registry, r: Route) {
    (r in reg.disabled ==> !reg.disabled[r]) && (r in reg.retired ==> !reg.retired[r]) && (r in reg.records ==> !reg.records[r].disabled)
  }

  /** A key works exactly when it was issued for this resource and scope, to a client that is there
      and approved, for an account that is there and enabled and, if the resource is a device's,
      still owns it with no record to the contrary, while the device and the kind of access are
      switched on, the kill switch is off and the file is not in doubt. */
  lemma VerifiesExactly(s: State, fault: bool, key: string, resource: Resource, kind: Kind)
    ensures Verifies(s, fault, key, resource, kind) <==>
              key in s.grants.access &&
              var t := s.grants.access[key];
              t.resource == resource && t.scope.kind == kind && (kind == if resource.Agent? then AgentKind else McpKind) &&
              t.client != "" && t.client in s.reg.clients && s.reg.clients[t.client].id == t.client && s.reg.clients[t.client].approved &&
              t.user != "" && Enrolled(s.reg, t.user) && !fault && !s.switches.kill &&
              (if resource.Agent? then s.switches.agent else s.switches.mcp) &&
              (resource.AccountMcp? ||
               var r := resource.device;
               RouteOpen(s.reg, r) && r in s.reg.devices && s.reg.devices[r] == t.user &&
               (r in s.reg.records ==> s.reg.records[r].owner == "" || s.reg.records[r].owner == t.user))
  {
  }

  // ----------------------------------------------------------------- clients

  /** The client has told of a device in any way. */
  predicate DeviceClient(c: Client) {
    c.keyVerified || c.deviceId != "" || c.deviceKey != NoKey
  }

  /** Its device identity is whole, and the record of the route it stands for knows no other key. */
  predicate WholeIdentity(reg: Registry, c: Client) {
    c.keyVerified && c.deviceId != "" && c.deviceKey != NoKey && c.deviceKey.derivedId == c.deviceId &&
    var r := Immutable(c.deviceId);
    r in reg.records && reg.records[r].key != NoKey ==> reg.records[r].key == c.deviceKey
  }

  /** The route has been retired. */
  predicate RetiredRoute(reg: Registry, r: Route) {
    r in reg.retired && reg.retired[r]
  }

  /** An oldest unapproved client. */
  ghost predicate Oldest(clients: map<string, Client>, victim: string, now: int) {
    victim in clients && !clients[victim].approved && clients[victim].issuedAt <= now &&
    forall k :: k in clients && !clients[k].approved ==> clients[victim].issuedAt <= clients[k].issuedAt
  }

  /** Exactly when a client may be registered in a state that has been cleaned up. */
  ghost predicate MayRegister(c: State, fault: bool, now: int, req: Registration, victim: string) {
    !fault && c.switches.dcr && (req.device.Key? ==> !RetiredRoute(c.reg, Immutable(req.device.derivedId))) &&
    (|c.reg.clients| < 2048 || Oldest(c.reg.clients, victim, now))
  }

  /** `t` is `c` with the new client, which is unapproved and bears exactly what it asked for;
      at the limit the victim goes, and everything it holds. */
  ghost predicate Registered(c: State, t: State, now: int, id: string, req: Registration, victim: string) {
    t.web == c.web && t.switches == c.switches && t.reg == c.reg.(clients := t.reg.clients) && id in t.reg.clients &&
    t.reg.clients[id] == Client(id, req.redirects, req.announcesName, if req.device.Key? then req.device.derivedId else "",
                                req.device, req.device.Key?, now, false) &&
    if |c.reg.clients| < 2048 then t.reg.clients - {id} == c.reg.clients - {id} && t.grants == c.grants
    else t.reg.clients - {id} == c.reg.clients - {victim, id} && WithoutClient(c.grants, t.grants, victim)
  }

  /** Registration takes place exactly while it is switched on and the file is not in doubt, for a
      device that is not retired, and below the limit or by evicting an oldest unapproved client. */
  lemma RegisterExactly(s: State, cfg: Config, fault: bool, now: int, id: string, req: Registration, victim: string)
    ensures var e, c := Effects(s, cfg, fault, now, Register(id, req, victim)), Cleanup(s, now);
            (e.Commit? <==> MayRegister(c, fault, now, req, victim)) &&
            if e.Commit? then !e.recovery && e.onFailure == c && Registered(c, e.attempt, now, id, req, victim)
            else e.next == if fault || !s.switches.dcr then s else c
  {
    var c := Cleanup(s, now);
    CleanedKill1(s, now);
    hide Cleanup, MayRegister, Registered, AddClient;
    if !fault && s.switches.dcr {
      AddsExactly(c, now, id, req, victim);
    }
    NotRegistered(c, fault, now, req, victim);
  }

  lemma CleanedKill1(s: State, now: int)
    ensures Cleanup(s, now).switches == s.switches
  {
    hide CleanGrants, LiveSessions, LiveInvites, FreshClients;
  }

  lemma NotRegistered(c: State, fault: bool, now: int, req: Registration, victim: string)
    ensures fault || !c.switches.dcr ==> !MayRegister(c, fault, now, req, victim)
  {
  }

  lemma AddsExactly(c: State, now: int, id: string, req: Registration, victim: string)
    requires c.switches.dcr
    ensures var e := AddClient(c, now, id, req, victim);
            (e.Commit? <==> MayRegister(c, false, now, req, victim)) &&
            if e.Commit? then !e.recovery && e.onFailure == c && Registered(c, e.attempt, now, id, req, victim) else e.next == c
  {
    AddsWhen(c, now, id, req, victim);
    hide MayRegister;
    if AddClient(c, now, id, req, victim).Commit? {
      AddsWhat(c, now, id, req, victim);
      hide Registered;
    }
  }

  lemma AddsWhen(c: State, now: int, id: string, req: Registration, victim: string)
    requires c.switches.dcr
    ensures AddClient(c, now, id, req, victim).Commit? <==> MayRegister(c, false, now, req, victim)
  {
    hide RevokeClients, NewClient;
  }

  lemma Replaced<V>(m: map<string, V>, k: string, v: V)
    ensures m[k := v] - {k} == m - {k}
  {
  }

  lemma AddsWhat(c: State, now: int, id: string, req: Registration, victim: string)
    requires AddClient(c, now, id, req, victim).Commit?
    ensures Registered(c, AddClient(c, now, id, req, victim).attempt, now, id, req, victim)
  {
    var kept := if |c.reg.clients| >= MAX_CLIENTS then RevokeClients(c, {victim}) else c;
    ClientGone(c, victim);
    hide RevokeClients, WithoutClient, Evictable, Registered;
    Added(c, kept, now, id, req, victim);
  }

  lemma Added(c: State, kept: State, now: int, id: string, req: Registration, victim: string)
    requires if |c.reg.clients| < 2048 then kept == c
             else WithoutClient(c.grants, kept.grants, victim) && kept == c.(grants := kept.grants, reg := c.reg.(clients := c.reg.clients - {victim}))
    ensures Registered(c, kept.(reg := kept.reg.(clients := kept.reg.clients[id := NewClient(id, req, now)])), now, id, req, victim)
  {
    Replaced(kept.reg.clients, id, NewClient(id, req, now));
    hide WithoutClient;
    assert (c.reg.clients - {victim}) - {id} == c.reg.clients - {victim, id};
  }

  lemma ClientGone(s: State, c: string)
    ensures var t := RevokeClients(s, {c});
            WithoutClient(s.grants, t.grants, c) && t == s.(grants := t.grants, reg := s.reg.(clients := s.reg.clients - {c}))
  {
  }

  /** `b` is `a` without what names the client. */
  ghost predicate WithoutClient(a: Grants, b: Grants, c: string) {
    (forall k :: k in b.access <==> k in a.access && a.access[k].client != c) &&
    (forall k :: k in b.refresh <==> k in a.refresh && a.refresh[k].client != c) &&
    (forall k :: k in b.refreshUsed <==> k in a.refreshUsed && a.refreshUsed[k].client != c) &&
    (forall k :: k in b.pending <==> k in a.pending && a.pending[k].client != c) &&
    (forall k :: k in b.codes <==> k in a.codes && a.codes[k].grant.client != c) && SubGrants(b, a)
  }

  // ------------------------------------------------------------------- asking

  /** Exactly when an authorization may be asked for. */
  ghost predicate MayBegin(c: State, cfg: Config, a: AuthRequest) {
    |c.grants.pending| < 1024 && |(set k | k in c.grants.pending && c.grants.pending[k].ip == a.ip)| < 8 &&
    a.client != "" && a.client in c.reg.clients && c.reg.clients[a.client].id == a.client && a.redirect in c.reg.clients[a.client].redirects &&
    var client := c.reg.clients[a.client];
    if DeviceClient(client) then WholeIdentity(c.reg, client) && a.resource == Agent(Immutable(client.deviceId)) && a.proved
    else a.resource.Agent? ==> cfg.allowLegacyUnboundAgents
  }

  /** Asking enters a request exactly when there is room for one, overall and from its address, for
      a client that is known at that redirect and, if it stands for a device, has proved over
      exactly these parameters that it holds the device's key and asks for that device only. The
      entry is what was asked, by nobody yet, for ten minutes; nothing else but clean-up happens. */
  lemma BeginExactly(s: State, cfg: Config, fault: bool, now: int, request: string, a: AuthRequest)
    requires request !in s.grants.pending
    ensures var e, c := Effects(s, cfg, fault, now, Begin(request, a)), Cleanup(s, now);
            e.Quiet? && (request in e.next.grants.pending <==> MayBegin(c, cfg, a)) &&
            e.next == c.(grants := c.grants.(pending := e.next.grants.pending)) && e.next.grants.pending - {request} == c.grants.pending &&
            (request in e.next.grants.pending ==>
               e.next.grants.pending[request] == Pending(a.client, a.redirect, a.scope, a.resource, a.challenge, a.ip, now + 600, 0, ""))
  {
    var c := Cleanup(s, now);
    FewerRequests(s, now);
    hide Cleanup, MayBegin, MayAskFor;
    AskedExactly(c, cfg, a);
  }

  lemma FewerRequests(s: State, now: int)
    ensures Cleanup(s, now).grants.pending.Keys <= s.grants.pending.Keys
  {
    hide LiveTokens, LiveCodes, LiveSessions, LiveInvites, FreshClients;
  }

  lemma AskedExactly(c: State, cfg: Config, a: AuthRequest)
    ensures MayBegin(c, cfg, a) <==> MayAskFor(c.reg, cfg, a) && |c.grants.pending| < MAX_PENDING &&
                                     |(set k | k in c.grants.pending && c.grants.pending[k].ip == a.ip)| < MAX_PENDING_IP
  {
    if a.client in c.reg.clients {
      IdentityIsWhole(c.reg, a);
    }
    hide ValidateDeviceKey, WholeIdentity;
  }

  lemma IdentityIsWhole(reg: Registry, a: AuthRequest)
    requires a.client in reg.clients
    ensures var c := reg.clients[a.client];
            WholeIdentity(reg, c) <==> c.keyVerified && c.deviceId != "" && c.deviceKey != NoKey &&
                                       ValidateDeviceKey(reg, a.client, Agent(Immutable(c.deviceId))).Success?
  {
  }

  // ---------------------------------------------------------------- approving

  /** The client may stand for the immutable route: one without a key only if the route is claimed
      and no key is recorded for it; one with a key only if it is that route's, proved, and no
      other is recorded. */
  predicate KeyFits(reg: Registry, c: string, id: string) {
    var client := if c in reg.clients then reg.clients[c] else NoClient;
    var r := Immutable(id);
    var key := if r in reg.records then reg.records[r].key else NoKey;
    if client.deviceKey == NoKey then r in reg.devices && reg.devices[r] != "" && key == NoKey
    else client.keyVerified && client.deviceId == id && client.deviceKey.derivedId == id && (key == NoKey || key == client.deviceKey)
  }

  /** The account may let its clients use the route: it owns it or, for an Agent, may claim it,
      which nobody does above sixteen routes or, on a public instance, by name. */
  predicate RouteFits(s: State, u: string, resource: Resource)
    requires HasDevice(resource)
  {
    var r := resource.device;
    var owner := if r in s.reg.devices then s.reg.devices[r] else "";
    RouteOpen(s.reg, r) && (r in s.reg.records && s.reg.records[r].owner != "" ==> s.reg.records[r].owner == owner) &&
    if resource.Agent? && owner == "" then (s.switches.mode.Private? || r.Immutable?) && |(set q | q in s.reg.devices && s.reg.devices[q] == u)| < 16
    else owner == u
  }

  /** Exactly when an account may authorize a client for a resource. */
  predicate MayAuthorize(s: State, fault: bool, u: string, c: string, resource: Resource) {
    u in s.reg.users && s.reg.users[u].id != "" && !s.reg.users[u].disabled && !fault && !s.switches.kill &&
    (if resource.Agent? then s.switches.agent else s.switches.mcp) &&
    (resource.Agent? && resource.device.Immutable? ==> KeyFits(s.reg, c, resource.device.id)) && (HasDevice(resource) ==> RouteFits(s, u, resource))
  }

  /** What authorizing does to the registry: nothing, except for an Agent that the account owns the
      route from now on, and that the client's key, if it has one, is bound to it. */
  ghost predicate Authorized(a: Registry, b: Registry, u: string, c: string, resource: Resource) {
    b == a.(devices := b.devices, records := b.records) &&
    if !resource.Agent? then b == a
    else
      var r := resource.device;
      var key := if c in a.clients && r.Immutable? then a.clients[c].deviceKey else NoKey;
      b.devices == a.devices[r := u] && b.records - {r} == a.records - {r} &&
      (r in a.devices && a.devices[r] != "" && key == NoKey ==> b == a) &&
      (!(r in a.devices && a.devices[r] != "" && key == NoKey) ==>
         r in b.records && b.records[r].owner == u && !b.records[r].disabled &&
         b.records[r].key == if key != NoKey then key else if r in a.records then a.records[r].key else NoKey)
  }

  lemma KeyChecked(reg: Registry, c: string, resource: Resource)
    ensures ValidateDeviceKey(reg, c, resource).Success? <==> (resource.Agent? && resource.device.Immutable? ==> KeyFits(reg, c, resource.device.id))
    ensures var k := ValidateDeviceKey(reg, c, resource);
            k.Success? ==> k.value == if resource.Agent? && resource.device.Immutable? && c in reg.clients then reg.clients[c].deviceKey else NoKey
  {
  }

  lemma AuthorizedWhen(s: State, fault: bool, u: string, c: string, resource: Resource)
    ensures AuthorizeResource(s, fault, u, c, resource).Success? <==> MayAuthorize(s, fault, u, c, resource)
  {
    KeyChecked(s.reg, c, resource);
    hide ValidateDeviceKey, KeyFits, BindKey, EnsureRecord;
  }

  lemma AuthorizedWhat(s: State, fault: bool, u: string, c: string, resource: Resource)
    requires MayAuthorize(s, fault, u, c, resource) && AuthorizeResource(s, fault, u, c, resource).Success?
    ensures Authorized(s.reg, AuthorizeResource(s, fault, u, c, resource).value, u, c, resource)
  {
    KeyChecked(s.reg, c, resource);
    hide ValidateDeviceKey, KeyFits, RouteFits, RoutesOf;
  }

  /** Exactly when an account may approve a request: it is pending and in time, its client is still
      known at its redirect, and the account may authorize that client for what was asked. */
  predicate MayAllow(s: State, fault: bool, now: int, request: string, u: string) {
    Standing(s, now, request) && MayAuthorize(s, fault, u, s.grants.pending[request].client, s.grants.pending[request].resource)
  }

  predicate InTime(s: State, now: int, request: string) {
    request in s.grants.pending && now <= s.grants.pending[request].expires
  }

  predicate Standing(s: State, now: int, request: string) {
    InTime(s, now, request) &&
    var p := s.grants.pending[request];
    p.client != "" && p.client in s.reg.clients && s.reg.clients[p.client].id == p.client && p.redirect in s.reg.clients[p.client].redirects
  }

  /** A client that announces its device's name gets the route a record, if it had none. */
  ghost predicate Noted(a: Registry, b: Registry, u: string, c: Client, resource: Resource) {
    b == a.(records := b.records) &&
    if resource.Agent? && c.announcesName then
      var r := resource.device;
      var was := if r in a.records then a.records[r] else NoRecord;
      b.records - {r} == a.records - {r} && r in b.records && b.records[r].key == was.key &&
      b.records[r].owner == (if was.owner == "" then u else was.owner) && (b.records[r].disabled <==> was.disabled || On(a.disabled, r))
    else b == a
  }

  /** What approving does: the request becomes one code for the account, good for five minutes, the
      client is approved, and the resource is authorized. */
  ghost predicate Approves(s: State, t: State, now: int, request: string, u: string, code: string)
    requires request in s.grants.pending && s.grants.pending[request].client in s.reg.clients
  {
    var p := s.grants.pending[request];
    var client := s.reg.clients[p.client];
    t.web == s.web && t.switches == s.switches &&
    t.grants == s.grants.(pending := s.grants.pending - {request}, codes := s.grants.codes[code := Code(p.(user := u), now + 300)]) &&
    t.reg.clients == s.reg.clients[p.client := client.(approved := true)] &&
    exists mid :: Authorized(s.reg, mid, u, p.client, p.resource) && Noted(mid, t.reg.(clients := mid.clients), u, client, p.resource)
  }

  lemma CommittedExactly(s: State, fault: bool, now: int, request: string, u: string, code: string)
    ensures CommitAuthorization(s, fault, now, request, u, code).Success? <==> MayAllow(s, fault, now, request, u)
    ensures var r := CommitAuthorization(s, fault, now, request, u, code);
            r.Failure? ==> (r.error.ClientInvalid? <==> InTime(s, now, request) && !Standing(s, now, request))
    ensures MayAllow(s, fault, now, request, u) ==> Approves(s, CommitAuthorization(s, fault, now, request, u, code).value, now, request, u, code)
  {
    if Standing(s, now, request) {
      var p := s.grants.pending[request];
      AuthorizedWhen(s, fault, u, p.client, p.resource);
      if MayAuthorize(s, fault, u, p.client, p.resource) {
        AuthorizedWhat(s, fault, u, p.client, p.resource);
        ApprovedWhat(s, fault, now, request, u, code);
      } else {
        NoAuthorization(s, fault, u, p.client, p.resource);
      }
    }
    hide AuthorizeResource, MayAuthorize, Approves, EnsureRecord;
  }

  lemma NoAuthorization(s: State, fault: bool, u: string, c: string, resource: Resource)
    ensures var r := AuthorizeResource(s, fault, u, c, resource); r.Failure? ==> r.error.Refused?
  {
    hide EnsureRecord, DeviceOn;
  }

  lemma ApprovedWhat(s: State, fault: bool, now: int, request: string, u: string, code: string)
    requires Standing(s, now, request)
    requires var p := s.grants.pending[request]; var r := AuthorizeResource(s, fault, u, p.client, p.resource);
             r.Success? && Authorized(s.reg, r.value, u, p.client, p.resource)
    ensures var r := CommitAuthorization(s, fault, now, request, u, code); r.Success? && Approves(s, r.value, now, request, u, code)
  {
    var p := s.grants.pending[request];
    var mid := AuthorizeResource(s, fault, u, p.client, p.resource).value;
    var t := CommitAuthorization(s, fault, now, request, u, code).value;
    hide AuthorizeResource;
    assert mid.clients == s.reg.clients;
    assert Noted(mid, t.reg.(clients := mid.clients), u, s.reg.clients[p.client], p.resource);
  }

  /** Approval succeeds exactly when it may; a request whose client is no longer what it was is
      dropped, whether or not that can be saved, and anything else leaves all as it was. */
  lemma AllowExactly(s: State, cfg: Config, fault: bool, now: int, request: string, u: string, code: string)
    ensures var e := Effects(s, cfg, fault, now, Allow(request, u, code));
            if MayAllow(s, fault, now, request, u) then e.Commit? && !e.recovery && e.onFailure == s && Approves(s, e.attempt, now, request, u, code)
            else if InTime(s, now, request) && !Standing(s, now, request) then
              var t := s.(grants := s.grants.(pending := s.grants.pending - {request})); e == Commit(t, t, false)
            else e == Quiet(s)
  {
    CommittedExactly(s, fault, now, request, u, code);
    hide CommitAuthorization, MayAllow, Approves, InTime, Standing;
  }

  // ------------------------------------------------------------------ joining

  /** The invitation is there, in time, and has a use left. */
  predicate Invited(s: State, invite: string, now: int) {
    invite in s.web.invites && now < s.web.invites[invite].expires && s.web.invites[invite].uses > 0
  }

  /** Exactly when a new account may be registered: on a public instance past its setup, under a
      valid and unused name, with room for it, while registration is open or with a good invitation. */
  predicate MayEnroll(s: State, now: int, user: User, invite: string) {
    s.switches.mode.Public? && !s.switches.awaitingSetup && (s.switches.registration || Invited(s, invite, now)) &&
    user.id != "" && user.passwordHash != "" && |s.reg.users| < 4096 &&
    NormalizeUsername(user.username).Some? && NormalizeUsername(user.username).value !in s.reg.usernames
  }

  /** The state with the account, and one use of the invitation gone unless registration is open. */
  function Enrolling(s: State, user: User, invite: string): State
    requires NormalizeUsername(user.username).Some?
  {
    var reg := s.reg.(users := s.reg.users[user.id := user], usernames := s.reg.usernames[NormalizeUsername(user.username).value := user.id]);
    var invites :=
      if s.switches.registration || invite !in s.web.invites then s.web.invites
      else if s.web.invites[invite].uses == 1 then s.web.invites - {invite}
      else s.web.invites[invite := Invite(s.web.invites[invite].expires, s.web.invites[invite].uses - 1)];
    s.(reg := reg, web := s.web.(invites := invites))
  }

  lemma ConsumedExactly(s: State, invite: string, now: int)
    ensures var w := ConsumeInvite(s, invite, now);
            w.Some? <==> s.switches.mode.Public? && (s.switches.registration || Invited(s, invite, now))
    ensures var w := ConsumeInvite(s, invite, now);
            w.Some? ==> w.value == s.web.(invites :=
              if s.switches.registration || invite !in s.web.invites then s.web.invites
              else if s.web.invites[invite].uses == 1 then s.web.invites - {invite}
              else s.web.invites[invite := Invite(s.web.invites[invite].expires, s.web.invites[invite].uses - 1)])
  {
  }

  /** Joining registers the account, uses up one use of its invitation, approves the request for it
      and signs it in for thirty days, all together, exactly when it may be registered and may
      approve the request; otherwise it leaves all as it was, but for a request whose client is gone. */
  lemma JoinExactly(s: State, cfg: Config, fault: bool, now: int, request: string, user: User, invite: string, code: string, session: string)
    ensures var e := Effects(s, cfg, fault, now, Join(request, user, invite, code, session));
            if MayEnroll(s, now, user, invite) && MayAllow(Enrolling(s, user, invite), fault, now, request, user.id) then
              var j := Enrolling(s, user, invite);
              e.Commit? && !e.recovery && e.onFailure == s &&
              e.attempt.web == j.web.(sessions := j.web.sessions[session := Session(user.id, now + 2592000, now)]) &&
              Approves(j, e.attempt.(web := j.web), now, request, user.id, code)
            else if MayEnroll(s, now, user, invite) && InTime(s, now, request) && !Standing(s, now, request) then
              var t := s.(grants := s.grants.(pending := s.grants.pending - {request})); e == Commit(t, t, false)
            else e == Quiet(s)
  {
    hide NormalizeUsername, MayAllow, Approves, CommitAuthorization, ConsumeInvite;
    ConsumedExactly(s, invite, now);
    OpenOrInvited(s, invite, now);
    if MayEnroll(s, now, user, invite) {
      var j := Enrolling(s, user, invite);
      CommittedExactly(j, fault, now, request, user.id, code);
      SameStanding(s, j, now, request);
      JoinedWhat(s, fault, now, request, user, invite, code, session);
      if MayAllow(j, fault, now, request, user.id) {
        var t := CommitAuthorization(j, fault, now, request, user.id, code).value;
        assert request in j.grants.pending && j.grants.pending[request].client in j.reg.clients by { AllowedStands(j, fault, now, request, user.id); }
        SameWeb(j, t, now, request, user.id, code);
        assert t.(web := t.web.(sessions := t.web.sessions[session := Session(user.id, now + 2592000, now)])).(web := j.web) == t;
      }
    } else {
      NotJoined(s, fault, now, request, user, invite, code, session);
    }
    hide RegisterAndGrant, MayEnroll, Enrolling, InTime, Standing;
  }

  lemma AllowedStands(s: State, fault: bool, now: int, request: string, u: string)
    requires MayAllow(s, fault, now, request, u)
    ensures request in s.grants.pending && s.grants.pending[request].client in s.reg.clients
  {
  }

  lemma SameWeb(s: State, t: State, now: int, request: string, u: string, code: string)
    requires request in s.grants.pending && s.grants.pending[request].client in s.reg.clients && Approves(s, t, now, request, u, code)
    ensures t.web == s.web
  {
  }

  lemma OpenOrInvited(s: State, invite: string, now: int)
    ensures Invited(s, invite, now) ==> InvitesOpen(s.web, now)
  {
  }

  lemma SameStanding(s: State, j: State, now: int, request: string)
    requires j.grants == s.grants && j.reg.clients == s.reg.clients
    ensures InTime(j, now, request) == InTime(s, now, request) && Standing(j, now, request) == Standing(s, now, request)
  {
  }

  lemma NotJoined(s: State, fault: bool, now: int, request: string, user: User, invite: string, code: string, session: string)
    requires !MayEnroll(s, now, user, invite)
    ensures RegisterAndGrant(s, fault, now, request, user, invite, code, session) == Quiet(s)
  {
    hide NormalizeUsername, CommitAuthorization, ConsumeInvite, InvitesOpen;
    ConsumedExactly(s, invite, now);
  }

  lemma JoinedWhat(s: State, fault: bool, now: int, request: string, user: User, invite: string, code: string, session: string)
    requires MayEnroll(s, now, user, invite)
    ensures var e, r := RegisterAndGrant(s, fault, now, request, user, invite, code, session),
                        CommitAuthorization(Enrolling(s, user, invite), fault, now, request, user.id, code);
            if r.Success? then
              e == Commit(r.value.(web := r.value.web.(sessions := r.value.web.sessions[session := Session(user.id, now + 2592000, now)])), s, false)
            else e == RefuseAuthorization(s, request, r.error)
  {
    hide NormalizeUsername, CommitAuthorization, ConsumeInvite;
    ConsumedExactly(s, invite, now);
    OpenOrInvited(s, invite, now);
  }

  // ------------------------------------------------------------------- tokens

  /** A verifier fits its challenge exactly when it is that verifier, 43 to 128 unreserved characters long. */
  lemma PkceExactly(verifier: string, challenge: string)
    ensures PkceMatches(verifier, challenge) <==>
              verifier == challenge && 43 <= |verifier| <= 128 &&
              forall c :: c in verifier ==> 'a' <= c <= 'z' || 'A' <= c <= 'Z' || '0' <= c <= '9' || c == '-' || c == '.' || c == '_' || c == '~'
  {
  }

  /** What is issued for a code lasts an hour and thirty days from then, and a rotation gives its
      successors the same anew, while the rotated token keeps its own expiry. */
  lemma LifetimesExactly(s: State, cfg: Config, fault: bool, now: int, q: CodeRequest, r: RefreshRequest, f: Fresh)
    ensures var e := Effects(s, cfg, fault, now, Redeem(q, f));
            e.Commit? ==> f.access in e.attempt.grants.access && e.attempt.grants.access[f.access].expires == now + 3600 &&
                          f.refresh in e.attempt.grants.refresh && e.attempt.grants.refresh[f.refresh].expires == now + 2592000
    ensures var e := Effects(s, cfg, fault, now, Rotate(r, f));
            Rotatable(s, fault, now, r) ==>
              e.Commit? && f.access in e.attempt.grants.access && e.attempt.grants.access[f.access].expires == now + 3600 &&
              f.refresh in e.attempt.grants.refresh && e.attempt.grants.refresh[f.refresh].expires == now + 2592000 &&
              r.key in e.attempt.grants.refreshUsed && e.attempt.grants.refreshUsed[r.key].expires == s.grants.refresh[r.key].expires
  {
    RotatableCleaned(s, fault, now, r);
    hide Cleanup, Rotatable, CodeBound, OwnedByUser, ApprovedClient, RevokeFamily;
  }

  /** `b` is `a` without the token under the key and, if it has one, its family. */
  ghost predicate WithoutToken(a: map<string, Token>, b: map<string, Token>, key: string, family: string) {
    Sub(b, a) && forall k :: k in a ==> (k in b <==> k != key && (family == "" || a[k].family != family))
  }

  /** Revoking takes the presented token and its family and nothing else, whether or not it can be saved. */
  lemma RevokeExactly(s: State, cfg: Config, fault: bool, now: int, key: string)
    ensures var e, g := Effects(s, cfg, fault, now, Revocation(key)), s.grants;
            var family := if key in g.access then g.access[key].family else if key in g.refresh then g.refresh[key].family
                          else if key in g.refreshUsed then g.refreshUsed[key].family else "";
            e.Commit? && !e.recovery && e.onFailure == e.attempt &&
            e.attempt == s.(grants := g.(access := e.attempt.grants.access, refresh := e.attempt.grants.refresh, refreshUsed := e.attempt.grants.refreshUsed)) &&
            WithoutToken(g.access, e.attempt.grants.access, key, family) && WithoutToken(g.refresh, e.attempt.grants.refresh, key, family) &&
            WithoutToken(g.refreshUsed, e.attempt.grants.refreshUsed, key, family)
  {
    RevokedTables(s.grants, key);
    hide WithoutToken, RevokeFamily;
  }

  lemma RevokedTables(g: Grants, key: string)
    ensures var family := FamilyOf(g, key);
            var r := RevokeFamily(g, family);
            r == g.(access := r.access, refresh := r.refresh, refreshUsed := r.refreshUsed) &&
            WithoutToken(g.access, r.access - {key}, key, family) && WithoutToken(g.refresh, r.refresh - {key}, key, family) &&
            WithoutToken(g.refreshUsed, r.refreshUsed - {key}, key, family)
  {
    hide FamilyOf;
  }
}
