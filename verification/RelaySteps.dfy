/** What one request can change in the registry and the switches, seen from outside:
    who owns which route, whose names appear, and whether the global stop is released. */
module RelaySteps {
  import opened Wrappers
  import opened RelayState
  import opened RelayOps
  import opened RelayInvariant
  import opened RelayRequests
  import opened RelaySafety
  import opened RelayTokens
  import Text

  /** Requests that neither admit an account or client nor touch a device. */
  predicate Bystander(q: Request) {
    !q.Register? && !q.Allow? && !q.Join? && !q.FirstRun? && !q.Own? && !q.NewPassword? && !q.Manage?
  }

  lemma CleanupBystands(s: State, now: int)
    ensures Cleanup(s, now).switches == s.switches && Sub(Cleanup(s, now).grants.codes, s.grants.codes)
  {
    CleanupShrinks(s.reg, s.grants, now);
  }

  lemma BystanderExchange(s: State, cfg: Config, fault: bool, now: int, q: Request, t: State)
    requires IsExchange(q) && Outcome(Effects(s, cfg, fault, now, q), t)
    ensures t.reg == Cleanup(s, now).reg && t.switches == Cleanup(s, now).switches
    ensures Sub(t.grants.codes, Cleanup(s, now).grants.codes)
  {
    hide Cleanup, RevokeFamily, OwnedByUser, CodeBound, Presents, Replays, ApprovedClient;
  }

  lemma BystanderCleanup(s: State, cfg: Config, fault: bool, now: int, q: Request, t: State)
    requires (q.Verify? || q.Touch? || q.Begin? || q.IssueInvite?) && Outcome(Effects(s, cfg, fault, now, q), t)
    ensures t.reg == s.reg || t.reg == Cleanup(s, now).reg
    ensures t.switches == s.switches && Sub(t.grants.codes, s.grants.codes)
  {
    CleanupBystands(s, now);
    hide Cleanup, MayAskFor, LiveAdmin;
  }

  lemma BystanderOther(s: State, cfg: Config, fault: bool, now: int, q: Request, t: State)
    requires q.Audit? || q.Fail? || q.Deny? || q.Revocation? || q.Login? || q.Logout? || q.Reauth?
    requires Outcome(Effects(s, cfg, fault, now, q), t)
    ensures t.reg == s.reg && t.switches == s.switches && Sub(t.grants.codes, s.grants.codes)
  {
    hide LiveAdmin, WithoutFamily, FamilyOf;
  }

  lemma BystandersRegistry(s: State, cfg: Config, fault: bool, now: int, q: Request, t: State)
    requires Bystander(q) && Outcome(Effects(s, cfg, fault, now, q), t)
    ensures t.reg == s.reg || t.reg == Cleanup(s, now).reg
    ensures t.switches == s.switches && Sub(t.grants.codes, s.grants.codes)
  {
    CleanupBystands(s, now);
    hide Cleanup, Effects, Outcome;
    match q {
      case Redeem(_, _) => BystanderExchange(s, cfg, fault, now, q, t);
      case Rotate(_, _) => BystanderExchange(s, cfg, fault, now, q, t);
      case Verify => BystanderCleanup(s, cfg, fault, now, q, t);
      case Touch => BystanderCleanup(s, cfg, fault, now, q, t);
      case Begin(_, _) => BystanderCleanup(s, cfg, fault, now, q, t);
      case IssueInvite(_, _) => BystanderCleanup(s, cfg, fault, now, q, t);
      case _ => BystanderOther(s, cfg, fault, now, q, t);
    }
  }

  // --------------------------------------------------------------- life cycle

  /** Where a route is in its life: nobody's, one account's, or retired. */
  datatype Phase = Unowned | Owned(user: string) | Retired

  function PhaseOf(devices: map<Route, string>, retired: map<Route, bool>, r: Route): Phase {
    if On(retired, r) then Retired else if r in devices then Owned(devices[r]) else Unowned
  }

  /** The only moves there are: claim, retire, or stay. */
  predicate Later(a: Phase, b: Phase) {
    a == b || a.Unowned? || b.Retired?
  }

  /** No route goes back in its life between the two registries. */
  ghost predicate Ages(a: Registry, b: Registry) {
    forall r :: Later(PhaseOf(a.devices, a.retired, r), PhaseOf(b.devices, b.retired, r))
  }

  lemma SameDevicesAge(a: Registry, b: Registry)
    requires a.devices == b.devices && a.retired == b.retired
    ensures Ages(a, b)
  {
  }

  lemma QuotaSame(a: Registry, b: Registry)
    requires WithinQuota(a) && a.devices == b.devices
    ensures WithinQuota(b)
  {
  }

  lemma {:induction false} Smaller<T>(a: set<T>, b: set<T>)
    requires a <= b
    ensures |a| <= |b|
  {
    if x :| x in a {
      Smaller(a - {x}, b - {x});
    }
  }

  lemma QuotaFewer(a: Registry, b: Registry)
    requires WithinQuota(a) && Sub(b.devices, a.devices)
    ensures WithinQuota(b)
  {
    forall u ensures |RoutesOf(b.devices, u)| <= MAX_DEVICES_USER {
      Smaller(RoutesOf(b.devices, u), RoutesOf(a.devices, u));
    }
  }

  lemma QuotaClaim(a: Registry, b: Registry, r: Route, u: string)
    requires WithinQuota(a) && r !in a.devices && b.devices == a.devices[r := u] && |RoutesOf(a.devices, u)| < MAX_DEVICES_USER
    ensures WithinQuota(b)
  {
    forall v ensures |RoutesOf(b.devices, v)| <= MAX_DEVICES_USER {
      if v == u {
        assert RoutesOf(b.devices, v) == RoutesOf(a.devices, v) + {r};
      } else {
        assert RoutesOf(b.devices, v) == RoutesOf(a.devices, v);
      }
    }
  }

  lemma AuthorizeAges(s: State, fault: bool, u: string, clientId: string, resource: Resource)
    requires RegistryOk(s.reg) && AuthorizeResource(s, fault, u, clientId, resource).Success?
    ensures var reg := AuthorizeResource(s, fault, u, clientId, resource).value;
            Ages(s.reg, reg) && (WithinQuota(s.reg) ==> WithinQuota(reg))
  {
    hide RegistryOk, AuthorizeResource, WithinQuota, RoutesOf, Owns, DeviceOn;
    AuthorizedOwns(s, fault, u, clientId, resource);
    var reg := AuthorizeResource(s, fault, u, clientId, resource).value;
    if reg.devices == s.reg.devices {
      if WithinQuota(s.reg) { QuotaSame(s.reg, reg); }
    } else {
      if WithinQuota(s.reg) { QuotaClaim(s.reg, reg, resource.device, u); }
    }
  }

  lemma RetireAges(s: State, routes: set<Route>)
    ensures Ages(s.reg, Retire(s, routes).reg) && (WithinQuota(s.reg) ==> WithinQuota(Retire(s, routes).reg))
  {
    var t := Retire(s, routes);
    assert t.reg.devices == s.reg.devices - routes && t.reg.retired == s.reg.retired + (map r | r in routes :: true);
    hide Retire, WithinQuota;
    if WithinQuota(s.reg) { QuotaFewer(s.reg, t.reg); }
  }

  /** A request moves no route backwards, and gives no account more than its quota. */
  ghost predicate Progress(a: Registry, b: Registry) {
    Ages(a, b) && (WithinQuota(a) ==> WithinQuota(b))
  }

  lemma SameProgress(a: Registry, b: Registry)
    requires a.devices == b.devices && a.retired == b.retired
    ensures Progress(a, b)
  {
    hide Ages, WithinQuota;
    SameDevicesAge(a, b);
    if WithinQuota(a) { QuotaSame(a, b); }
  }

  lemma CommitProgress(s: State, fault: bool, now: int, request: string, u: string, code: string)
    requires RegistryOk(s.reg) && CommitAuthorization(s, fault, now, request, u, code).Success?
    ensures Progress(s.reg, CommitAuthorization(s, fault, now, request, u, code).value.reg)
  {
    hide RegistryOk, AuthorizeResource, WithinQuota, Ages, EnsureRecord;
    var p := s.grants.pending[request];
    AuthorizeAges(s, fault, u, p.client, p.resource);
    var t := CommitAuthorization(s, fault, now, request, u, code).value;
    var reg := AuthorizeResource(s, fault, u, p.client, p.resource).value;
    SameProgress(reg, t.reg);
    AgesTransitive(s.reg, reg, t.reg);
  }

  lemma AgesTransitive(a: Registry, b: Registry, c: Registry)
    requires Ages(a, b) && Ages(b, c)
    ensures Ages(a, c)
  {
    forall r ensures Later(PhaseOf(a.devices, a.retired, r), PhaseOf(c.devices, c.retired, r)) {
      assert Later(PhaseOf(a.devices, a.retired, r), PhaseOf(b.devices, b.retired, r));
      assert Later(PhaseOf(b.devices, b.retired, r), PhaseOf(c.devices, c.retired, r));
    }
  }

  lemma AdminProgress(s: State, cfg: Config, current: User, a: AdminAction)
    requires AdminChange(s, cfg, current, a).Some?
    ensures Progress(s.reg, AdminChange(s, cfg, current, a).value.reg)
  {
    hide Progress, RevokeUser, Retire, RemoveUser, LeftBehind, SetDisabled, CreateUser, RevokeClients, RevokeFamily, DropSessions, EnsureRecord;
    var t := AdminChange(s, cfg, current, a).value;
    if a.DeleteUser? {
      DeletionProgress(s, a.user);
    } else if a.RevokeDevice? {
      RetireProgress(s, {a.route});
    } else {
      hide AdminChange;
      AdminKeepsDevices(s, cfg, current, a);
      SameProgress(s.reg, t.reg);
    }
  }

  lemma DeletionProgress(s: State, u: string)
    ensures Progress(s.reg, RevokeUser(Retire(s.(reg := RemoveUser(s.reg, u)), LeftBehind(s.reg, u)), u).reg)
  {
    var gone := s.(reg := RemoveUser(s.reg, u));
    var left := Retire(gone, LeftBehind(s.reg, u));
    assert gone.reg.devices == s.reg.devices && gone.reg.retired == s.reg.retired;
    hide Progress, Retire, RevokeUser, RemoveUser, LeftBehind;
    RevokeUserShape(left, u);
    RetireProgress(s, LeftBehind(s.reg, u));
    RetireRegistry(s, gone, LeftBehind(s.reg, u));
    ProgressSame(s.reg, Retire(s, LeftBehind(s.reg, u)).reg, left.reg);
  }

  lemma RevokeUserShape(s: State, u: string)
    ensures var t := RevokeUser(s, u); t.reg == s.reg && t.switches == s.switches && Sub(t.grants.codes, s.grants.codes)
  {
  }

  lemma SetDisabledShape(s: State, r: Route, off: bool, owner: string)
    ensures var t := SetDisabled(s, r, off, owner); t.reg.devices == s.reg.devices && t.reg.retired == s.reg.retired
  {
    hide EnsureRecord, RevokeRoutes;
  }

  lemma AdminKeepsDevices(s: State, cfg: Config, current: User, a: AdminAction)
    requires AdminChange(s, cfg, current, a).Some? && !a.DeleteUser? && !a.RevokeDevice?
    ensures var reg := AdminChange(s, cfg, current, a).value.reg; reg.devices == s.reg.devices && reg.retired == s.reg.retired
  {
    hide RevokeUser, RevokeClients, SetDisabled, CreateUser, RevokeFamily, DropSessions, EnsureRecord, Retire;
    match a {
      case RotatePassword(u, hash) =>
        RevokeUserShape(s.(reg := s.reg.(users := s.reg.users[u := s.reg.users[u].(passwordHash := hash.value)])), u);
      case DisableUser(u, _) =>
        RevokeUserShape(s.(reg := s.reg.(users := s.reg.users[u := s.reg.users[u].(disabled := true)])), u);
      case CreateAccount(username, hash, id) => CreateUserShape(s.reg, username, hash, id, false);
      case DisableDevice(r, toggle) => SetDisabledShape(s, r, toggle.value, s.reg.devices[r]);
      case RevokeClientAction(c) => RevokeClientsShape(s, {c});
      case _ =>
    }
  }

  lemma RetireProgress(s: State, routes: set<Route>)
    ensures Progress(s.reg, Retire(s, routes).reg)
  {
    hide Retire, WithinQuota, Ages;
    RetireAges(s, routes);
  }

  lemma RetireRegistry(s: State, t: State, routes: set<Route>)
    requires s.reg.devices == t.reg.devices && s.reg.retired == t.reg.retired
    ensures Retire(s, routes).reg.devices == Retire(t, routes).reg.devices && Retire(s, routes).reg.retired == Retire(t, routes).reg.retired
  {
  }

  lemma ProgressSame(a: Registry, b: Registry, c: Registry)
    requires Progress(a, b) && b.devices == c.devices && b.retired == c.retired
    ensures Progress(a, c)
  {
    hide Ages, WithinQuota;
    SameProgress(b, c);
    AgesTransitive(a, b, c);
  }

  lemma AccountProgress(s: State, current: User, a: AccountAction)
    requires AccountChange(s, current, a).Some?
    ensures Progress(s.reg, AccountChange(s, current, a).value.reg)
  {
    hide Progress, Retire, RevokeFamily, EnsureRecord, OwnsFamily, RevokeRoutes, LiveUser;
    var t := AccountChange(s, current, a).value;
    match a {
      case OwnRevoke(r) => RetireProgress(s, {r});
      case _ => SameProgress(s.reg, t.reg);
    }
  }

  lemma RevokeClientsShape(s: State, ids: set<string>)
    ensures var t := RevokeClients(s, ids);
            t.reg == s.reg.(clients := s.reg.clients - ids) && t.switches == s.switches && Sub(t.grants.codes, s.grants.codes)
  {
  }

  function WithClient(s: State, id: string, client: Client): State {
    s.(reg := s.reg.(clients := s.reg.clients[id := client]))
  }

  lemma AddClientCases(c: State, now: int, id: string, req: Registration, victim: string, t: State)
    requires Outcome(AddClient(c, now, id, req, victim), t)
    ensures t == c || t == WithClient(c, id, NewClient(id, req, now)) || t == WithClient(RevokeClients(c, {victim}), id, NewClient(id, req, now))
  {
    hide Evictable, RevokeClients, NewClient;
  }

  lemma AddClientShape(c: State, now: int, id: string, req: Registration, victim: string, t: State)
    requires Outcome(AddClient(c, now, id, req, victim), t)
    ensures t.reg == c.reg.(clients := t.reg.clients) && t.switches == c.switches && Sub(t.grants.codes, c.grants.codes)
    ensures t.reg.clients.Keys <= c.reg.clients.Keys + {id}
  {
    hide AddClient, RevokeClients, NewClient, Outcome;
    AddClientCases(c, now, id, req, victim, t);
    RevokeClientsShape(c, {victim});
  }

  lemma AddClientProgress(c: State, now: int, id: string, req: Registration, victim: string, t: State)
    requires Outcome(AddClient(c, now, id, req, victim), t)
    ensures Progress(c.reg, t.reg) && t.switches == c.switches && Sub(t.grants.codes, c.grants.codes)
    ensures t.reg.users == c.reg.users && t.reg.clients.Keys <= c.reg.clients.Keys + {id}
  {
    hide Progress, AddClient, Outcome;
    AddClientShape(c, now, id, req, victim, t);
    SameProgress(c.reg, t.reg);
  }

  lemma CleanupSame(s: State, now: int)
    ensures var c := Cleanup(s, now);
            Progress(s.reg, c.reg) && c.reg.users == s.reg.users && c.reg.clients.Keys <= s.reg.clients.Keys
    ensures Cleanup(s, now).reg.devices == s.reg.devices && Cleanup(s, now).reg.retired == s.reg.retired
  {
    hide Progress, CleanGrants, LiveSessions, LiveInvites;
    SameProgress(s.reg, Cleanup(s, now).reg);
  }

  // ------------------------------------------------- one request, from outside

  /** What a request may have done: routes only move forward; accounts, clients and
      codes that appear bear the names the request drew; a new code stands for the
      pending request that was granted. */
  ghost predicate Effected(s: State, t: State, q: Request) {
    Progress(s.reg, t.reg) &&
    t.reg.clients.Keys <= s.reg.clients.Keys + Names(q) && t.reg.users.Keys <= s.reg.users.Keys + Names(q) &&
    forall k :: k in t.grants.codes ==>
      (k in s.grants.codes && t.grants.codes[k] == s.grants.codes[k]) || Granted(s, q, k, t.grants.codes[k])
  }

  /** The code `k` is what the request made of the authorization the user confirmed. */
  predicate Granted(s: State, q: Request, k: string, c: Code) {
    (q.Allow? && k == q.code && q.request in s.grants.pending && c.grant == s.grants.pending[q.request].(user := q.user)) ||
    (q.Join? && k == q.code && q.request in s.grants.pending && c.grant == s.grants.pending[q.request].(user := q.account.id))
  }

  lemma BystanderEffected(s: State, cfg: Config, fault: bool, now: int, q: Request, t: State)
    requires Bystander(q) && Outcome(Effects(s, cfg, fault, now, q), t)
    ensures Effected(s, t, q) && t.switches == s.switches
  {
    hide Progress, Cleanup, Effects, Outcome, Granted, Names;
    BystandersRegistry(s, cfg, fault, now, q, t);
    CleanupSame(s, now);
    SameProgress(s.reg, s.reg);
  }

  lemma UnchangedEffected(s: State, t: State, q: Request)
    requires Progress(s.reg, t.reg) && t.reg.clients.Keys <= s.reg.clients.Keys && t.reg.users.Keys <= s.reg.users.Keys
    requires Sub(t.grants.codes, s.grants.codes)
    ensures Effected(s, t, q)
  {
    hide Progress, Names, Granted;
  }

  lemma RegisterEffected(s: State, fault: bool, now: int, id: string, req: Registration, victim: string, t: State)
    requires Outcome(RegisterClient(s, fault, now, id, req, victim), t)
    ensures Effected(s, t, Register(id, req, victim)) && t.switches == s.switches
  {
    var c := Cleanup(s, now);
    hide Progress, Cleanup, AddClient;
    CleanupSame(s, now);
    CleanupBystands(s, now);
    SameProgress(s.reg, s.reg);
    if !fault && s.switches.dcr {
      AddClientProgress(c, now, id, req, victim, t);
      ProgressTransitive(s.reg, c.reg, t.reg);
    }
  }

  lemma ProgressTransitive(a: Registry, b: Registry, c: Registry)
    requires Progress(a, b) && Progress(b, c)
    ensures Progress(a, c)
  {
    hide Ages, WithinQuota;
    AgesTransitive(a, b, c);
  }

  lemma DropPendingSwitches(s: State, request: string)
    ensures DropPending(s, request).switches == s.switches
  {
  }

  lemma DropPendingEffected(s: State, request: string, q: Request)
    ensures Effected(s, DropPending(s, request), q) && Effected(s, s, q)
  {
    hide Progress, Effected;
    SameProgress(s.reg, s.reg);
    UnchangedEffected(s, s, q);
    UnchangedEffected(s, DropPending(s, request), q);
  }

  lemma AllowEffected(s: State, fault: bool, now: int, request: string, u: string, code: string, t: State)
    requires RegistryOk(s.reg) && Outcome(Grant(s, fault, now, request, u, code), t)
    ensures Effected(s, t, Allow(request, u, code)) && t.switches == s.switches
  {
    hide RegistryOk, Progress, AuthorizeResource, EnsureRecord;
    DropPendingEffected(s, request, Allow(request, u, code));
    if CommitAuthorization(s, fault, now, request, u, code).Success? {
      CommitProgress(s, fault, now, request, u, code);
      CommitNames(s, fault, now, request, u, code);
    }
  }

  lemma JoinEffected(s: State, fault: bool, now: int, request: string, user: User, invite: string, code: string, session: string, t: State)
    requires Inv(s) && user.id !in s.reg.users
    requires Outcome(RegisterAndGrant(s, fault, now, request, user, invite, code, session), t)
    ensures Effected(s, t, Join(request, user, invite, code, session)) && t.switches == s.switches
  {
    hide Inv, NormalizeUsername, CommitAuthorization, RegistrationOpen, ConsumeInvite, DropPending, Effected;
    DropPendingEffected(s, request, Join(request, user, invite, code, session));
    DropPendingSwitches(s, request);
    var n := NormalizeUsername(user.username);
    var web := ConsumeInvite(s, invite, now);
    if n.Some? && web.Some? && user.id != "" && n.value !in s.reg.usernames {
      var joined := s.(reg := AddUser(s.reg, user, n.value), web := web.value);
      AddUserKeeps(s, joined, user, n.value);
      if CommitAuthorization(joined, fault, now, request, user.id, code).Success? && t != s {
        JoinedEffected(s, joined, fault, now, request, user, n.value, invite, code, session, t);
      }
    }
  }

  lemma JoinedEffected(s: State, joined: State, fault: bool, now: int, request: string, user: User, n: string,
                       invite: string, code: string, session: string, t: State)
    requires Inv(joined) && joined.reg == AddUser(s.reg, user, n) && joined.grants == s.grants && joined.switches == s.switches
    requires CommitAuthorization(joined, fault, now, request, user.id, code).Success?
    requires var c := CommitAuthorization(joined, fault, now, request, user.id, code).value;
             t.reg == c.reg && t.grants == c.grants && t.switches == c.switches
    ensures Effected(s, t, Join(request, user, invite, code, session)) && t.switches == s.switches
  {
    hide Inv, RegistryOk, CommitAuthorization, Progress, AddUser;
    CommitSwitches(joined, fault, now, request, user.id, code);
    JoinedProgress(s, joined, fault, now, request, user, n, code, t);
    CommitNames(joined, fault, now, request, user.id, code);
    AddUserKeys(s.reg, user, n);
  }

  lemma AddUserKeys(reg: Registry, user: User, n: string)
    ensures var r := AddUser(reg, user, n);
            r == reg.(users := r.users, usernames := r.usernames) && r.users.Keys == reg.users.Keys + {user.id}
  {
  }

  lemma JoinedProgress(s: State, joined: State, fault: bool, now: int, request: string, user: User, n: string, code: string, t: State)
    requires Inv(joined) && joined.reg == AddUser(s.reg, user, n)
    requires CommitAuthorization(joined, fault, now, request, user.id, code).Success?
    requires t.reg == CommitAuthorization(joined, fault, now, request, user.id, code).value.reg
    ensures Progress(s.reg, t.reg)
  {
    assert RegistryOk(joined.reg);
    hide Inv, RegistryOk, CommitAuthorization, Progress, AddUser;
    AddUserKeys(s.reg, user, n);
    CommitProgress(joined, fault, now, request, user.id, code);
    SameProgress(s.reg, joined.reg);
    ProgressTransitive(s.reg, joined.reg, t.reg);
  }

  lemma CommitSwitches(s: State, fault: bool, now: int, request: string, u: string, code: string)
    requires CommitAuthorization(s, fault, now, request, u, code).Success?
    ensures CommitAuthorization(s, fault, now, request, u, code).value.switches == s.switches
  {
    hide AuthorizeResource;
  }

  lemma CreateUserShape(reg: Registry, username: string, hash: Option<string>, id: string, admin: bool)
    requires CreateUser(reg, username, hash, id, admin).Some?
    ensures var r := CreateUser(reg, username, hash, id, admin).value;
            r == reg.(users := r.users, usernames := r.usernames) && r.users.Keys == reg.users.Keys + {id}
  {
    hide NormalizeUsername;
  }

  lemma SetupEffected(s: State, cfg: Config, username: string, hash: Option<string>, id: string, mode: Mode, open: bool, t: State)
    requires Outcome(Setup(s, cfg, username, hash, id, mode, open), t)
    ensures Effected(s, t, FirstRun(username, hash, id, mode, open)) && t.switches.kill == s.switches.kill
  {
    hide CreateUser, Progress;
    if CreateUser(s.reg, username, hash, id, true).Some? {
      CreateUserShape(s.reg, username, hash, id, true);
    }
    SameProgress(s.reg, t.reg);
  }

  lemma PasswordEffected(s: State, fault: bool, current: User, hash: string, t: State)
    requires Outcome(ChangePassword(s, fault, current, hash), t)
    ensures Effected(s, t, NewPassword(current, hash)) && t.switches == s.switches
  {
    hide Progress, RevokeUser, Effected;
    if t != s {
      var changed := s.(reg := s.reg.(users := s.reg.users[current.id := s.reg.users[current.id].(passwordHash := hash)]));
      RevokeUserShape(changed, current.id);
    }
    SameProgress(s.reg, t.reg);
    UnchangedEffected(s, t, NewPassword(current, hash));
  }

  lemma AdminUsers(s: State, cfg: Config, current: User, a: AdminAction)
    requires AdminChange(s, cfg, current, a).Some?
    ensures var t := AdminChange(s, cfg, current, a).value;
            t.reg.clients.Keys <= s.reg.clients.Keys && t.reg.users.Keys <= s.reg.users.Keys + Names(Manage(current, a))
  {
    hide CreateUser, RevokeUser, RevokeClients, LeftBehind, Retire;
    if a.CreateAccount? {
      CreateUserShape(s.reg, a.username, a.hash, a.id, false);
    } else if a.RevokeDevice? {
      RetireUsers(s, {a.route});
    } else if a.DeleteUser? {
      RetireUsers(s.(reg := RemoveUser(s.reg, a.user)), LeftBehind(s.reg, a.user));
      RevokeUserShape(Retire(s.(reg := RemoveUser(s.reg, a.user)), LeftBehind(s.reg, a.user)), a.user);
    } else if a.RevokeClientAction? {
      RevokeClientsShape(s, {a.client});
    } else {
      AdminKeepsNames(s, cfg, current, a);
      hide AdminChange;
    }
  }

  lemma AdminKeepsNames(s: State, cfg: Config, current: User, a: AdminAction)
    requires AdminChange(s, cfg, current, a).Some?
    requires !a.CreateAccount? && !a.RevokeDevice? && !a.DeleteUser? && !a.RevokeClientAction?
    ensures var reg := AdminChange(s, cfg, current, a).value.reg; reg.clients == s.reg.clients && reg.users.Keys == s.reg.users.Keys
  {
    hide RevokeUser, RevokeFamily, DropSessions, EnsureRecord, RevokeRoutes;
    if a.RotatePassword? {
      RevokeUserShape(s.(reg := s.reg.(users := s.reg.users[a.user := s.reg.users[a.user].(passwordHash := a.hash.value)])), a.user);
    } else if a.DisableUser? {
      RevokeUserShape(s.(reg := s.reg.(users := s.reg.users[a.user := s.reg.users[a.user].(disabled := true)])), a.user);
    }
  }

  lemma RetireUsers(s: State, routes: set<Route>)
    ensures var t := Retire(s, routes); t.reg.users == s.reg.users && t.reg.clients.Keys <= s.reg.clients.Keys
  {
  }

  lemma AdminCodes(s: State, cfg: Config, current: User, a: AdminAction)
    requires AdminChange(s, cfg, current, a).Some?
    ensures var t := AdminChange(s, cfg, current, a).value;
            Sub(t.grants.codes, s.grants.codes) && (t.switches.kill == s.switches.kill || a.SetKillSwitch?)
  {
    hide CreateUser, RemoveUser, RevokeFamily, DropSessions, EnsureRecord, LeftBehind, Retire;
    match a {
      case RevokeDevice(r) => RetireCodes(s, {r});
      case DeleteUser(u) => RetireCodes(s.(reg := RemoveUser(s.reg, u)), LeftBehind(s.reg, u));
      case _ =>
    }
  }

  lemma RetireCodes(s: State, routes: set<Route>)
    ensures Sub(Retire(s, routes).grants.codes, s.grants.codes) && Retire(s, routes).switches == s.switches
  {
    hide RevokeClients, BoundToAny;
    var mid := s.(reg := s.reg.(retired := s.reg.retired + (map r | r in routes :: true), devices := s.reg.devices - routes,
                                disabled := s.reg.disabled - routes, records := s.reg.records - routes),
                  grants := RevokeRoutes(s.grants, routes));
    RevokeClientsShape(mid, BoundToAny(s.reg.clients, routes));
  }

  lemma AccountNames(s: State, current: User, a: AccountAction)
    requires AccountChange(s, current, a).Some?
    ensures var t := AccountChange(s, current, a).value;
            t.reg.clients.Keys <= s.reg.clients.Keys && t.reg.users == s.reg.users &&
            Sub(t.grants.codes, s.grants.codes) && t.switches == s.switches
  {
    hide RevokeFamily, EnsureRecord, OwnsFamily, WithoutClients, PendingsWithoutClients, WithoutRoutes, PendingsWithoutRoutes;
  }

  lemma OwnEffected(s: State, fault: bool, current: User, a: AccountAction, t: State)
    requires Outcome(Account(s, fault, current, a), t)
    ensures Effected(s, t, Own(current, a)) && t.switches == s.switches
  {
    hide AccountChange, Progress, Effected;
    SameProgress(s.reg, s.reg);
    UnchangedEffected(s, s, Own(current, a));
    if AccountChange(s, current, a).Some? && t != s {
      AccountProgress(s, current, a);
      AccountNames(s, current, a);
      UnchangedEffected(s, t, Own(current, a));
    }
  }

  lemma ManageEffected(s: State, cfg: Config, fault: bool, current: User, a: AdminAction, t: State)
    requires Outcome(Admin(s, cfg, fault, current, a), t)
    ensures Effected(s, t, Manage(current, a))
    ensures t.switches.kill == s.switches.kill || (a.SetKillSwitch? && (fault ==> a.toggle == Some(true)))
    ensures s.switches.kill && (fault || a != SetKillSwitch(Some(false))) ==> t.switches.kill
  {
    hide AdminChange, Progress, LiveAdmin;
    SameProgress(s.reg, s.reg);
    if AdminChange(s, cfg, current, a).Some? && t != s {
      AdminProgress(s, cfg, current, a);
      AdminUsers(s, cfg, current, a);
      AdminCodes(s, cfg, current, a);
      if a.SetKillSwitch? { StopSet(s, cfg, current, a); }
    }
  }

  lemma StopSet(s: State, cfg: Config, current: User, a: AdminAction)
    requires AdminChange(s, cfg, current, a).Some? && a.SetKillSwitch?
    ensures a.toggle == Some(AdminChange(s, cfg, current, a).value.switches.kill)
  {
  }

  /** Releasing the global stop: the one request that can turn the kill switch off. */
  predicate Releases(q: Request) {
    q.Manage? && q.adminAction == SetKillSwitch(Some(false))
  }

  lemma NewcomerEffected(s: State, cfg: Config, fault: bool, now: int, q: Request, t: State)
    requires Inv(s) && NewIds(s.reg, q) && (q.Register? || q.Allow? || q.Join?) && Outcome(Effects(s, cfg, fault, now, q), t)
    ensures Effected(s, t, q) && t.switches == s.switches
  {
    assert RegistryOk(s.reg);
    hide Inv, RegistryOk, Effected, Outcome, RegisterClient, Grant, RegisterAndGrant;
    match q {
      case Register(id, req, victim) => RegisterEffected(s, fault, now, id, req, victim, t);
      case Allow(request, u, code) => AllowEffected(s, fault, now, request, u, code, t);
      case Join(request, account, invite, code, session) => JoinEffected(s, fault, now, request, account, invite, code, session, t);
    }
  }

  lemma OperatorEffected(s: State, cfg: Config, fault: bool, now: int, q: Request, t: State)
    requires (q.FirstRun? || q.Own? || q.NewPassword? || q.Manage?) && Outcome(Effects(s, cfg, fault, now, q), t)
    ensures Effected(s, t, q)
    ensures s.switches.kill && (fault || !Releases(q)) ==> t.switches.kill
  {
    hide Effected, Outcome, Setup, Account, ChangePassword, Admin;
    match q {
      case FirstRun(username, hash, id, mode, open) => SetupEffected(s, cfg, username, hash, id, mode, open, t);
      case Own(current, a) => OwnEffected(s, fault, current, a, t);
      case NewPassword(current, hash) => PasswordEffected(s, fault, current, hash, t);
      case Manage(current, a) => ManageEffected(s, cfg, fault, current, a, t);
    }
  }

  /** Every request, with any outcome: routes only move forward, new names were drawn
      by the request, and only a release turns the kill switch off. */
  lemma RequestEffected(s: State, cfg: Config, fault: bool, now: int, q: Request, t: State)
    requires Inv(s) && NewIds(s.reg, q) && Outcome(Effects(s, cfg, fault, now, q), t)
    ensures Effected(s, t, q)
    ensures s.switches.kill && (fault || !Releases(q)) ==> t.switches.kill
  {
    hide Inv, Effected, Outcome, Effects, NewIds, Releases;
    if Bystander(q) {
      BystanderEffected(s, cfg, fault, now, q, t);
    } else if q.Register? || q.Allow? || q.Join? {
      NewcomerEffected(s, cfg, fault, now, q, t);
    } else {
      OperatorEffected(s, cfg, fault, now, q, t);
    }
  }

  // ------------------------------------------------------------ unsaved changes

  /** What memory holds when nothing of the request was saved. */
  function Unsaved(e: Effect): State {
    match e
    case Quiet(next) => next
    case Commit(_, onFailure, _) => onFailure
  }

  lemma UnsavedBystander(s: State, cfg: Config, fault: bool, now: int, q: Request)
    requires Bystander(q)
    ensures var reg := Unsaved(Effects(s, cfg, fault, now, q)).reg; reg.devices == s.reg.devices && reg.retired == s.reg.retired
  {
    hide Effects, Cleanup;
    BystandersRegistry(s, cfg, fault, now, q, Unsaved(Effects(s, cfg, fault, now, q)));
    CleanupSame(s, now);
  }

  lemma UnsavedRegister(s: State, fault: bool, now: int, id: string, req: Registration, victim: string)
    ensures var reg := Unsaved(RegisterClient(s, fault, now, id, req, victim)).reg; reg.devices == s.reg.devices && reg.retired == s.reg.retired
  {
    var c := Cleanup(s, now);
    CleanupSame(s, now);
    hide Cleanup, AddClient;
    AddClientShape(c, now, id, req, victim, Unsaved(AddClient(c, now, id, req, victim)));
  }

  lemma UnsavedJoin(s: State, fault: bool, now: int, request: string, user: User, invite: string, code: string, session: string)
    ensures var t := Unsaved(RegisterAndGrant(s, fault, now, request, user, invite, code, session)); t.reg == s.reg
  {
    hide NormalizeUsername, CommitAuthorization, RegistrationOpen, ConsumeInvite;
  }

  lemma UnsavedOther(s: State, cfg: Config, fault: bool, now: int, q: Request)
    requires q.Allow? || q.FirstRun? || q.Own? || q.NewPassword? || q.Manage?
    ensures Unsaved(Effects(s, cfg, fault, now, q)).reg == s.reg
  {
    hide CommitAuthorization, AdminChange, AccountChange, CreateUser, LiveAdmin, LiveUser, RevokeUser, RecoveryAllowed;
  }

  /** No route moves in memory unless the request was saved. */
  lemma UnsavedDevices(s: State, cfg: Config, fault: bool, now: int, q: Request)
    ensures var reg := Unsaved(Effects(s, cfg, fault, now, q)).reg; reg.devices == s.reg.devices && reg.retired == s.reg.retired
  {
    hide RegisterClient, RegisterAndGrant, Effects;
    if Bystander(q) {
      UnsavedBystander(s, cfg, fault, now, q);
    } else {
      match q {
        case Register(id, req, victim) =>
          UnsavedRegister(s, fault, now, id, req, victim);
          EffectsOfRegister(s, cfg, fault, now, q);
        case Join(request, account, invite, code, session) =>
          UnsavedJoin(s, fault, now, request, account, invite, code, session);
          EffectsOfJoin(s, cfg, fault, now, q);
        case _ => UnsavedOther(s, cfg, fault, now, q);
      }
    }
  }

  lemma EffectsOfRegister(s: State, cfg: Config, fault: bool, now: int, q: Request)
    requires q.Register?
    ensures Effects(s, cfg, fault, now, q) == RegisterClient(s, fault, now, q.id, q.req, q.victim)
  {
    hide RegisterClient;
  }

  lemma EffectsOfJoin(s: State, cfg: Config, fault: bool, now: int, q: Request)
    requires q.Join?
    ensures Effects(s, cfg, fault, now, q) == RegisterAndGrant(s, fault, now, q.request, q.account, q.invite, q.code, q.session)
  {
    hide RegisterAndGrant;
  }
}
