/** Every request keeps the authorization state in order, whether or not its save succeeds. */
module RelaySafety {
  import opened Wrappers
  import opened RelayState
  import opened RelayOps
  import opened RelayInvariant
  import opened RelayRequests
  import Text

  /** What parsing and proof checking have established about a request. */
  predicate WellFormed(q: Request) {
    match q
    case Register(id, req, _) => id != "" && (req.device != NoKey ==> Text.DeviceId(req.device.derivedId))
    case Begin(_, ask) => ResourceOk(ask.resource) && ask.scope.kind == KindOf(ask.resource)
    case FirstRun(_, _, id, _, _) => id != ""
    case Manage(_, a) => a.CreateAccount? ==> a.id != ""
    case _ => true
  }

  /** The random IDs the request brings along are new. */
  predicate NewIds(reg: Registry, q: Request) {
    match q
    case Register(id, _, _) => id !in reg.clients
    case Join(_, account, _, _, _) => account.id !in reg.users
    case FirstRun(_, _, id, _, _) => id !in reg.users
    case Manage(_, a) => a.CreateAccount? ==> a.id !in reg.users
    case _ => true
  }

  lemma SameKeeps(s: State, t: State)
    requires Inv(s) && t.reg == s.reg && t.grants == s.grants
    ensures Inv(t)
  {
  }

  lemma CreateUserKeeps(s: State, t: State, username: string, hash: Option<string>, id: string, admin: bool)
    requires Inv(s) && id != "" && id !in s.reg.users
    requires CreateUser(s.reg, username, hash, id, admin) == Some(t.reg) && t.grants == s.grants
    ensures Inv(t)
  {
    hide Inv, NormalizeUsername;
    TrimKeepsUsername(username);
    var n := NormalizeUsername(username).value;
    AddUserKeeps(s, t, User(id, Text.Trim(username), hash.value, admin, false), n);
  }

  lemma JoinKeeps(s: State, fault: bool, now: int, request: string, user: User, invite: string,
                  code: string, session: string, t: State)
    requires Inv(s) && user.id !in s.reg.users
    requires Outcome(RegisterAndGrant(s, fault, now, request, user, invite, code, session), t)
    ensures Inv(t)
  {
    hide Inv, NormalizeUsername, CommitAuthorization, RegistrationOpen, ConsumeInvite, AddUser, DropPending;
    DropPendingKeeps(s, request);
    var n := NormalizeUsername(user.username);
    var web := ConsumeInvite(s, invite, now);
    if n.Some? && web.Some? && user.id != "" && n.value !in s.reg.usernames {
      var joined := s.(reg := AddUser(s.reg, user, n.value), web := web.value);
      AddUserKeeps(s, joined, user, n.value);
      if CommitAuthorization(joined, fault, now, request, user.id, code).Success? {
        var c := CommitAuthorization(joined, fault, now, request, user.id, code).value;
        CommitKeeps(joined, fault, now, request, user.id, code);
        SameKeeps(c, c.(web := c.web.(sessions := c.web.sessions[session := Session(user.id, now + SESSION_LIFETIME, now)])));
      }
    }
  }

  lemma AddClientKeeps(c: State, now: int, id: string, req: Registration, victim: string, t: State)
    requires Inv(c) && id != "" && id !in c.reg.clients && (req.device != NoKey ==> Text.DeviceId(req.device.derivedId))
    requires Outcome(AddClient(c, now, id, req, victim), t)
    ensures Inv(t)
  {
    var r := RevokeClients(c, {victim});
    assert id !in r.reg.clients && ClientOk(id, NewClient(id, req, now));
    hide Inv, RevokeClients, NewClient, Evictable, ClientOk;
    RevokeClientsKeeps(c, {victim});
    if t != c {
      AddedClientKeeps(if |c.reg.clients| >= MAX_CLIENTS then r else c, id, NewClient(id, req, now));
    }
  }

  lemma AddedClientKeeps(s: State, id: string, client: Client)
    requires Inv(s) && ClientOk(id, client) && id !in s.reg.clients
    ensures Inv(s.(reg := s.reg.(clients := s.reg.clients[id := client])))
  {
    var t := s.(reg := s.reg.(clients := s.reg.clients[id := client]));
    assert RegistryOk(t.reg) by { hide NamesAgree, DevicesOk, FlagsOk, RecordsOk, ClientOk, GrantsOk; }
    assert Extends(t.reg, s.reg) by { hide RegistryOk, GrantsOk; }
    hide *;
    ExtendKeeps(s, t);
  }

  lemma BeginKeeps(s: State, cfg: Config, now: int, request: string, a: AuthRequest, t: State)
    requires Inv(s) && ResourceOk(a.resource) && a.scope.kind == KindOf(a.resource)
    requires Outcome(BeginAuthorization(s, cfg, now, request, a), t)
    ensures Inv(t)
  {
    var c := Cleanup(s, now);
    CleanupKeeps(s, now);
    assert PendingsOk(t.grants.pending) && CodesOk(t.grants.codes) by {
      hide RegistryOk, TokensOk, MayAskFor, Cleanup, RouteOk;
    }
    hide Inv, Cleanup, MayAskFor, PendingsOk, CodesOk;
    RequestsKeep(c, t);
  }

  lemma FailKeeps(s: State, request: string, t: State)
    requires Inv(s) && Outcome(FailAuthorization(s, request), t)
    ensures Inv(t)
  {
    DropPendingKeeps(s, request);
    assert PendingsOk(t.grants.pending) && CodesOk(t.grants.codes) by { hide RegistryOk, TokensOk, RouteOk; }
    hide Inv, PendingsOk, CodesOk;
    RequestsKeep(s, t);
  }

  // ---------------------------------------------------------------- exchanges

  /** The two tokens carry the same authorization, whatever their family and lifetime. */
  predicate SameGrant(a: Token, b: Token) {
    a.client == b.client && a.user == b.user && a.resource == b.resource && a.scope == b.scope
  }

  /** Every token of `a` is one of `b`, or carries the authorization of `t`. */
  ghost predicate From(a: map<string, Token>, b: map<string, Token>, t: Token) {
    forall k :: k in a ==> (k in b && a[k] == b[k]) || SameGrant(a[k], t)
  }

  ghost predicate GrantsFrom(a: Grants, b: Grants, t: Token) {
    From(a.access, b.access, t) && From(a.refresh, b.refresh, t) && From(a.refreshUsed, b.refreshUsed, t) &&
    a.pending == b.pending && Sub(a.codes, b.codes)
  }

  function GrantToken(p: Pending): Token {
    Token(p.client, p.user, p.resource, p.scope, "", 0)
  }

  lemma RedeemsFrom(c: State, fault: bool, now: int, q: CodeRequest, f: Fresh, t: State)
    requires Outcome(RedeemCode(c, fault, now, q, f), t) && t != c
    ensures t.reg == c.reg && q.code in c.grants.codes
    ensures var p := c.grants.codes[q.code].grant;
            GrantsFrom(t.grants, c.grants, GrantToken(p)) &&
            (t.grants == c.grants.(codes := c.grants.codes - {q.code}) || (ApprovedClient(c.reg, p.client) && ActiveUser(c.reg, p.user)))
  {
    hide PkceMatches, Enabled, Owns;
  }

  lemma RotatesFrom(c: State, fault: bool, now: int, q: RefreshRequest, f: Fresh, t: State)
    requires Outcome(RotateToken(c, fault, now, q, f), t)
    ensures t.reg == c.reg && (SubGrants(t.grants, c.grants) || (q.key in c.grants.refresh && GrantsFrom(t.grants, c.grants, c.grants.refresh[q.key])))
  {
    hide RevokeFamily, Enabled, Owns;
  }

  lemma FromKeeps(c: State, t: State, g: Token)
    requires Inv(c) && t.reg == c.reg && GrantsFrom(t.grants, c.grants, g) && TokenOk(c.reg.clients, c.reg.users, g)
    ensures Inv(t)
  {
    assert CodesOk(t.grants.codes) by { hide RegistryOk, TokensOk, PendingOk; }
    hide RegistryOk, Approved, Active, ResourceOk, CodesOk, PendingsOk;
  }

  lemma SpentKeeps(c: State, t: State, code: string)
    requires Inv(c) && t.reg == c.reg && t.grants == c.grants.(codes := c.grants.codes - {code})
    ensures Inv(t)
  {
    assert CodesOk(t.grants.codes) by { hide RegistryOk, TokensOk, PendingOk; }
    hide RegistryOk, TokensOk, PendingsOk, CodesOk;
  }

  lemma SubKeeps(c: State, t: State)
    requires Inv(c) && t.reg == c.reg && SubGrants(t.grants, c.grants)
    ensures Inv(t)
  {
    assert Supports(t.reg.clients, t.reg.users, t.grants) && RegistryOk(t.reg) by { hide RegistryOk, ResourceOk; }
    hide *;
    ShrinkKeeps(c, t);
  }

  lemma RedeemKeeps(c: State, fault: bool, now: int, q: CodeRequest, f: Fresh, t: State)
    requires Inv(c) && Outcome(RedeemCode(c, fault, now, q, f), t)
    ensures Inv(t)
  {
    if t != c {
      RedeemsFrom(c, fault, now, q, f, t);
      var p := c.grants.codes[q.code].grant;
      assert PendingOk(p) by { hide RegistryOk, TokensOk, ResourceOk, RedeemCode; }
      hide Inv, RedeemCode, GrantsFrom, ResourceOk;
      if t.grants == c.grants.(codes := c.grants.codes - {q.code}) {
        SpentKeeps(c, t, q.code);
      } else {
        FromKeeps(c, t, GrantToken(p));
      }
    }
  }

  lemma RotateKeeps(c: State, fault: bool, now: int, q: RefreshRequest, f: Fresh, t: State)
    requires Inv(c) && Outcome(RotateToken(c, fault, now, q, f), t)
    ensures Inv(t)
  {
    RotatesFrom(c, fault, now, q, f, t);
    if SubGrants(t.grants, c.grants) {
      hide *;
      SubKeeps(c, t);
    } else {
      assert TokenOk(c.reg.clients, c.reg.users, c.grants.refresh[q.key]) by { hide RegistryOk, PendingsOk, CodesOk, RotateToken; }
      hide *;
      FromKeeps(c, t, c.grants.refresh[q.key]);
    }
  }

  // ----------------------------------------------- accounts and administration

  lemma DeviceFacts(reg: Registry, r: Route)
    requires RegistryOk(reg) && r in reg.devices
    ensures RouteOk(r) && reg.devices[r] in reg.users && Get(reg.records, r, NoRecord).owner in {"", reg.devices[r]}
    ensures RecordKeyOk(r, Get(reg.records, r, NoRecord).key)
  {
    hide NamesAgree, ClientsOk, FlagsOk, RouteOk;
  }

  lemma FlaggedRegistry(reg: Registry, r: Route, off: bool)
    requires RegistryOk(reg) && RouteOk(r)
    ensures RegistryOk(reg.(disabled := reg.disabled[r := off]))
  {
    hide NamesAgree, ClientsOk, DevicesOk, RecordsOk, RouteOk;
  }

  /** Rewriting the record of an owned device keeps the registry in order. */
  lemma EnsuredRegistry(reg: Registry, r: Route, disabled: bool)
    requires RegistryOk(reg) && r in reg.devices
    ensures RegistryOk(reg.(records := reg.records[r := EnsureRecord(reg, r, reg.devices[r]).(disabled := disabled)]))
  {
    hide RegistryOk, RouteOk, RecordKeyOk;
    DeviceFacts(reg, r);
    RecordSet(reg, r, EnsureRecord(reg, r, reg.devices[r]).(disabled := disabled));
  }

  lemma SameClientsExtend(a: Registry, b: Registry)
    requires a.clients == b.clients && a.users == b.users
    ensures Extends(a, b)
  {
  }

  lemma RenameKeeps(s: State, r: Route)
    requires Inv(s) && r in s.reg.devices
    ensures Inv(s.(reg := s.reg.(records := s.reg.records[r := EnsureRecord(s.reg, r, s.reg.devices[r])])))
  {
    var record := EnsureRecord(s.reg, r, s.reg.devices[r]);
    var t := s.(reg := s.reg.(records := s.reg.records[r := record]));
    assert record == record.(disabled := record.disabled) && RegistryOk(s.reg);
    hide *;
    EnsuredRegistry(s.reg, r, record.disabled);
    SameClientsExtend(t.reg, s.reg);
    ExtendKeeps(s, t);
  }

  lemma SetDisabledKeeps(s: State, r: Route, off: bool)
    requires Inv(s) && r in s.reg.devices
    ensures Inv(SetDisabled(s, r, off, s.reg.devices[r]))
  {
    var reg := s.reg.(disabled := s.reg.disabled[r := off]);
    var mid := s.(reg := reg.(records := reg.records[r := EnsureRecord(reg, r, reg.devices[r]).(disabled := off)]));
    var t := SetDisabled(s, r, off, s.reg.devices[r]);
    assert RegistryOk(s.reg) && t.reg == mid.reg && (t == mid || t.grants == RevokeRoutes(mid.grants, {r}));
    hide *;
    DeviceFacts(s.reg, r);
    FlaggedRegistry(s.reg, r, off);
    EnsuredRegistry(reg, r, off);
    SameClientsExtend(mid.reg, s.reg);
    ExtendKeeps(s, mid);
    if t != mid {
      RevokeRoutesSupport(mid, {r});
      SubKeeps(mid, t);
    }
  }

  lemma EnabledUserKeeps(s: State, u: string)
    requires Inv(s) && u in s.reg.users
    ensures Inv(s.(reg := s.reg.(users := s.reg.users[u := s.reg.users[u].(disabled := false)])))
  {
    var t := s.(reg := s.reg.(users := s.reg.users[u := s.reg.users[u].(disabled := false)]));
    assert RegistryOk(s.reg) && s.reg.users[u].id == u by { hide ClientsOk, DevicesOk, RecordsOk, FlagsOk, GrantsOk, Indexed, Backed; }
    assert Extends(t.reg, s.reg) by { hide RegistryOk, GrantsOk; }
    hide *;
    ChangedUser(s.reg, u, s.reg.users[u].(disabled := false));
    ExtendKeeps(s, t);
  }

  lemma UserId(s: State, u: string)
    requires Inv(s) && u in s.reg.users
    ensures s.reg.users[u].id == u
  {
    hide ClientsOk, DevicesOk, RecordsOk, FlagsOk, GrantsOk, Indexed, Backed;
  }

  lemma AdminKeeps(s: State, cfg: Config, current: User, a: AdminAction)
    requires Inv(s) && (a.CreateAccount? ==> a.id != "" && a.id !in s.reg.users)
    requires AdminChange(s, cfg, current, a).Some?
    ensures Inv(AdminChange(s, cfg, current, a).value)
  {
    hide Inv, RevokeUser, Retire, RevokeClients, RevokeFamily, SetDisabled, DropSessions, CreateUser, LeftBehind, RemoveUser, EnsureRecord;
    var t := AdminChange(s, cfg, current, a).value;
    match a {
      case RotatePassword(u, hash) =>
        UserId(s, u);
        ChangeAndRevokeUserKeeps(s, u, s.reg.users[u].(passwordHash := hash.value));
      case CreateAccount(username, hash, id) => CreateUserKeeps(s, t, username, hash, id, false);
      case DisableDevice(r, toggle) => SetDisabledKeeps(s, r, toggle.value);
      case RevokeDevice(r) => RetireOwnedKeeps(s, r);
      case RenameDevice(r, _) => RenameKeeps(s, r);
      case DisableUser(u, toggle) =>
        UserId(s, u);
        if toggle.value {
          ChangeAndRevokeUserKeeps(s, u, s.reg.users[u].(disabled := true));
        } else {
          EnabledUserKeeps(s, u);
        }
      case DeleteUser(u) => DeleteUserKeeps(s, u);
      case RevokeClientAction(c) => RevokeClientsKeeps(s, {c});
      case RevokeToken(h) =>
        RevokeFamilyKeeps(s, if h in s.grants.refresh then s.grants.refresh[h].family
                             else if h in s.grants.refreshUsed then s.grants.refreshUsed[h].family
                             else s.grants.access[h].family);
      case _ => SameKeeps(s, t);
    }
  }

  lemma RetireOwnedKeeps(s: State, r: Route)
    requires Inv(s) && r in s.reg.devices
    ensures Inv(Retire(s, {r}))
  {
    DeviceFacts(s.reg, r) by { hide RegistryOk; }
    hide *;
    RetireKeeps(s, {r});
  }

  lemma AccountKeeps(s: State, current: User, a: AccountAction)
    requires Inv(s) && AccountChange(s, current, a).Some?
    ensures Inv(AccountChange(s, current, a).value)
  {
    assert current.id in s.reg.users && current.id != "" by {
      hide NamesAgree, ClientsOk, DevicesOk, RecordsOk, FlagsOk, GrantsOk;
      NoNamelessUser(s.reg);
    }
    hide Inv, Retire, RevokeFamily, SetDisabled, EnsureRecord, OwnsFamily, DropSession, LiveUser;
    UserId(s, current.id);
    var t := AccountChange(s, current, a).value;
    match a {
      case OwnRename(r, _) => RenameKeeps(s, r);
      case OwnDisable(r, toggle) => SetDisabledKeeps(s, r, toggle.value);
      case OwnRevoke(r) => RetireOwnedKeeps(s, r);
      case OwnRevokeFamily(family) => RevokeFamilyKeeps(s, family);
      case _ => SameKeeps(s, t);
    }
  }

  lemma RevocationKeeps(s: State, key: string, t: State)
    requires Inv(s) && Outcome(Revoke(s, key), t)
    ensures Inv(t)
  {
    assert t.reg == s.reg && SubGrants(t.grants, s.grants) by { hide Inv; }
    hide *;
    SubKeeps(s, t);
  }

  lemma GrantKeeps(s: State, fault: bool, now: int, request: string, u: string, code: string, t: State)
    requires Inv(s) && Outcome(Grant(s, fault, now, request, u, code), t)
    ensures Inv(t)
  {
    hide Inv, CommitAuthorization, DropPending;
    DropPendingKeeps(s, request);
    if CommitAuthorization(s, fault, now, request, u, code).Success? {
      CommitKeeps(s, fault, now, request, u, code);
    }
  }

  lemma RegisterKeeps(s: State, fault: bool, now: int, id: string, req: Registration, victim: string, t: State)
    requires Inv(s) && id != "" && id !in s.reg.clients && (req.device != NoKey ==> Text.DeviceId(req.device.derivedId))
    requires Outcome(RegisterClient(s, fault, now, id, req, victim), t)
    ensures Inv(t)
  {
    var c := Cleanup(s, now);
    assert Sub(c.reg.clients, s.reg.clients);
    hide Inv, Cleanup, AddClient;
    CleanupKeeps(s, now);
    if !fault && s.switches.dcr {
      AddClientKeeps(c, now, id, req, victim, t);
    }
  }

  lemma ExchangeKeeps(s: State, cfg: Config, fault: bool, now: int, q: Request, t: State)
    requires Inv(s) && IsExchange(q) && Outcome(Effects(s, cfg, fault, now, q), t)
    ensures Inv(t)
  {
    hide Inv, Cleanup, RedeemCode, RotateToken;
    var c := Cleanup(s, now);
    CleanupKeeps(s, now);
    match q {
      case Redeem(q1, f) => RedeemKeeps(c, fault, now, q1, f, t);
      case Rotate(q1, f) => RotateKeeps(c, fault, now, q1, f, t);
    }
  }

  lemma SetupKeeps(s: State, cfg: Config, username: string, hash: Option<string>, id: string, mode: Mode, open: bool, t: State)
    requires Inv(s) && id != "" && id !in s.reg.users && Outcome(Setup(s, cfg, username, hash, id, mode, open), t)
    ensures Inv(t)
  {
    hide Inv, CreateUser;
    if CreateUser(s.reg, username, hash, id, true) == Some(t.reg) && t.grants == s.grants {
      CreateUserKeeps(s, t, username, hash, id, true);
    }
  }

  lemma OwnKeeps(s: State, fault: bool, current: User, a: AccountAction, t: State)
    requires Inv(s) && Outcome(Account(s, fault, current, a), t)
    ensures Inv(t)
  {
    hide Inv, AccountChange;
    if AccountChange(s, current, a).Some? {
      AccountKeeps(s, current, a);
    }
  }

  lemma ManageKeeps(s: State, cfg: Config, fault: bool, current: User, a: AdminAction, t: State)
    requires Inv(s) && (a.CreateAccount? ==> a.id != "" && a.id !in s.reg.users)
    requires Outcome(Admin(s, cfg, fault, current, a), t)
    ensures Inv(t)
  {
    hide Inv, AdminChange, LiveAdmin, RecoveryAllowed;
    if AdminChange(s, cfg, current, a).Some? {
      AdminKeeps(s, cfg, current, a);
    }
  }

  lemma InviteKeeps(s: State, fault: bool, now: int, current: User, handle: string, t: State)
    requires Inv(s) && Outcome(CreateInvite(s, fault, now, current, handle), t)
    ensures Inv(t)
  {
    var c := Cleanup(s, now);
    assert t == s || (t.reg == c.reg && t.grants == c.grants) by { hide Inv, Cleanup; }
    hide *;
    CleanupKeeps(s, now);
    if t != s {
      SameKeeps(c, t);
    }
  }

  lemma NewPasswordKeeps(s: State, fault: bool, current: User, hash: string, t: State)
    requires Inv(s) && Outcome(ChangePassword(s, fault, current, hash), t)
    ensures Inv(t)
  {
    hide Inv, RevokeUser;
    if t != s {
      PasswordKeeps(s, current, hash);
    }
  }

  /** Requests that touch sessions and nothing else. */
  lemma SessionsKeep(s: State, cfg: Config, fault: bool, now: int, q: Request, t: State)
    requires Inv(s) && (q.Audit? || q.Login? || q.Logout? || q.Reauth?) && Outcome(Effects(s, cfg, fault, now, q), t)
    ensures Inv(t)
  {
    assert t.reg == s.reg && t.grants == s.grants by { hide Inv, LiveAdmin; }
    hide *;
    SameKeeps(s, t);
  }

  /** Every request, whatever its outcome, leaves the state in order. */
  lemma RequestKeeps(s: State, cfg: Config, fault: bool, now: int, q: Request, t: State)
    requires Inv(s) && WellFormed(q) && NewIds(s.reg, q) && Outcome(Effects(s, cfg, fault, now, q), t)
    ensures Inv(t)
  {
    hide Inv, Cleanup, RegisterClient, BeginAuthorization, FailAuthorization, DropPending, Grant, RegisterAndGrant, ExchangeCode,
         ExchangeRefresh, Revoke, CreateSession, ClearSession, Reauthenticate, CreateInvite, Setup, Account, ChangePassword, Admin;
    match q {
      case Register(id, req, victim) => RegisterKeeps(s, fault, now, id, req, victim, t);
      case Begin(request, ask) => BeginKeeps(s, cfg, now, request, ask, t);
      case Fail(request) => FailKeeps(s, request, t);
      case Deny(request) => DropPendingKeeps(s, request);
      case Allow(request, u, code) => GrantKeeps(s, fault, now, request, u, code, t);
      case Join(request, account, invite, code, session) => JoinKeeps(s, fault, now, request, account, invite, code, session, t);
      case Revocation(key) => RevocationKeeps(s, key, t);
      case FirstRun(username, hash, id, mode, open) => SetupKeeps(s, cfg, username, hash, id, mode, open, t);
      case Own(current, a) => OwnKeeps(s, fault, current, a, t);
      case NewPassword(current, hash) => NewPasswordKeeps(s, fault, current, hash, t);
      case Manage(current, a) => ManageKeeps(s, cfg, fault, current, a, t);
      case IssueInvite(current, handle) => InviteKeeps(s, fault, now, current, handle, t);
      case Redeem(_, _) => ExchangeKeeps(s, cfg, fault, now, q, t);
      case Rotate(_, _) => ExchangeKeeps(s, cfg, fault, now, q, t);
      case Verify => CleanupKeeps(s, now);
      case Touch => CleanupKeeps(s, now);
      case _ => SessionsKeep(s, cfg, fault, now, q, t);
    }
  }

  lemma PasswordKeeps(s: State, current: User, hash: string)
    requires Inv(s) && LiveUser(s.reg, current)
    ensures Inv(RevokeUser(s.(reg := s.reg.(users := s.reg.users[current.id := s.reg.users[current.id].(passwordHash := hash)])), current.id))
  {
    UserId(s, current.id) by { hide Inv; }
    hide Inv, RevokeUser;
    ChangeAndRevokeUserKeeps(s, current.id, s.reg.users[current.id].(passwordHash := hash));
  }
}
