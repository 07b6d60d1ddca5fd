/** Every request the authorization server accepts, as one type, and what all of
    them have in common. */
module RelayRequests {
  import opened Wrappers
  import opened RelayState
  import opened RelayOps
  import opened RelayInvariant
  import Text

  datatype Request =
    | Verify
    | Touch
    | Audit
    | Register(id: string, req: Registration, victim: string)
    | Begin(request: string, ask: AuthRequest)
    | Fail(request: string)
    | Deny(request: string)
    | Allow(request: string, user: string, code: string)
    | Join(request: string, account: User, invite: string, code: string, session: string)
    | Redeem(codeRequest: CodeRequest, tokens: Fresh)
    | Rotate(refreshRequest: RefreshRequest, tokens: Fresh)
    | Revocation(key: string)
    | Login(current: User, handle: string)
    | Logout(handle: string)
    | Reauth(current: User, handle: string, renewed: string)
    | IssueInvite(current: User, handle: string)
    | FirstRun(username: string, hash: Option<string>, id: string, mode: Mode, open: bool)
    | Own(current: User, action: AccountAction)
    | NewPassword(current: User, newHash: string)
    | Manage(current: User, adminAction: AdminAction)

  /** What a request does: `Verify` is any protected call (it only cleans up),
      `Touch` a browser page that refreshes its session, `Audit` a recorded event. */
  function Effects(s: State, cfg: Config, fault: bool, now: int, q: Request): Effect {
    match q
    case Verify => Quiet(Cleanup(s, now))
    case Touch => Commit(Cleanup(s, now), Cleanup(s, now), false)
    case Audit => Commit(s, s, false)
    case Register(id, req, victim) => RegisterClient(s, fault, now, id, req, victim)
    case Begin(request, ask) => BeginAuthorization(s, cfg, now, request, ask)
    case Fail(request) => FailAuthorization(s, request)
    case Deny(request) => Quiet(DropPending(s, request))
    case Allow(request, u, code) => Grant(s, fault, now, request, u, code)
    case Join(request, account, invite, code, session) => RegisterAndGrant(s, fault, now, request, account, invite, code, session)
    case Redeem(c, f) => ExchangeCode(s, fault, now, c, f)
    case Rotate(r, f) => ExchangeRefresh(s, fault, now, r, f)
    case Revocation(key) => Revoke(s, key)
    case Login(current, handle) => CreateSession(s, fault, now, current, handle)
    case Logout(handle) => ClearSession(s, handle)
    case Reauth(current, handle, renewed) => Reauthenticate(s, fault, now, current, handle, renewed)
    case IssueInvite(current, handle) => CreateInvite(s, fault, now, current, handle)
    case FirstRun(username, hash, id, mode, open) => Setup(s, cfg, username, hash, id, mode, open)
    case Own(current, a) => Account(s, fault, current, a)
    case NewPassword(current, hash) => ChangePassword(s, fault, current, hash)
    case Manage(current, a) => Admin(s, cfg, fault, current, a)
  }

  /** `t` is a state the request can leave behind, in memory or in the file. */
  predicate Outcome(e: Effect, t: State) {
    match e
    case Quiet(next) => t == next
    case Commit(attempt, onFailure, _) => t == attempt || t == onFailure
  }

  predicate IsExchange(q: Request) {
    q.Redeem? || q.Rotate?
  }

  // ------------------------------------------------------- only exchanges issue

  ghost predicate SubTokens(a: Grants, b: Grants) {
    Sub(a.access, b.access) && Sub(a.refresh, b.refresh) && Sub(a.refreshUsed, b.refreshUsed)
  }

  lemma CommitTokens(s: State, fault: bool, now: int, request: string, u: string, code: string)
    requires CommitAuthorization(s, fault, now, request, u, code).Success?
    ensures var g := CommitAuthorization(s, fault, now, request, u, code).value.grants;
            g == s.grants.(pending := g.pending, codes := g.codes)
  {
    hide AuthorizeResource;
  }

  lemma AdminShrinks(s: State, cfg: Config, current: User, a: AdminAction)
    requires AdminChange(s, cfg, current, a).Some?
    ensures SubTokens(AdminChange(s, cfg, current, a).value.grants, s.grants)
  {
    hide RevokeUser, Retire, RevokeClients, RevokeFamily, RevokeRoutes, DropSessions, CreateUser, LeftBehind, RemoveUser, EnsureRecord;
  }

  lemma AccountShrinks(s: State, current: User, a: AccountAction)
    requires AccountChange(s, current, a).Some?
    ensures SubTokens(AccountChange(s, current, a).value.grants, s.grants)
  {
    hide Retire, RevokeFamily, RevokeRoutes, EnsureRecord, OwnsFamily;
  }

  lemma CleaningTokens(s: State, cfg: Config, fault: bool, now: int, q: Request, t: State)
    requires (q.Verify? || q.Touch? || q.Begin? || q.IssueInvite?) && Outcome(Effects(s, cfg, fault, now, q), t)
    ensures SubTokens(t.grants, s.grants)
  {
    assert SubTokens(Cleanup(s, now).grants, s.grants) by { CleanupShrinks(s.reg, s.grants, now); }
    assert SubTokens(s.grants, s.grants);
    hide Cleanup, SubTokens, BeginAuthorization, CreateInvite;
    match q {
      case Begin(request, ask) => BeginTokens(s, cfg, now, request, ask, t);
      case IssueInvite(current, handle) => InviteTokens(s, fault, now, current, handle, t);
      case _ =>
    }
  }

  lemma BeginTokens(s: State, cfg: Config, now: int, request: string, ask: AuthRequest, t: State)
    requires SubTokens(Cleanup(s, now).grants, s.grants) && Outcome(BeginAuthorization(s, cfg, now, request, ask), t)
    ensures SubTokens(t.grants, s.grants)
  {
    hide Cleanup, MayAskFor, SubTokens;
    TokensAlike(t.grants, Cleanup(s, now).grants, s.grants);
  }

  lemma InviteTokens(s: State, fault: bool, now: int, current: User, handle: string, t: State)
    requires SubTokens(Cleanup(s, now).grants, s.grants) && Outcome(CreateInvite(s, fault, now, current, handle), t)
    ensures SubTokens(t.grants, s.grants)
  {
    hide Cleanup, LiveAdmin;
  }

  lemma TokensAlike(a: Grants, b: Grants, c: Grants)
    requires a.access == b.access && a.refresh == b.refresh && a.refreshUsed == b.refreshUsed && SubTokens(b, c)
    ensures SubTokens(a, c)
  {
  }

  lemma SessionTokens(s: State, cfg: Config, fault: bool, now: int, q: Request, t: State)
    requires q.Audit? || q.Fail? || q.Deny? || q.Revocation? || q.Login? || q.Logout? || q.Reauth? || q.FirstRun?
    requires Outcome(Effects(s, cfg, fault, now, q), t)
    ensures SubTokens(t.grants, s.grants)
  {
    hide LiveAdmin, FamilyOf, CreateUser, RevokeFamily;
  }

  lemma RegisterTokens(s: State, fault: bool, now: int, id: string, req: Registration, victim: string, t: State)
    requires Outcome(RegisterClient(s, fault, now, id, req, victim), t)
    ensures SubTokens(t.grants, s.grants)
  {
    assert SubTokens(Cleanup(s, now).grants, s.grants) by { CleanupShrinks(s.reg, s.grants, now); }
    hide Cleanup, RevokeClients, Evictable, NewClient;
  }

  lemma AccountTokens(s: State, cfg: Config, fault: bool, now: int, q: Request, t: State)
    requires (q.Allow? || q.Own? || q.NewPassword? || q.Manage?) && Outcome(Effects(s, cfg, fault, now, q), t)
    ensures SubTokens(t.grants, s.grants)
  {
    hide CommitAuthorization, AdminChange, AccountChange, RevokeUser, LiveAdmin, LiveUser, RecoveryAllowed;
    match q {
      case Allow(request, u, code) =>
        if CommitAuthorization(s, fault, now, request, u, code).Success? {
          CommitTokens(s, fault, now, request, u, code);
        }
      case Own(current, a) =>
        if AccountChange(s, current, a).Some? {
          AccountShrinks(s, current, a);
        }
      case Manage(current, a) =>
        if AdminChange(s, cfg, current, a).Some? {
          AdminShrinks(s, cfg, current, a);
        }
      case _ =>
    }
  }

  /** Whatever the outcome, a request other than the two exchanges leaves no token that was not there before. */
  lemma OnlyExchangesIssue(s: State, cfg: Config, fault: bool, now: int, q: Request, t: State)
    requires !IsExchange(q) && Outcome(Effects(s, cfg, fault, now, q), t)
    ensures SubTokens(t.grants, s.grants)
  {
    hide RegisterClient, RegisterAndGrant, BeginAuthorization, FailAuthorization, DropPending, Grant, ExchangeCode, ExchangeRefresh,
         Revoke, CreateSession, ClearSession, Reauthenticate, CreateInvite, Setup, Account, ChangePassword, Admin, Cleanup, Outcome, SubTokens;
    match q {
      case Register(id, req, victim) => RegisterTokens(s, fault, now, id, req, victim, t);
      case Join(request, account, invite, code, session) => JoinTokens(s, fault, now, request, account, invite, code, session, t);
      case Verify => CleaningTokens(s, cfg, fault, now, q, t);
      case Touch => CleaningTokens(s, cfg, fault, now, q, t);
      case Begin(_, _) => CleaningTokens(s, cfg, fault, now, q, t);
      case IssueInvite(_, _) => CleaningTokens(s, cfg, fault, now, q, t);
      case Allow(_, _, _) => AccountTokens(s, cfg, fault, now, q, t);
      case Own(_, _) => AccountTokens(s, cfg, fault, now, q, t);
      case NewPassword(_, _) => AccountTokens(s, cfg, fault, now, q, t);
      case Manage(_, _) => AccountTokens(s, cfg, fault, now, q, t);
      case _ => SessionTokens(s, cfg, fault, now, q, t);
    }
  }

  lemma JoinTokens(s: State, fault: bool, now: int, request: string, user: User, invite: string,
                   code: string, session: string, t: State)
    requires Outcome(RegisterAndGrant(s, fault, now, request, user, invite, code, session), t)
    ensures SubTokens(t.grants, s.grants)
  {
    hide CommitAuthorization, NormalizeUsername, RegistrationOpen, ConsumeInvite;
    var n := NormalizeUsername(user.username);
    var web := ConsumeInvite(s, invite, now);
    if n.Some? && web.Some? {
      var joined := s.(reg := AddUser(s.reg, user, n.value), web := web.value);
      if CommitAuthorization(joined, fault, now, request, user.id, code).Success? {
        CommitTokens(joined, fault, now, request, user.id, code);
      }
    }
  }
}
