/** Two things that once done stay done, in whatever process: a device's key is bound to its route,
    and an invitation is used up. */
module RelaySeals {
  import opened Wrappers
  import opened RelayState
  import opened RelayOps
  import opened RelayInvariant
  import opened RelayRequests
  import opened RelaySafety
  import opened RelayTokens
  import opened RelaySteps
  import opened RelayRuns
  import opened RelayConsent
  import opened RelayAccounts
  import opened Resources
  import opened StateFile

  // ------------------------------------------------------------- request by request

  /** A key that is recorded for a route, or the route retired; and an invitation that is gone. */
  datatype Seal = KeyBound(route: Route, key: PublicKey) | InviteUsed(handle: string)

  predicate Holds(records: map<Route, DeviceRecord>, retired: map<Route, bool>, invites: map<string, Invite>, seal: Seal) {
    match seal
    case KeyBound(r, key) => On(retired, r) || (r in records && records[r].key == key)
    case InviteUsed(h) => h !in invites
  }

  predicate StateHolds(s: State, seal: Seal) {
    Holds(s.reg.records, s.reg.retired, s.web.invites, seal)
  }

  predicate ImageHolds(i: Image, seal: Seal) {
    Holds(i.records, i.retired, i.invites, seal)
  }

  /** The seal is one that was made: a key there is, an invitation that was drawn. */
  predicate Made(seal: Seal, drawn: set<string>) {
    match seal
    case KeyBound(_, key) => key != NoKey
    case InviteUsed(h) => h in drawn
  }

  /** No route loses its key but by retirement, no retirement is undone, and no invitation is new but those named. */
  ghost predicate Keeps(a: State, b: State, names: set<string>) {
    KeysKept(a.reg, b.reg) && b.web.invites.Keys <= a.web.invites.Keys + names
  }

  ghost predicate KeysKept(a: Registry, b: Registry) {
    (forall r :: On(a.retired, r) ==> On(b.retired, r)) &&
    (forall r :: r in a.records && a.records[r].key != NoKey ==> On(b.retired, r) || (r in b.records && b.records[r].key == a.records[r].key))
  }

  lemma SameKeys(a: Registry, b: Registry)
    requires b.records == a.records && b.retired == a.retired
    ensures KeysKept(a, b)
  {
  }

  lemma KeepsSeal(a: State, b: State, names: set<string>, seal: Seal, drawn: set<string>)
    requires Keeps(a, b, names) && StateHolds(a, seal) && Made(seal, drawn) && names !! drawn
    ensures StateHolds(b, seal)
  {
  }

  lemma BystanderKeeps(s: State, cfg: Config, fault: bool, now: int, q: Request, t: State)
    requires Bystander(q) && Outcome(Effects(s, cfg, fault, now, q), t)
    ensures Keeps(s, t, Names(q))
  {
    BystandersRegistry(s, cfg, fault, now, q, t) by { hide Effects, Outcome, Bystander; }
    CleanedKeys(s, now);
    SameKeys(s.reg, s.reg);
    BystanderInvites(s, cfg, fault, now, q, t);
    hide Effects, Outcome, Cleanup, KeysKept;
  }

  lemma CleanedKeys(s: State, now: int)
    ensures KeysKept(s.reg, Cleanup(s, now).reg) && Cleanup(s, now).web.invites.Keys <= s.web.invites.Keys
  {
    hide CleanGrants, LiveSessions, FreshClients;
  }

  lemma BystanderInvites(s: State, cfg: Config, fault: bool, now: int, q: Request, t: State)
    requires Bystander(q) && Outcome(Effects(s, cfg, fault, now, q), t)
    ensures t.web.invites.Keys <= s.web.invites.Keys + Names(q)
  {
    if q.Redeem? || q.Rotate? || q.Begin? {
      ExchangeInvites(s, cfg, fault, now, q, t);
    } else {
      SessionInvites(s, cfg, fault, now, q, t);
    }
  }

  lemma ExchangeInvites(s: State, cfg: Config, fault: bool, now: int, q: Request, t: State)
    requires (q.Redeem? || q.Rotate? || q.Begin?) && Outcome(Effects(s, cfg, fault, now, q), t)
    ensures t.web.invites.Keys <= s.web.invites.Keys + Names(q)
  {
    CleanedKeys(s, now);
    hide Cleanup, KeysKept, RevokeFamily, MayAskFor, CodeBound, OwnedByUser, ApprovedClient, Presents, Replays, Issue, Names;
  }

  lemma SessionInvites(s: State, cfg: Config, fault: bool, now: int, q: Request, t: State)
    requires Bystander(q) && !q.Redeem? && !q.Rotate? && !q.Begin? && Outcome(Effects(s, cfg, fault, now, q), t)
    ensures t.web.invites.Keys <= s.web.invites.Keys + Names(q)
  {
    hide Effects, Cleanup, KeysKept, AdminLive, Live, WithoutToken;
    CleanedKeys(s, now);
    match q {
      case IssueInvite(current, h) => InvitesExactly(s, cfg, fault, now, current, h);
      case Revocation(key) => RevokeExactly(s, cfg, fault, now, key);
      case Reauth(current, h, renewed) => ReauthExactly(s, cfg, fault, now, current, h, renewed);
      case Login(current, h) => SessionsExactly(s, cfg, fault, now, current, h);
      case Logout(h) => SessionsExactly(s, cfg, fault, now, User("", "", "", false, false), h);
      case _ => PlainInvites(s, cfg, fault, now, q, t);
    }
  }

  lemma PlainInvites(s: State, cfg: Config, fault: bool, now: int, q: Request, t: State)
    requires (q.Verify? || q.Touch? || q.Audit? || q.Fail? || q.Deny?) && Outcome(Effects(s, cfg, fault, now, q), t)
    ensures t.web.invites.Keys <= s.web.invites.Keys
  {
    CleanedKeys(s, now);
    hide Cleanup, KeysKept;
  }

  lemma RegisterKept(s: State, cfg: Config, fault: bool, now: int, q: Request, t: State)
    requires q.Register? && Outcome(Effects(s, cfg, fault, now, q), t)
    ensures Keeps(s, t, Names(q))
  {
    RegisterExactly(s, cfg, fault, now, q.id, q.req, q.victim);
    CleanedKeys(s, now);
    SameKeys(s.reg, s.reg);
    hide Effects, Cleanup, MayRegister, WithoutClient, KeysKept;
    if t.reg != s.reg { SameKeysAs(s.reg, Cleanup(s, now).reg, t.reg); }
  }

  lemma SameKeysAs(a: Registry, c: Registry, b: Registry)
    requires KeysKept(a, c) && b.records == c.records && b.retired == c.retired
    ensures KeysKept(a, b)
  {
  }

  /** Authorizing binds a key where there was none, and changes none that was there. */
  lemma AuthorizedKeys(s: State, fault: bool, mid: Registry, b: Registry, u: string, c: string, client: Client, resource: Resource)
    requires MayAuthorize(s, fault, u, c, resource) && c in s.reg.clients && Authorized(s.reg, mid, u, c, resource) && Noted(mid, b, u, client, resource)
    ensures KeysKept(s.reg, b)
  {
    MidKeys(s, fault, mid, u, c, resource);
    NotedKeys(mid, b, u, client, resource);
    assert b.retired == s.reg.retired && mid.retired == s.reg.retired;
    hide Authorized, Noted, MayAuthorize;
  }

  lemma OtherRecords(a: map<Route, DeviceRecord>, b: map<Route, DeviceRecord>, r: Route, q: Route)
    requires a - {r} == b - {r} && q != r && q in a
    ensures q in b && b[q] == a[q]
  {
    assert q in (a - {r}) && (a - {r})[q] == a[q] && (b - {r})[q] == b[q];
  }

  lemma MidKeys(s: State, fault: bool, mid: Registry, u: string, c: string, resource: Resource)
    requires MayAuthorize(s, fault, u, c, resource) && c in s.reg.clients && Authorized(s.reg, mid, u, c, resource)
    ensures forall q :: q in s.reg.records && s.reg.records[q].key != NoKey ==> q in mid.records && mid.records[q].key == s.reg.records[q].key
  {
    hide RouteFits;
    forall q | q in s.reg.records && s.reg.records[q].key != NoKey ensures q in mid.records && mid.records[q].key == s.reg.records[q].key {
      if resource.Agent? && q != resource.device {
        OtherRecords(s.reg.records, mid.records, resource.device, q);
      }
    }
  }

  lemma NotedKeys(mid: Registry, b: Registry, u: string, client: Client, resource: Resource)
    requires Noted(mid, b, u, client, resource)
    ensures forall q :: q in mid.records && mid.records[q].key != NoKey ==> q in b.records && b.records[q].key == mid.records[q].key
  {
    forall q | q in mid.records && mid.records[q].key != NoKey ensures q in b.records && b.records[q].key == mid.records[q].key {
      if resource.Agent? && q != resource.device && client.announcesName {
        OtherRecords(mid.records, b.records, resource.device, q);
      }
    }
  }

  lemma ApprovedKeys(s: State, fault: bool, now: int, request: string, u: string, code: string, t: State)
    requires MayAllow(s, fault, now, request, u) && Approves(s, t, now, request, u, code)
    ensures KeysKept(s.reg, t.reg) && t.web == s.web
  {
    var p := s.grants.pending[request];
    var client := s.reg.clients[p.client];
    var mid :| Authorized(s.reg, mid, u, p.client, p.resource) && Noted(mid, t.reg.(clients := mid.clients), u, client, p.resource);
    AuthorizedKeys(s, fault, mid, t.reg.(clients := mid.clients), u, p.client, client, p.resource);
    hide Authorized, Noted, MayAuthorize, Approves;
  }

  lemma AllowKept(s: State, cfg: Config, fault: bool, now: int, q: Request, t: State)
    requires q.Allow? && Outcome(Effects(s, cfg, fault, now, q), t)
    ensures Keeps(s, t, Names(q))
  {
    AllowExactly(s, cfg, fault, now, q.request, q.user, q.code);
    SameKeys(s.reg, s.reg);
    hide Effects, MayAllow, Approves, KeysKept, InTime, Standing;
    if MayAllow(s, fault, now, q.request, q.user) && t != s {
      ApprovedKeys(s, fault, now, q.request, q.user, q.code, t);
    }
  }

  lemma JoinKept(s: State, cfg: Config, fault: bool, now: int, q: Request, t: State)
    requires q.Join? && Outcome(Effects(s, cfg, fault, now, q), t)
    ensures Keeps(s, t, Names(q))
  {
    JoinExactly(s, cfg, fault, now, q.request, q.account, q.invite, q.code, q.session);
    SameKeys(s.reg, s.reg);
    hide Effects, MayAllow, Approves, KeysKept, InTime, Standing, NormalizeUsername;
    if MayEnroll(s, now, q.account, q.invite) && MayAllow(Enrolling(s, q.account, q.invite), fault, now, q.request, q.account.id) && t != s {
      var j := Enrolling(s, q.account, q.invite);
      ApprovedKeys(j, fault, now, q.request, q.account.id, q.code, t.(web := j.web));
      SameKeysFrom(s.reg, j.reg, t.reg);
    }
  }

  lemma SameKeysFrom(a: Registry, j: Registry, b: Registry)
    requires KeysKept(j, b) && j.records == a.records && j.retired == a.retired
    ensures KeysKept(a, b)
  {
  }

  lemma PeopleKept(s: State, cfg: Config, fault: bool, now: int, q: Request, t: State)
    requires (q.FirstRun? || q.NewPassword?) && Outcome(Effects(s, cfg, fault, now, q), t)
    ensures Keeps(s, t, Names(q))
  {
    if q.FirstRun? {
      CreationsExactly(s, cfg, fault, now, User("", "", "", false, false), q.username, q.hash, q.id, q.mode, q.open);
    } else {
      NewPasswordExactly(s, cfg, fault, now, q.current, q.newHash);
    }
    hide Effects, NormalizeUsername, KeysKept;
    SameKeys(s.reg, t.reg);
  }

  lemma RetiredKeys(s: State, t: State, routes: set<Route>)
    requires Retires(s, t, routes)
    ensures KeysKept(s.reg, t.reg) && t.web == s.web
  {
    hide Unserved, HoldsKey;
  }

  lemma SwitchedKeys(s: State, t: State, r: Route, off: bool, owner: string)
    requires DeviceSwitched(s, t, r, off, owner)
    ensures KeysKept(s.reg, t.reg) && t.web == s.web
  {
    hide RoutesCut;
  }

  lemma RecordedKeys(s: State, t: State, r: Route, owner: string)
    requires Recorded(s, t, r, owner)
    ensures KeysKept(s.reg, t.reg) && t.web == s.web
  {
  }

  lemma HolderKept(s: State, current: User, a: AccountAction)
    requires AccountChange(s, current, a).Some?
    ensures var t := AccountChange(s, current, a).value; KeysKept(s.reg, t.reg) && t.web.invites == s.web.invites
  {
    var t := AccountChange(s, current, a).value;
    SameKeys(s.reg, s.reg);
    match a {
      case OwnRename(r, valid) =>
        OwnExactly(s, current, r, None, valid);
        hide AccountChange, Recorded;
        RecordedKeys(s, t, r, current.id);
      case OwnDisable(r, toggle) =>
        OwnExactly(s, current, r, toggle, false);
        assert toggle.Some?;
        hide AccountChange, DeviceSwitched;
        SwitchedKeys(s, t, r, toggle.value, current.id);
      case OwnRevoke(r) =>
        OwnExactly(s, current, r, None, false);
        hide AccountChange, Retires;
        RetiredKeys(s, t, {r});
      case OwnRevokeFamily(family) =>
        OwnSessionsExactly(s, current, family, "");
        hide AccountChange, KeysKept;
      case OwnLogout(h) =>
        OwnSessionsExactly(s, current, "", h);
        hide AccountChange, KeysKept;
      case OwnLogoutOthers(h) =>
        OwnSessionsExactly(s, current, "", h);
        hide AccountChange, KeysKept;
      case OwnUnknown =>
    }
  }

  lemma AdminKept(s: State, cfg: Config, current: User, a: AdminAction)
    requires AdminChange(s, cfg, current, a).Some?
    ensures var t := AdminChange(s, cfg, current, a).value; KeysKept(s.reg, t.reg) && t.web.invites.Keys <= s.web.invites.Keys
  {
    if a.DisableDevice? || a.RevokeDevice? || a.RenameDevice? {
      AdminDeviceKept(s, cfg, current, a);
    } else if a.DeleteUser? {
      DeletionKept(s, cfg, current, a.user);
    } else {
      AdminOtherKept(s, cfg, current, a);
    }
  }

  lemma AdminDeviceKept(s: State, cfg: Config, current: User, a: AdminAction)
    requires AdminChange(s, cfg, current, a).Some? && (a.DisableDevice? || a.RevokeDevice? || a.RenameDevice?)
    ensures var t := AdminChange(s, cfg, current, a).value; KeysKept(s.reg, t.reg) && t.web == s.web
  {
    hide AdminChange, DeviceSwitched, Retires, Recorded, KeysKept;
    var t := AdminChange(s, cfg, current, a).value;
    if a.DisableDevice? {
      DeviceActionsExactly(s, cfg, current, a.route, a.toggle, false);
      SwitchedKeys(s, t, a.route, a.toggle.value, s.reg.devices[a.route]);
    } else if a.RevokeDevice? {
      DeviceActionsExactly(s, cfg, current, a.route, None, false);
      RetiredKeys(s, t, {a.route});
    } else {
      DeviceActionsExactly(s, cfg, current, a.route, None, a.valid);
      RecordedKeys(s, t, a.route, s.reg.devices[a.route]);
    }
  }

  lemma DeletionKept(s: State, cfg: Config, current: User, u: string)
    requires AdminChange(s, cfg, current, DeleteUser(u)).Some?
    ensures var t := AdminChange(s, cfg, current, DeleteUser(u)).value; KeysKept(s.reg, t.reg) && t.web.invites == s.web.invites
  {
    DeletionExactly(s, cfg, current, u);
    var t := AdminChange(s, cfg, current, DeleteUser(u)).value;
    hide AdminChange, Retires, KeysKept, RoutesLeft, Unlisted;
    var m: State, n: State :| m == s.(reg := m.reg) && Unlisted(s.reg, m.reg, u) && Retires(m, n, RoutesLeft(s.reg, u)) &&
                              t.reg == n.reg && t.switches == n.switches && SignedOut(n, t, u);
    RetiredKeys(m, n, RoutesLeft(s.reg, u));
    UnlistedKeys(s.reg, m.reg, u);
    SameKeysFrom(s.reg, m.reg, t.reg);
  }

  lemma UnlistedKeys(a: Registry, b: Registry, u: string)
    requires Unlisted(a, b, u)
    ensures b.records == a.records && b.retired == a.retired
  {
  }

  lemma AdminOtherKept(s: State, cfg: Config, current: User, a: AdminAction)
    requires AdminChange(s, cfg, current, a).Some? && !a.DisableDevice? && !a.RevokeDevice? && !a.RenameDevice? && !a.DeleteUser?
    ensures var t := AdminChange(s, cfg, current, a).value; KeysKept(s.reg, t.reg) && t.web.invites.Keys <= s.web.invites.Keys
  {
    AdminSame(s, cfg, current, a);
    SameKeys(s.reg, AdminChange(s, cfg, current, a).value.reg);
    hide AdminChange, KeysKept;
  }

  lemma AdminSame(s: State, cfg: Config, current: User, a: AdminAction)
    requires AdminChange(s, cfg, current, a).Some? && !a.DisableDevice? && !a.RevokeDevice? && !a.RenameDevice? && !a.DeleteUser?
    ensures var t := AdminChange(s, cfg, current, a).value;
            t.reg.records == s.reg.records && t.reg.retired == s.reg.retired && t.web.invites.Keys <= s.web.invites.Keys
  {
    if a.RotatePassword? {
      UserActionsExactly(s, cfg, current, a.user, a.hash, None);
      hide AdminChange;
    } else if a.DisableUser? {
      UserActionsExactly(s, cfg, current, a.user, None, a.toggle);
      hide AdminChange;
    } else if a.RevokeClientAction? {
      RevocationsExactly(s, cfg, current, a.client, "");
      hide AdminChange;
    } else if a.CreateAccount? {
      CreationsExactly(s, cfg, false, 0, current, a.username, a.hash, a.id, Private, false);
      hide AdminChange, NormalizeUsername;
    } else {
      AdminPlain(s, cfg, current, a);
      hide AdminChange;
    }
  }

  lemma AdminPlain(s: State, cfg: Config, current: User, a: AdminAction)
    requires AdminChange(s, cfg, current, a).Some? && !a.DisableDevice? && !a.RevokeDevice? && !a.RenameDevice? && !a.DeleteUser?
    requires !a.RotatePassword? && !a.DisableUser? && !a.RevokeClientAction? && !a.CreateAccount?
    ensures var t := AdminChange(s, cfg, current, a).value; t.reg == s.reg && t.web.invites.Keys <= s.web.invites.Keys
  {
    hide RevokeFamily, DropSession;
  }

  /** Whatever the request and however it ends. */
  lemma RequestKept(s: State, cfg: Config, fault: bool, now: int, q: Request, t: State)
    requires Outcome(Effects(s, cfg, fault, now, q), t)
    ensures Keeps(s, t, Names(q))
  {
    if Bystander(q) {
      BystanderKeeps(s, cfg, fault, now, q, t);
    } else {
      SameKeys(s.reg, s.reg);
      match q {
        case Register(_, _, _) => RegisterKept(s, cfg, fault, now, q, t);
        case Allow(_, _, _) => AllowKept(s, cfg, fault, now, q, t);
        case Join(_, _, _, _, _) => JoinKept(s, cfg, fault, now, q, t);
        case Own(current, a) =>
          HolderExactly(s, cfg, fault, now, current, a);
          hide Effects, AccountChange, KeysKept;
          if AccountChange(s, current, a).Some? { HolderKept(s, current, a); }
        case Manage(current, a) =>
          AdminExactly(s, cfg, fault, now, current, a);
          hide Effects, AdminChange, KeysKept;
          if AdminChange(s, cfg, current, a).Some? { AdminKept(s, cfg, current, a); }
        case _ => PeopleKept(s, cfg, fault, now, q, t);
      }
    }
    hide Effects, Keeps;
  }

  // ------------------------------------------------------------------- whole runs

  /** In memory and in every file a start may find. */
  ghost predicate Sealed(r: Relay, seal: Seal) {
    StateHolds(r.st, seal) && FilesHold(r.disk, seal)
  }

  ghost predicate FilesHold(d: Disk, seal: Seal) {
    forall f :: f in Files(d) ==> FileHolds(f, seal)
  }

  /** Where there is no file there is no invitation, but no key either. */
  predicate FileHolds(f: Option<Image>, seal: Seal) {
    if f.Some? then ImageHolds(f.value, seal) else seal.InviteUsed?
  }

  lemma ImageOfHolds(s: State, seal: Seal)
    ensures ImageHolds(ImageOf(s), seal) == StateHolds(s, seal)
  {
  }

  lemma SettleSealed(r: Relay, e: Effect, o: SaveOutcome, seal: Seal)
    requires FilesHold(r.disk, seal) && StateHolds(Unsaved(e), seal) && (e.Commit? ==> StateHolds(e.attempt, seal))
    ensures Sealed(Settle(r, e, o), seal)
  {
    hide Files, DiskAfter, Holds, ImageOf;
    if e.Commit? {
      var t := if r.fault then Stopped(e.attempt) else e.attempt;
      assert StateHolds(t, seal);
      ImageOfHolds(t, seal);
      FilesAfter(r.disk, ImageOf(t), o);
    }
  }

  lemma ServeSealed(r: Relay, now: int, q: Request, o: SaveOutcome, seal: Seal)
    requires Sealed(r, seal) && Made(seal, r.drawn) && Draws(q, r.drawn)
    ensures Sealed(ServeRequest(r, now, q, o), seal)
  {
    hide *;
    var e := Effects(r.st, r.cfg, r.fault, now, q);
    NamesApart(q, r.drawn);
    Outcomes(e);
    SealedParts(r, seal);
    RequestKept(r.st, r.cfg, r.fault, now, q, Unsaved(e));
    KeepsSeal(r.st, Unsaved(e), Names(q), seal, r.drawn);
    if e.Commit? {
      RequestKept(r.st, r.cfg, r.fault, now, q, e.attempt);
      KeepsSeal(r.st, e.attempt, Names(q), seal, r.drawn);
    }
    SettleSealed(r, e, o, seal);
    ServedAsSettled(r, now, q, o, seal);
  }

  lemma NamesApart(q: Request, drawn: set<string>)
    requires Draws(q, drawn)
    ensures Names(q) !! drawn
  {
  }

  lemma Outcomes(e: Effect)
    ensures Outcome(e, Unsaved(e)) && (e.Commit? ==> Outcome(e, e.attempt))
  {
  }

  lemma SealedParts(r: Relay, seal: Seal)
    requires Sealed(r, seal)
    ensures StateHolds(r.st, seal) && FilesHold(r.disk, seal)
  {
    hide StateHolds, FilesHold;
  }

  lemma ServedAsSettled(r: Relay, now: int, q: Request, o: SaveOutcome, seal: Seal)
    requires Sealed(Settle(r, Effects(r.st, r.cfg, r.fault, now, q), o), seal)
    ensures Sealed(ServeRequest(r, now, q, o), seal)
  {
    hide Effects, Settle, StateHolds, FilesHold, Names, NewlyCommitted, NewLineage;
  }

  lemma LoadedSealed(i: Image, b: Boot, now: int, seal: Seal)
    requires UsersAccepted(i.users) && ImageHolds(i, seal)
    ensures StateHolds(Cleanup(Loaded(i, b), now), seal)
  {
    var l := Loaded(i, b);
    assert l.web.invites == i.invites && l.reg.retired == i.retired by { hide EnsureAll, IndexOf, Adopt, UsersAccepted; }
    assert forall r :: r in i.records ==> r in l.reg.records && l.reg.records[r].key == i.records[r].key by { hide IndexOf, Adopt, UsersAccepted; }
    CleanedKeys(l, now);
    assert Cleanup(l, now).reg.records == l.reg.records && Cleanup(l, now).reg.retired == l.reg.retired by { hide CleanGrants, LiveSessions, LiveInvites, FreshClients; }
    hide Loaded, Cleanup, KeysKept;
  }

  lemma FirstAccountSealed(r: Relay, down: Relay, b: Boot, seal: Seal)
    requires Sealed(r, seal) && StateHolds(down.st, seal)
    ensures Sealed(FirstAccount(r, down, b), seal)
  {
    hide StateHolds, FilesHold, CreateUser, Settle, AwaitSetup, FirstAccount;
    var s := AwaitSetup(r.st, b.setupToken);
    AwaitedSeal(r.st, b.setupToken, seal);
    FirstAccountCases(r, down, b);
    if b.owner.Some? && CreateUser(s.reg, b.cfg.ownerUsername, b.owner.value, b.ownerId, true).Some? {
      var reg := CreateUser(s.reg, b.cfg.ownerUsername, b.owner.value, b.ownerId, true).value;
      CreateUserShape(s.reg, b.cfg.ownerUsername, b.owner.value, b.ownerId, true);
      SameSeal(s, s.(reg := reg), seal);
      SettleSealed(r, Commit(s.(reg := reg), s, false), b.second, seal);
    }
  }

  lemma AwaitedSeal(s: State, token: bool, seal: Seal)
    requires StateHolds(s, seal)
    ensures StateHolds(AwaitSetup(s, token), seal)
  {
  }

  lemma SameSeal(s: State, t: State, seal: Seal)
    requires StateHolds(s, seal) && t.reg.records == s.reg.records && t.reg.retired == s.reg.retired && t.web == s.web
    ensures StateHolds(t, seal)
  {
  }

  lemma ReadSealed(r: Relay, b: Boot, seal: Seal)
    requires Sealed(r, seal) && r.disk.file.Some? && UsersAccepted(r.disk.file.value.users)
    ensures Sealed(Read(r, b), seal)
  {
    var i := r.disk.file.value;
    assert ImageHolds(i, seal) by { assert r.disk.file in Files(r.disk); }
    var s := Cleanup(Loaded(i, b), b.now);
    var begun := r.(up := true, cfg := b.cfg, fault := r.disk.mark.Dirty?, st := s);
    hide UsersAccepted, Cleanup, Loaded, StateHolds, ImageHolds, FilesHold, Settle;
    LoadedSealed(i, b, b.now, seal);
    SettleSealed(begun, Commit(s, s, false), b.first, seal);
  }

  lemma StartSealed(base: Origin, r: Relay, b: Boot, seal: Seal)
    requires SoundDisk(r.disk, r.drawn) && Sealed(r, seal) && (r.disk.file.Some? ==> Writable(r.disk.file.value))
    ensures Sealed(Start(base, r, b), seal)
  {
    assert r.disk.file in Files(r.disk);
    assert r.disk.file.None? ==> StateHolds(Blank(b), seal);
    hide SoundDisk, StateHolds, FilesHold, Start, Read, FirstAccount, Writable, UsersAccepted, Blank;
    StartCases(base, r, b);
    if r.disk.file.None? {
      FirstAccountSealed(r.(up := true, cfg := b.cfg, fault := r.disk.mark.Dirty?, st := Blank(b)), r.(up := false), b, seal);
    } else {
      ReadSealed(r, b, seal);
      FirstAccountSealed(Read(r, b), r.(up := false), b, seal);
      SealedDown(r, Read(r, b).disk, seal);
    }
  }

  lemma SealedDown(r: Relay, d: Disk, seal: Seal)
    requires StateHolds(r.st, seal) && FilesHold(d, seal)
    ensures Sealed(r.(up := false, disk := d), seal)
  {
    hide StateHolds, FilesHold;
  }

  lemma NextSealed(base: Origin, r: Relay, ev: Event, seal: Seal)
    requires Sound(r) && Sealed(r, seal) && Made(seal, r.drawn) && Allowed(r, ev) && (r.disk.file.Some? ==> Writable(r.disk.file.value))
    ensures Sealed(Next(base, r, ev), seal) && Made(seal, Next(base, r, ev).drawn)
  {
    hide SoundState, SoundDisk, StateHolds, FileHolds, Writable, ServeRequest, Start, WellFormed, Draws, Files, Findable, FileDurable;
    match ev {
      case Serve(now, q, o) =>
        ServeSealed(r, now, q, o, seal);
        ServeDraws(r, now, q, o);
      case Restart(b) =>
        StartSealed(base, r, b, seal);
        StartDrawn(base, r, b);
      case LosePower(x) => LostPowerFiles(r.disk, x);
    }
  }

  lemma ServeDraws(r: Relay, now: int, q: Request, o: SaveOutcome)
    ensures r.drawn <= ServeRequest(r, now, q, o).drawn
  {
    hide Effects, Settle, Names, NewlyCommitted, NewLineage;
  }

  /** Over any run, with restarts and power failures: once it holds in memory and in every file a
      start may find, it holds for ever. */
  lemma {:induction false} SealedForever(base: Origin, r: Relay, evs: seq<Event>, t: Relay, seal: Seal)
    requires Sound(r) && Sealed(r, seal) && Made(seal, r.drawn) && Reaches(base, r, evs, t)
    ensures Sealed(t, seal)
    decreases |evs|
  {
    hide Sound, Next, Allowed, Writable, Sealed, Made;
    if evs != [] {
      NextSound(base, r, evs[0]);
      NextSealed(base, r, evs[0], seal);
      SealedForever(base, Next(base, r, evs[0]), evs[1..], t, seal);
    }
  }

  // ------------------------------------------------------------------- what follows

  /** A save that succeeds leaves its own state everywhere. */
  lemma SavedSeals(r: Relay, now: int, q: Request, seal: Seal)
    requires var e := Effects(r.st, r.cfg, r.fault, now, q); !r.fault && e.Commit? && StateHolds(e.attempt, seal)
    ensures Sealed(ServeRequest(r, now, q, Saved), seal)
  {
    var e := Effects(r.st, r.cfg, r.fault, now, q);
    ImageOfHolds(e.attempt, seal);
    FilesAfter(r.disk, ImageOf(e.attempt), Saved);
    hide Effects, ImageOf, Names, NewlyCommitted, NewLineage, Files, Holds;
  }

  /** An invitation for one admits one: once an account has joined by it, with registration closed,
      and that is saved, no later request by that invitation admits anybody while registration is
      closed, in this process or after any restarts and power failures. */
  lemma AdmitsOnce(base: Origin, r: Relay, now: int, request: string, user: User, invite: string, code: string, session: string,
                   evs: seq<Event>, t: Relay, later: int, q: Request)
    requires Sound(r) && !r.fault && !r.st.switches.registration && invite in r.drawn && invite in r.st.web.invites && r.st.web.invites[invite].uses == 1
    requires MayEnroll(r.st, now, user, invite) && MayAllow(Enrolling(r.st, user, invite), false, now, request, user.id)
    requires Reaches(base, r, [Serve(now, Join(request, user, invite, code, session), Saved)] + evs, t)
    requires q.Join? && q.invite == invite && !t.st.switches.registration
    ensures var n := ServeRequest(r, now, Join(request, user, invite, code, session), Saved); user.id in n.st.reg.users && invite !in n.st.web.invites
    ensures Effects(t.st, t.cfg, t.fault, later, q) == Quiet(t.st)
  {
    var join := Join(request, user, invite, code, session);
    var ev := Serve(now, join, Saved);
    assert ([ev] + evs)[0] == ev && ([ev] + evs)[1..] == evs;
    JoinedUses(r, now, request, user, invite, code, session);
    FirstStep(base, r, ev, evs, t) by { hide Sound; }
    hide Sound, Reaches, Effects, MayEnroll, MayAllow, Enrolling, ServeRequest;
    SavedSeals(r, now, join, InviteUsed(invite));
    NextSound(base, r, ev);
    var n := Next(base, r, ev);
    SealedForever(base, n, evs, t, InviteUsed(invite)) by { ServedSealed(base, r, now, join, InviteUsed(invite)); }
    NotInvited(t, later, q, invite);
  }

  lemma FirstStep(base: Origin, r: Relay, ev: Event, evs: seq<Event>, t: Relay)
    requires Reaches(base, r, [ev] + evs, t)
    ensures Allowed(r, ev) && (r.disk.file.Some? ==> Writable(r.disk.file.value)) && Reaches(base, Next(base, r, ev), evs, t)
  {
    hide Allowed, Writable, Next;
    assert ([ev] + evs)[0] == ev && ([ev] + evs)[1..] == evs;
  }

  lemma JoinedUses(r: Relay, now: int, request: string, user: User, invite: string, code: string, session: string)
    requires !r.fault && !r.st.switches.registration && invite in r.st.web.invites && r.st.web.invites[invite].uses == 1
    requires MayEnroll(r.st, now, user, invite) && MayAllow(Enrolling(r.st, user, invite), false, now, request, user.id)
    ensures var e := Effects(r.st, r.cfg, r.fault, now, Join(request, user, invite, code, session));
            e.Commit? && !e.recovery && invite !in e.attempt.web.invites && user.id in e.attempt.reg.users
    ensures ServeRequest(r, now, Join(request, user, invite, code, session), Saved).st ==
            Effects(r.st, r.cfg, r.fault, now, Join(request, user, invite, code, session)).attempt
  {
    JoinExactly(r.st, r.cfg, r.fault, now, request, user, invite, code, session);
    var j := Enrolling(r.st, user, invite);
    var e := Effects(r.st, r.cfg, r.fault, now, Join(request, user, invite, code, session));
    assert user.id in j.reg.users && invite !in j.web.invites by { hide MayAllow, Effects, Approves, NormalizeUsername; }
    AllowedStands(j, false, now, request, user.id) by { hide MayEnroll, Enrolling, Effects, Approves, NormalizeUsername; }
    hide MayEnroll, MayAllow, Enrolling, Effects, NormalizeUsername, ImageOf, DiskAfter, NewlyCommitted, NewLineage, Names;
    ApprovedUsers(j, e.attempt.(web := j.web), now, request, user.id, code);
  }

  lemma ApprovedUsers(s: State, t: State, now: int, request: string, u: string, code: string)
    requires request in s.grants.pending && s.grants.pending[request].client in s.reg.clients && Approves(s, t, now, request, u, code)
    ensures t.reg.users == s.reg.users
  {
    var p := s.grants.pending[request];
    var client := s.reg.clients[p.client];
    var mid :| Authorized(s.reg, mid, u, p.client, p.resource) && Noted(mid, t.reg.(clients := mid.clients), u, client, p.resource);
    assert mid.users == s.reg.users && t.reg.(clients := mid.clients).users == mid.users;
  }

  lemma ServedSealed(base: Origin, r: Relay, now: int, q: Request, seal: Seal)
    requires (r.disk.file.Some? ==> Writable(r.disk.file.value)) && Sealed(ServeRequest(r, now, q, Saved), seal) && Made(seal, r.drawn)
    ensures var n := Next(base, r, Serve(now, q, Saved)); Sealed(n, seal) && Made(seal, n.drawn)
  {
    ServeDraws(r, now, q, Saved);
    hide Writable, ServeRequest, FileDurable, StateHolds, FilesHold;
  }

  lemma NotInvited(t: Relay, later: int, q: Request, invite: string)
    requires StateHolds(t.st, InviteUsed(invite)) && q.Join? && q.invite == invite && !t.st.switches.registration
    ensures Effects(t.st, t.cfg, t.fault, later, q) == Quiet(t.st)
  {
    JoinExactly(t.st, t.cfg, t.fault, later, q.request, q.account, q.invite, q.code, q.session);
    hide Effects, MayAllow, Approves, NormalizeUsername;
  }

  /** The client stands for the immutable route with another key than this, or with none. */
  predicate AnotherKey(reg: Registry, c: string, key: PublicKey) {
    c !in reg.clients || reg.clients[c].deviceKey != key
  }

  /** While a key is recorded for the route, or once the route is retired, no client with another
      key or none may be authorized for its Agent. */
  lemma KeyRefusesOthers(s: State, fault: bool, u: string, c: string, id: string, key: PublicKey)
    requires StateHolds(s, KeyBound(Immutable(id), key)) && key != NoKey && AnotherKey(s.reg, c, key)
    ensures !MayAuthorize(s, fault, u, c, Agent(Immutable(id)))
  {
  }

  /** The first Agent binds its key. Once a client bound to a device has been approved for the
      device's Agent and that is saved, the device's key is recorded for the route, and from then
      on, after any restarts and power failures, no client with another key or none is approved for it. */
  lemma FirstKeyStays(base: Origin, r: Relay, now: int, request: string, u: string, code: string, id: string,
                      evs: seq<Event>, t: Relay, fault: bool, v: string, c: string)
    requires Sound(r) && !r.fault && MayAllow(r.st, false, now, request, u)
    requires r.st.grants.pending[request].resource == Agent(Immutable(id)) && r.st.reg.clients[r.st.grants.pending[request].client].deviceKey != NoKey
    requires Reaches(base, r, [Serve(now, Allow(request, u, code), Saved)] + evs, t)
    ensures var key, n := r.st.reg.clients[r.st.grants.pending[request].client].deviceKey, ServeRequest(r, now, Allow(request, u, code), Saved);
            Immutable(id) in n.st.reg.records && n.st.reg.records[Immutable(id)].key == key
    ensures var key := r.st.reg.clients[r.st.grants.pending[request].client].deviceKey;
            AnotherKey(t.st.reg, c, key) ==> !MayAuthorize(t.st, fault, v, c, Agent(Immutable(id)))
  {
    var key := r.st.reg.clients[r.st.grants.pending[request].client].deviceKey;
    var ev, seal := Serve(now, Allow(request, u, code), Saved), KeyBound(Immutable(id), key);
    AllowBinds(r, now, request, u, code, id);
    hide *;
    FirstStep(base, r, ev, evs, t);
    SealIsMade(Immutable(id), key, r.drawn);
    SavedSeals(r, now, Allow(request, u, code), seal);
    ServedSealed(base, r, now, Allow(request, u, code), seal);
    NextSound(base, r, ev);
    SealedForever(base, Next(base, r, ev), evs, t, seal);
    SealedHolds(t, seal);
    if AnotherKey(t.st.reg, c, key) {
      KeyRefusesOthers(t.st, fault, v, c, id, key);
    }
  }

  lemma SealIsMade(r: Route, key: PublicKey, drawn: set<string>)
    requires key != NoKey
    ensures Made(KeyBound(r, key), drawn)
  {
  }

  lemma SealedHolds(t: Relay, seal: Seal)
    requires Sealed(t, seal)
    ensures StateHolds(t.st, seal)
  {
    hide StateHolds, FilesHold;
  }

  lemma AllowBinds(r: Relay, now: int, request: string, u: string, code: string, id: string)
    requires !r.fault && MayAllow(r.st, false, now, request, u)
    requires r.st.grants.pending[request].resource == Agent(Immutable(id)) && r.st.reg.clients[r.st.grants.pending[request].client].deviceKey != NoKey
    ensures var key, e := r.st.reg.clients[r.st.grants.pending[request].client].deviceKey, Effects(r.st, r.cfg, r.fault, now, Allow(request, u, code));
            e.Commit? && !e.recovery && StateHolds(e.attempt, KeyBound(Immutable(id), key)) &&
            Immutable(id) in e.attempt.reg.records && e.attempt.reg.records[Immutable(id)].key == key &&
            ServeRequest(r, now, Allow(request, u, code), Saved).st == e.attempt
  {
    AllowExactly(r.st, r.cfg, r.fault, now, request, u, code);
    AllowedStands(r.st, false, now, request, u) by { hide Effects, Approves; }
    var e := Effects(r.st, r.cfg, r.fault, now, Allow(request, u, code));
    hide MayAllow, Effects, ImageOf, DiskAfter, NewlyCommitted, NewLineage, Names;
    BindsKey(r.st, e.attempt, now, request, u, code, id);
    hide Approves;
  }

  lemma BindsKey(s: State, t: State, now: int, request: string, u: string, code: string, id: string)
    requires request in s.grants.pending && s.grants.pending[request].client in s.reg.clients && Approves(s, t, now, request, u, code)
    requires s.grants.pending[request].resource == Agent(Immutable(id)) && s.reg.clients[s.grants.pending[request].client].deviceKey != NoKey
    ensures Immutable(id) in t.reg.records && t.reg.records[Immutable(id)].key == s.reg.clients[s.grants.pending[request].client].deviceKey
  {
    var p := s.grants.pending[request];
    var client := s.reg.clients[p.client];
    var mid :| Authorized(s.reg, mid, u, p.client, p.resource) && Noted(mid, t.reg.(clients := mid.clients), u, client, p.resource);
    assert Immutable(id) in mid.records && mid.records[Immutable(id)].key == client.deviceKey;
    assert t.reg.(clients := mid.clients).records == t.reg.records;
  }
}
