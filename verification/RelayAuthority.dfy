/** What an administrator's action can do to the authority of credentials. */
module RelayAuthority {
  import opened Wrappers
  import opened RelayState
  import opened RelayOps
  import opened RelayInvariant
  import opened RelayRequests

  /** No credential verifies in `t` that did not verify in `s`, for any resource and
      scope; the persistence fault is left out of account on both sides. */
  ghost predicate NoMoreAuthority(s: State, t: State) {
    forall key, resource, kind :: Verifies(t, false, key, resource, kind) ==> Verifies(s, false, key, resource, kind)
  }

  ghost predicate FewerDevices(s: Registry, t: Registry) {
    (forall r :: DeviceOn(t, r) ==> DeviceOn(s, r)) &&
    (forall u, r :: DeviceOn(t, r) && Owns(t, u, r) ==> Owns(s, u, r))
  }

  ghost predicate FewerParties(s: Registry, t: Registry) {
    (forall u :: ActiveUser(t, u) ==> ActiveUser(s, u)) && (forall c :: ApprovedClient(t, c) ==> ApprovedClient(s, c))
  }

  predicate FewerSwitches(s: Switches, t: Switches) {
    (s.kill ==> t.kill) && (t.mcp ==> s.mcp) && (t.agent ==> s.agent)
  }

  lemma LessVerifies(s: State, t: State)
    requires Sub(t.grants.access, s.grants.access) && FewerDevices(s.reg, t.reg) && FewerParties(s.reg, t.reg) && FewerSwitches(s.switches, t.switches)
    ensures NoMoreAuthority(s, t)
  {
    hide DeviceOn, Owns, ActiveUser, ApprovedClient;
  }

  lemma SameDevices(s: Registry, t: Registry)
    requires s.devices == t.devices && s.disabled == t.disabled && s.retired == t.retired && s.records == t.records
    ensures FewerDevices(s, t)
  {
  }

  lemma SameParties(s: Registry, t: Registry)
    requires Sub(t.clients, s.clients) && Sub(t.users, s.users)
    ensures FewerParties(s, t)
  {
  }

  lemma ChangedParty(s: Registry, t: Registry, u: string)
    requires t.clients == s.clients && u in s.users && u in t.users && t.users == s.users[u := t.users[u]]
    requires t.users[u].id == s.users[u].id && (s.users[u].disabled ==> t.users[u].disabled)
    ensures FewerParties(s, t)
  {
  }

  lemma RevokedClients(s: State, ids: set<string>)
    ensures var t := RevokeClients(s, ids);
            Sub(t.grants.access, s.grants.access) && t.reg == s.reg.(clients := s.reg.clients - ids) && t.switches == s.switches
  {
  }

  lemma RetiredDevices(s: Registry, t: Registry, routes: set<Route>)
    requires t.devices == s.devices - routes && t.disabled == s.disabled - routes && t.records == s.records - routes
    requires t.retired == s.retired + (map r | r in routes :: true)
    ensures FewerDevices(s, t)
  {
    forall r | DeviceOn(t, r) ensures DeviceOn(s, r) && r !in routes {
      if r in routes {
        assert On(t.retired, r);
      }
    }
  }

  lemma RetiredState(s: State, routes: set<Route>)
    ensures var t := Retire(s, routes);
            Sub(t.grants.access, s.grants.access) && FewerDevices(s.reg, t.reg) && t.switches == s.switches &&
            Sub(t.reg.clients, s.reg.clients) && t.reg.users == s.reg.users
  {
    var mid := s.reg.(retired := s.reg.retired + (map r | r in routes :: true), devices := s.reg.devices - routes,
                      disabled := s.reg.disabled - routes, records := s.reg.records - routes);
    var m := s.(reg := mid, grants := RevokeRoutes(s.grants, routes));
    assert Retire(s, routes) == RevokeClients(m, BoundToAny(s.reg.clients, routes));
    hide Retire, RevokeClients, BoundToAny;
    RevokedClients(m, BoundToAny(s.reg.clients, routes));
    RetiredDevices(s.reg, Retire(s, routes).reg, routes);
  }

  lemma SwitchedOffDevice(s: State, r: Route, owner: string)
    requires r in s.reg.devices && s.reg.devices[r] == owner
    ensures var t := SetDisabled(s, r, true, owner);
            FewerDevices(s.reg, t.reg) && Sub(t.grants.access, s.grants.access) && t.switches == s.switches &&
            t.reg.clients == s.reg.clients && t.reg.users == s.reg.users
  {
    hide WithoutRoutes, PendingsWithoutRoutes, CodesWithoutRoutes;
  }

  lemma RevokedUser(s: State, u: string)
    ensures var t := RevokeUser(s, u); Sub(t.grants.access, s.grants.access) && t.reg == s.reg && t.switches == s.switches
  {
  }

  /** Authority only shrinks: whatever an administrator may do while the state file is in
      doubt, and whatever needs no fresh password, gives no credential anything new. So
      every action that can add authority needs both a trusted file and a fresh password. */
  lemma AuthorityShrinks(s: State, cfg: Config, current: User, a: AdminAction)
    requires AdminChange(s, cfg, current, a).Some? && (RecoveryAllowed(a) || !RequiresFreshAuth(a))
    ensures NoMoreAuthority(s, AdminChange(s, cfg, current, a).value)
  {
    AdminShrinks(s, cfg, current, a);
    AdminLessens(s, cfg, current, a);
    LessVerifies(s, AdminChange(s, cfg, current, a).value);
  }

  lemma AdminLessens(s: State, cfg: Config, current: User, a: AdminAction)
    requires AdminChange(s, cfg, current, a).Some? && (RecoveryAllowed(a) || !RequiresFreshAuth(a))
    ensures var t := AdminChange(s, cfg, current, a).value;
            FewerDevices(s.reg, t.reg) && FewerParties(s.reg, t.reg) && FewerSwitches(s.switches, t.switches)
  {
    var t := AdminChange(s, cfg, current, a).value;
    hide RevokeUser, Retire, RevokeClients, SetDisabled, FewerDevices, FewerParties, LeftBehind, RemoveUser;
    if a.RotatePassword? {
      RevokedUser(s.(reg := s.reg.(users := s.reg.users[a.user := s.reg.users[a.user].(passwordHash := a.hash.value)])), a.user);
      ChangedParty(s.reg, t.reg, a.user);
      SameDevices(s.reg, t.reg);
    } else if a.DisableUser? {
      RevokedUser(s.(reg := s.reg.(users := s.reg.users[a.user := s.reg.users[a.user].(disabled := true)])), a.user);
      ChangedParty(s.reg, t.reg, a.user);
      SameDevices(s.reg, t.reg);
    } else if a.DisableDevice? {
      SwitchedOffDevice(s, a.route, s.reg.devices[a.route]);
      SameParties(s.reg, t.reg);
    } else if a.RevokeDevice? {
      RetiredState(s, {a.route});
      SameParties(s.reg, t.reg);
    } else if a.DeleteUser? {
      DeletedUser(s, a.user);
    } else if a.RevokeClientAction? {
      RevokedClients(s, {a.client});
      SameParties(s.reg, t.reg);
      SameDevices(s.reg, t.reg);
    } else {
      AdminKeepsRegistry(s, cfg, current, a);
      SameParties(s.reg, t.reg);
      SameDevices(s.reg, t.reg);
    }
  }

  lemma AdminKeepsRegistry(s: State, cfg: Config, current: User, a: AdminAction)
    requires AdminChange(s, cfg, current, a).Some? && (RecoveryAllowed(a) || !RequiresFreshAuth(a))
    requires !a.RotatePassword? && !a.DisableUser? && !a.DisableDevice? && !a.RevokeDevice? && !a.DeleteUser? && !a.RevokeClientAction?
    ensures var t := AdminChange(s, cfg, current, a).value; t.reg == s.reg && FewerSwitches(s.switches, t.switches)
  {
    hide RevokeFamily, DropSessions;
  }

  lemma DeletedUser(s: State, u: string)
    ensures var t := RevokeUser(Retire(s.(reg := RemoveUser(s.reg, u)), LeftBehind(s.reg, u)), u);
            FewerDevices(s.reg, t.reg) && FewerParties(s.reg, t.reg) && t.switches == s.switches
  {
    var gone := s.(reg := RemoveUser(s.reg, u));
    var left := Retire(gone, LeftBehind(s.reg, u));
    assert gone.reg == s.reg.(users := s.reg.users - {u}, usernames := gone.reg.usernames);
    hide Retire, RevokeUser, LeftBehind, FewerDevices, FewerParties, RemoveUser;
    RetiredState(gone, LeftBehind(s.reg, u));
    RevokedUser(left, u);
    SameParties(s.reg, left.reg);
    FewerThanSame(s.reg, gone.reg, left.reg);
  }

  lemma FewerThanSame(a: Registry, b: Registry, c: Registry)
    requires a.devices == b.devices && a.disabled == b.disabled && a.retired == b.retired && a.records == b.records && FewerDevices(b, c)
    ensures FewerDevices(a, c)
  {
  }

  /** The same holds of an account holder's own actions that take something away. */
  lemma OwnerGivesNothing(s: State, current: User, a: AccountAction)
    requires AccountChange(s, current, a).Some? && !(a.OwnDisable? && a.toggle == Some(false))
    ensures NoMoreAuthority(s, AccountChange(s, current, a).value)
  {
    var t := AccountChange(s, current, a).value;
    hide NoMoreAuthority, Retire, RevokeFamily, SetDisabled, FewerDevices, FewerParties, OwnsFamily, LiveUser;
    AccountShrinks(s, current, a);
    SameDevices(s.reg, s.reg);
    SameParties(s.reg, s.reg);
    match a {
      case OwnRename(r, _) =>
        SameParties(s.reg, t.reg);
        RenamedDevice(s, r, current.id);
      case OwnDisable(r, _) =>
        if current.id != "" || r in s.reg.devices {
          SwitchedOffDevice(s, r, current.id);
          SameParties(s.reg, t.reg);
        } else {
          SwitchedOffNobody(s, r);
          SameParties(s.reg, t.reg);
        }
      case OwnRevoke(r) =>
        RetiredState(s, {r});
        SameParties(s.reg, t.reg);
      case OwnRevokeFamily(_) => assert t.reg == s.reg;
      case OwnLogout(_) => assert t.reg == s.reg;
      case OwnLogoutOthers(_) => assert t.reg == s.reg;
      case OwnUnknown =>
    }
    LessVerifies(s, t);
  }

  lemma SwitchedOffNobody(s: State, r: Route)
    requires r !in s.reg.devices
    ensures var t := SetDisabled(s, r, true, "");
            FewerDevices(s.reg, t.reg) && Sub(t.grants.access, s.grants.access) && t.switches == s.switches &&
            t.reg.clients == s.reg.clients && t.reg.users == s.reg.users
  {
    hide WithoutRoutes, PendingsWithoutRoutes, CodesWithoutRoutes;
  }

  lemma RenamedDevice(s: State, r: Route, u: string)
    requires Get(s.reg.devices, r, "") == u
    ensures FewerDevices(s.reg, s.reg.(records := s.reg.records[r := EnsureRecord(s.reg, r, u)]))
  {
  }

  /** The token the action finds under a handle. */
  function Found(g: Grants, h: string): Option<Token> {
    if h in g.refresh then Some(g.refresh[h])
    else if h in g.refreshUsed then Some(g.refreshUsed[h])
    else if h in g.access then Some(g.access[h])
    else None
  }

  /** No handle is in two tables. */
  predicate HandlesApart(g: Grants) {
    g.access.Keys !! g.refresh.Keys && g.access.Keys !! g.refreshUsed.Keys && g.refresh.Keys !! g.refreshUsed.Keys
  }

  /** `revoke-token` promises that the token is gone. It keeps the promise exactly for
      tokens that have a family: a token from before families existed survives, and the
      action still reports success. With a family all of it goes, and what is left is only
      what was there. */
  lemma RevokeTokenWorks(s: State, cfg: Config, current: User, h: string)
    requires Found(s.grants, h).Some?
    ensures var t := AdminChange(s, cfg, current, RevokeToken(h));
            t.Some? && (Found(t.value.grants, h) != Found(s.grants, h) <==> Found(s.grants, h).value.family != "")
    ensures var t, family := AdminChange(s, cfg, current, RevokeToken(h)), Found(s.grants, h).value.family;
            (HandlesApart(s.grants) ==> (Found(t.value.grants, h).None? <==> family != "")) &&
            (family != "" ==> forall k :: Found(t.value.grants, k).Some? ==> Found(t.value.grants, k).value.family != family) &&
            SubGrants(t.value.grants, s.grants)
  {
  }

  /** The revocation endpoint has no such gap: the presented token is always gone, and so
      is the rest of its family if it has one. */
  lemma RevocationWorks(s: State, key: string)
    ensures Revoke(s, key).Commit? && Found(Revoke(s, key).attempt.grants, key).None?
    ensures FamilyOf(s.grants, key) != "" ==>
              forall k :: Found(Revoke(s, key).attempt.grants, k).Some? ==>
                          Found(Revoke(s, key).attempt.grants, k).value.family != FamilyOf(s.grants, key)
    ensures Revoke(s, key).onFailure == Revoke(s, key).attempt
  {
  }
}
