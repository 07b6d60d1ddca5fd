/** The authorization server in the form it is written in: one object whose maps are
    updated in place, entry by entry, between a snapshot and a save or a rollback. Each
    method leaves exactly the process and disk that the specification functions say. */
module RelayServer {
  import opened Wrappers
  import opened RelayState
  import opened RelayOps
  import opened RelayRequests
  import opened RelayRuns
  import opened StateFile
  import Text

  // ---------------------------------------------------------------- map loops

  /** Deletes, while iterating, every entry the test picks out. */
  method DeleteWhere<V>(m: map<string, V>, drop: (string, V) -> bool) returns (kept: map<string, V>)
    ensures kept == map k | k in m && !drop(k, m[k]) :: m[k]
  {
    kept := m;
    var todo := m.Keys;
    while todo != {}
      invariant todo <= m.Keys
      invariant kept == map k | k in m && (k in todo || !drop(k, m[k])) :: m[k]
      decreases |todo|
    {
      var k :| k in todo;
      if drop(k, m[k]) {
        kept := kept - {k};
      }
      todo := todo - {k};
    }
  }

  // ------------------------------------------- what the deleting loops pick out

  method DropFamily(m: map<string, Token>, family: string) returns (kept: map<string, Token>)
    ensures kept == WithoutFamily(m, family)
  {
    kept := DeleteWhere(m, (k, v: Token) => v.family == family);
    assert kept == WithoutFamily(m, family);
  }

  method DropClient(m: map<string, Token>, id: string) returns (kept: map<string, Token>)
    ensures kept == WithoutClients(m, {id})
  {
    kept := DeleteWhere(m, (k, v: Token) => v.client == id);
    assert kept == WithoutClients(m, {id});
  }

  method DropClientRequests(m: map<string, Pending>, id: string) returns (kept: map<string, Pending>)
    ensures kept == PendingsWithoutClients(m, {id})
  {
    kept := DeleteWhere(m, (k, v: Pending) => v.client == id);
    assert kept == PendingsWithoutClients(m, {id});
  }

  method DropClientCodes(m: map<string, Code>, id: string) returns (kept: map<string, Code>)
    ensures kept == CodesWithoutClients(m, {id})
  {
    kept := DeleteWhere(m, (k, v: Code) => v.grant.client == id);
    assert kept == CodesWithoutClients(m, {id});
  }

  method DropUser(m: map<string, Token>, u: string) returns (kept: map<string, Token>)
    ensures kept == WithoutUser(m, u)
  {
    kept := DeleteWhere(m, (k, v: Token) => v.user == u);
    assert kept == WithoutUser(m, u);
  }

  method DropUserRequests(m: map<string, Pending>, u: string) returns (kept: map<string, Pending>)
    ensures kept == PendingsWithoutUser(m, u)
  {
    kept := DeleteWhere(m, (k, v: Pending) => v.user == u);
    assert kept == PendingsWithoutUser(m, u);
  }

  method DropUserCodes(m: map<string, Code>, u: string) returns (kept: map<string, Code>)
    ensures kept == CodesWithoutUser(m, u)
  {
    kept := DeleteWhere(m, (k, v: Code) => v.grant.user == u);
    assert kept == CodesWithoutUser(m, u);
  }

  method DropRoute(m: map<string, Token>, r: Route) returns (kept: map<string, Token>)
    ensures kept == WithoutRoutes(m, {r})
  {
    kept := DeleteWhere(m, (k, v: Token) => UsesDevice(v.resource, r));
    assert kept == WithoutRoutes(m, {r});
  }

  method DropRouteRequests(m: map<string, Pending>, r: Route) returns (kept: map<string, Pending>)
    ensures kept == PendingsWithoutRoutes(m, {r})
  {
    kept := DeleteWhere(m, (k, v: Pending) => UsesDevice(v.resource, r));
    assert kept == PendingsWithoutRoutes(m, {r});
  }

  method DropRouteCodes(m: map<string, Code>, r: Route) returns (kept: map<string, Code>)
    ensures kept == CodesWithoutRoutes(m, {r})
  {
    kept := DeleteWhere(m, (k, v: Code) => UsesDevice(v.grant.resource, r));
    assert kept == CodesWithoutRoutes(m, {r});
  }

  method DropDead(reg: Registry, m: map<string, Token>, now: int) returns (kept: map<string, Token>)
    ensures kept == LiveTokens(reg, m, now)
  {
    hide TokenLive;
    kept := DeleteWhere(m, (k, v: Token) => !TokenLive(reg, v, now));
    assert kept == LiveTokens(reg, m, now);
  }

  /** Counts the routes of one account by looking at each. */
  method CountRoutes(devices: map<Route, string>, u: string) returns (owned: nat)
    ensures owned == |RoutesOf(devices, u)|
  {
    owned := 0;
    var todo := devices.Keys;
    ghost var counted: set<Route> := {};
    while todo != {}
      invariant todo <= devices.Keys
      invariant counted == set r | r in devices && r !in todo && devices[r] == u
      invariant owned == |counted|
      decreases |todo|
    {
      var r :| r in todo;
      todo := todo - {r};
      if devices[r] == u {
        owned := owned + 1;
        counted := counted + {r};
      }
    }
    assert counted == RoutesOf(devices, u);
  }

  /** Counts the pending requests of one address by looking at each. */
  method CountFrom(pending: map<string, Pending>, ip: string) returns (n: nat)
    ensures n == |set k | k in pending && pending[k].ip == ip|
  {
    n := 0;
    var todo := pending.Keys;
    ghost var counted: set<string> := {};
    while todo != {}
      invariant todo <= pending.Keys
      invariant counted == set k | k in pending && k !in todo && pending[k].ip == ip
      invariant n == |counted|
      decreases |todo|
    {
      var k :| k in todo;
      todo := todo - {k};
      if pending[k].ip == ip {
        n := n + 1;
        counted := counted + {k};
      }
    }
    assert counted == set k | k in pending && pending[k].ip == ip;
  }

  /** The index of names that `load` rebuilds, account by account. */
  method RebuildIndex(users: map<string, User>) returns (names: map<string, string>)
    requires UsersAccepted(users)
    ensures names == IndexOf(users)
  {
    hide NormalizeUsername;
    names := map[];
    var todo := users.Keys;
    while todo != {}
      invariant todo <= users.Keys
      invariant forall u :: u in users && u !in todo ==> Named(names, users[u].username, u)
      invariant forall n :: n in names ==> names[n] in users && NormalizeUsername(users[names[n]].username) == Some(n)
      decreases |todo|
    {
      var u :| u in todo;
      names := names[NormalizeUsername(users[u].username).value := u];
      todo := todo - {u};
    }
    IndexIsNames(users, names);
  }

  lemma IndexIsNames(users: map<string, User>, names: map<string, string>)
    requires UsersAccepted(users)
    requires forall u :: u in users ==> Named(names, users[u].username, u)
    requires forall n :: n in names ==> names[n] in users && NormalizeUsername(users[names[n]].username) == Some(n)
    ensures names == IndexOf(users)
  {
    hide NormalizeUsername;
    assert names.Keys == IndexOf(users).Keys;
  }

  predicate Named(names: map<string, string>, username: string, u: string) {
    var n := NormalizeUsername(username);
    n.Some? && n.value in names && names[n.value] == u
  }

  /** In private mode the configured owner is made an administrator, account by account. */
  method AdoptOwner(users: map<string, User>, cfg: Config, mode: Mode) returns (adopted: map<string, User>)
    ensures adopted == Adopt(users, cfg, mode)
  {
    hide SameName;
    adopted := users;
    var todo := users.Keys;
    while todo != {}
      invariant todo <= users.Keys && adopted.Keys == users.Keys
      invariant forall u :: u in users && u in todo ==> adopted[u] == users[u]
      invariant forall u :: u in users && u !in todo ==> adopted[u] == Adopt(users, cfg, mode)[u]
      decreases |todo|
    {
      var u :| u in todo;
      if !users[u].admin && SameName(users[u].username, cfg.ownerUsername) && mode.Private? {
        adopted := adopted[u := users[u].(admin := true)];
      }
      todo := todo - {u};
    }
  }

  /** The oldest client nobody has approved yet, if any was issued by `now`. */
  method OldestUnapproved(clients: map<string, Client>, now: int) returns (oldest: Option<string>)
    ensures oldest.Some? ==> Evictable(clients, oldest.value, now)
    ensures oldest.None? ==> forall c :: !Evictable(clients, c, now)
  {
    oldest := None;
    var oldestAt := now + 1;
    var todo := clients.Keys;
    while todo != {}
      invariant todo <= clients.Keys
      invariant oldest.None? ==> oldestAt == now + 1
      invariant oldest.Some? ==> oldest.value in clients && !clients[oldest.value].approved &&
                                 clients[oldest.value].issuedAt == oldestAt <= now
      invariant forall c :: c in clients && c !in todo && !clients[c].approved ==> oldestAt <= clients[c].issuedAt
      decreases |todo|
    {
      var c :| c in todo;
      if !clients[c].approved && clients[c].issuedAt < oldestAt {
        oldest, oldestAt := Some(c), clients[c].issuedAt;
      }
      todo := todo - {c};
    }
  }

  // ---------------------------------------------------- one entry after another

  lemma ClientsOneByOne(tokens: map<string, Token>, pending: map<string, Pending>, codes: map<string, Code>, a: set<string>, b: set<string>)
    ensures WithoutClients(WithoutClients(tokens, a), b) == WithoutClients(tokens, a + b)
    ensures PendingsWithoutClients(PendingsWithoutClients(pending, a), b) == PendingsWithoutClients(pending, a + b)
    ensures CodesWithoutClients(CodesWithoutClients(codes, a), b) == CodesWithoutClients(codes, a + b)
    ensures WithoutClients(tokens, {}) == tokens && PendingsWithoutClients(pending, {}) == pending && CodesWithoutClients(codes, {}) == codes
  {
  }

  /** Revoking clients one after another is revoking them together. */
  lemma RevokeMore(s: State, done: set<string>, more: set<string>)
    ensures RevokeClients(RevokeClients(s, done), more) == RevokeClients(s, done + more)
  {
    assert (s.reg.clients - done) - more == s.reg.clients - (done + more);
    ClientsOneByOne(s.grants.access, s.grants.pending, s.grants.codes, done, more);
    ClientsOneByOne(s.grants.refresh, s.grants.pending, s.grants.codes, done, more);
    ClientsOneByOne(s.grants.refreshUsed, s.grants.pending, s.grants.codes, done, more);
    hide WithoutClients, PendingsWithoutClients, CodesWithoutClients;
  }

  lemma RevokeNone(s: State)
    ensures RevokeClients(s, {}) == s
  {
    assert s.reg.clients - {} == s.reg.clients;
    ClientsOneByOne(s.grants.access, s.grants.pending, s.grants.codes, {}, {});
    ClientsOneByOne(s.grants.refresh, s.grants.pending, s.grants.codes, {}, {});
    ClientsOneByOne(s.grants.refreshUsed, s.grants.pending, s.grants.codes, {}, {});
    hide WithoutClients, PendingsWithoutClients, CodesWithoutClients;
  }

  // ------------------------------------------------------------------- server

  class Server {
    const cfg: Config
    var reg: Registry
    var grants: Grants
    var web: Web
    var switches: Switches
    var persistenceFault: bool
    var disk: Disk

    /** The state the specification speaks about. */
    function View(): State
      reads this
    {
      State(reg, grants, web, switches)
    }

    /** The process with its disk; what happened earlier plays no part. */
    function Process(): Relay
      reads this
    {
      Relay(true, View(), cfg, persistenceFault, disk, {}, map[], map[], false)
    }

    // ------------------------------------------------------------------- loading

    /** `load`, from the decoded and canonicalized file to the clean-up. */
    method Load(i: Image, b: Boot)
      requires UsersAccepted(i.users) && cfg == b.cfg
      modifies this`reg, this`grants, this`web, this`switches
      ensures View() == Cleanup(Loaded(i, b), b.now)
    {
      hide Cleanup, IndexOf, Adopt, EnsureRecord, UsersAccepted;
      var mode := if cfg.modeConfigured then b.mode else i.settings.mode;
      grants := Grants(i.access, i.refresh, i.refreshUsed, map[], map[]);
      web := Web(i.sessions, {}, i.invites);
      switches := Switches(mode, i.settings.registration && mode.Public? && !cfg.registrationDisabled, i.settings.dcr, i.settings.mcp,
                           i.settings.agent, i.settings.kill, false);
      var names := RebuildIndex(i.users);
      var users := AdoptOwner(i.users, cfg, mode);
      reg := Registry(i.clients, users, names, i.devices, i.disabled, i.retired, i.records);
      EnsureDeviceRecords();
      CleanUp(b.now);
    }

    /** Every owned route gets its record. */
    method EnsureDeviceRecords()
      modifies this`reg
      ensures reg == old(reg).(records := EnsureAll(old(reg)))
    {
      hide EnsureRecord, EnsureSome, EnsureAll;
      ghost var before := reg;
      var todo := reg.devices.Keys;
      ghost var done: set<Route> := {};
      EnsuredNone(before);
      while todo != {}
        invariant todo <= before.devices.Keys && done == before.devices.Keys - todo
        invariant reg == before.(records := EnsureSome(before, done))
        decreases |todo|
      {
        var r :| r in todo;
        EnsuredOneMore(before, done, r);
        SameRecord(before, reg, r, before.devices[r]);
        var record := EnsureDeviceRecordLocked(r, reg.devices[r]);
        todo := todo - {r};
        done := done + {r};
      }
      assert done == before.devices.Keys;
      EnsuredEvery(before);
    }

    // ------------------------------------------------ snapshot, save, roll back

    /** `restoreMutableStateLocked` */
    method Restore(s: State)
      modifies this`reg, this`grants, this`web, this`switches
      ensures View() == s
    {
      reg, grants, web, switches := s.reg, s.grants, s.web, s.switches;
    }

    /** `saveLocked`, on a disk that answers `o`. */
    method Save(o: SaveOutcome) returns (ok: bool)
      modifies this`persistenceFault, this`disk
      ensures ok == (!old(persistenceFault) && o.Saved?)
      ensures Process() == Settle(old(Process()), Commit(View(), View(), false), o)
    {
      if persistenceFault {
        return false;
      }
      disk := DiskAfter(disk, ImageOf(View()), o);
      if !o.Saved? {
        persistenceFault := true;
        return false;
      }
      return true;
    }

    /** `saveOrRollbackLocked` */
    method SaveOrRollback(snapshot: State, o: SaveOutcome) returns (ok: bool)
      modifies this
      ensures ok == (!old(persistenceFault) && o.Saved?)
      ensures Process() == Settle(old(Process()), Commit(old(View()), snapshot, false), o)
    {
      hide ImageOf, DiskAfter;
      ok := Save(o);
      if !ok {
        Restore(snapshot);
      }
    }

    /** `saveRecoveryOrRollbackLocked`: the global stop is written first. */
    method SaveRecoveryOrRollback(snapshot: State, o: SaveOutcome) returns (ok: bool)
      requires persistenceFault
      modifies this
      ensures ok == o.Saved?
      ensures Process() == Settle(old(Process()), Commit(old(View()), snapshot, true), o)
    {
      hide ImageOf, DiskAfter;
      switches := switches.(kill := true);
      disk := DiskAfter(disk, ImageOf(View()), o);
      ok := o.Saved?;
      if !ok {
        Restore(snapshot);
      }
    }

    // ----------------------------------------------------------------- clean-up

    /** `cleanupLocked` */
    method CleanUp(now: int)
      modifies this`reg, this`grants, this`web
      ensures View() == Cleanup(old(View()), now)
    {
      hide TokenLive, PendingLive, CodeLive, StaleClient, ActiveUser;
      var invites := DeleteWhere(web.invites, (k, v: Invite) => v.expires <= now || v.uses <= 0);
      assert invites == LiveInvites(web.invites, now);
      web := web.(invites := invites);
      CleanTokens(now);
      var registry := reg;
      var sessions := DeleteWhere(web.sessions, (k, v: Session) => v.expires <= now || !ActiveUser(registry, v.user));
      assert sessions == LiveSessions(registry, web.sessions, now);
      web := web.(sessions := sessions, ephemeral := web.ephemeral * sessions.Keys);
      CleanRequests(now);
      DropStale(now);
    }

    method DropStale(now: int)
      modifies this`reg
      ensures reg == old(reg).(clients := FreshClients(old(reg).clients, now))
    {
      hide StaleClient;
      var clients := DeleteWhere(reg.clients, (k, v: Client) => StaleClient(v, now));
      assert clients == FreshClients(reg.clients, now);
      reg := reg.(clients := clients);
    }

    method CleanTokens(now: int)
      modifies this`grants
      ensures grants == old(grants).(access := LiveTokens(reg, old(grants).access, now), refresh := LiveTokens(reg, old(grants).refresh, now),
                                     refreshUsed := LiveTokens(reg, old(grants).refreshUsed, now))
    {
      hide LiveTokens;
      var access := DropDead(reg, grants.access, now);
      var refresh := DropDead(reg, grants.refresh, now);
      var refreshUsed := DropDead(reg, grants.refreshUsed, now);
      grants := grants.(access := access, refresh := refresh, refreshUsed := refreshUsed);
    }

    /** Requests and codes go when they expire, when what they name is gone, and with a stale client. */
    method CleanRequests(now: int)
      modifies this`grants
      ensures grants == old(grants).(pending := LivePendings(reg, old(grants).pending, now), codes := LiveCodes(reg, old(grants).codes, now))
    {
      hide PendingLive, CodeLive, StaleClient;
      var registry := reg;
      var pending := DeleteWhere(grants.pending, (k, v: Pending) => !PendingLive(registry, v, now));
      var codes := DeleteWhere(grants.codes, (k, v: Code) => !CodeLive(registry, v, now));
      pending := DeleteWhere(pending, (k, v: Pending) => StaleClientId(registry, v.client, now));
      codes := DeleteWhere(codes, (k, v: Code) => StaleClientId(registry, v.grant.client, now));
      grants := grants.(pending := pending, codes := codes);
      assert pending == LivePendings(registry, old(grants).pending, now);
      assert codes == LiveCodes(registry, old(grants).codes, now);
    }

    // --------------------------------------------------------------- revocation

    /** `revokeFamilyLocked` */
    method RevokeFamilyLocked(family: string)
      modifies this`grants
      ensures grants == RevokeFamily(old(grants), family)
    {
      if family == "" {
        return;
      }
      hide WithoutFamily;
      var access := DropFamily(grants.access, family);
      var refresh := DropFamily(grants.refresh, family);
      var refreshUsed := DropFamily(grants.refreshUsed, family);
      grants := grants.(access := access, refresh := refresh, refreshUsed := refreshUsed);
    }

    /** `revokeClientLocked` */
    method RevokeClientLocked(id: string)
      modifies this`reg, this`grants
      ensures View() == RevokeClients(old(View()), {id})
    {
      hide WithoutClients, PendingsWithoutClients, CodesWithoutClients;
      reg := reg.(clients := reg.clients - {id});
      var access := DropClient(grants.access, id);
      var refresh := DropClient(grants.refresh, id);
      var refreshUsed := DropClient(grants.refreshUsed, id);
      var pending := DropClientRequests(grants.pending, id);
      var codes := DropClientCodes(grants.codes, id);
      grants := Grants(access, refresh, refreshUsed, pending, codes);
    }

    /** `revokeDeviceClientsLocked` */
    method RevokeDeviceClientsLocked(r: Route)
      modifies this`reg, this`grants
      ensures View() == RevokeClients(old(View()), ClientsBoundTo(old(reg).clients, r))
    {
      ghost var before := View();
      RevokeNone(before);
      if r.Named? {
        assert ClientsBoundTo(reg.clients, r) == {};
        return;
      }
      var todo := reg.clients.Keys;
      ghost var bound := ClientsBoundTo(reg.clients, r);
      ghost var done: set<string> := {};
      while todo != {}
        invariant todo <= before.reg.clients.Keys && done == bound - todo
        invariant View() == RevokeClients(before, done)
        decreases |todo|
      {
        hide RevokeClients;
        var c :| c in todo;
        todo := todo - {c};
        RevokedKeepsOthers(before, done, c);
        if c in reg.clients && reg.clients[c].keyVerified && reg.clients[c].deviceId == r.id {
          RevokeMore(before, done, {c});
          RevokeClientLocked(c);
          done := done + {c};
        }
      }
      assert done == bound;
    }

    /** `revokeUserCredentialsLocked` */
    method RevokeUserCredentialsLocked(u: string)
      modifies this`web, this`grants
      ensures View() == RevokeUser(old(View()), u)
    {
      hide DropSessions, WithoutUser, PendingsWithoutUser, CodesWithoutUser;
      DeleteUserSessionsLocked(u);
      var codes := DropUserCodes(grants.codes, u);
      var pending := DropUserRequests(grants.pending, u);
      var access := DropUser(grants.access, u);
      var refresh := DropUser(grants.refresh, u);
      var refreshUsed := DropUser(grants.refreshUsed, u);
      grants := Grants(access, refresh, refreshUsed, pending, codes);
    }

    /** `deleteUserSessionsLocked` */
    method DeleteUserSessionsLocked(u: string)
      modifies this`web
      ensures web == DropSessions(old(web), u)
    {
      var gone := set k | k in web.sessions && web.sessions[k].user == u;
      var sessions := DeleteWhere(web.sessions, (k, v: Session) => v.user == u);
      assert sessions == web.sessions - gone;
      web := web.(sessions := sessions, ephemeral := web.ephemeral - gone);
    }

    /** `revokeDeviceTokensLocked` */
    method RevokeDeviceTokensLocked(r: Route)
      modifies this`grants
      ensures grants == RevokeRoutes(old(grants), {r})
    {
      hide WithoutRoutes, PendingsWithoutRoutes, CodesWithoutRoutes;
      var pending := DropRouteRequests(grants.pending, r);
      var codes := DropRouteCodes(grants.codes, r);
      var access := DropRoute(grants.access, r);
      var refresh := DropRoute(grants.refresh, r);
      var refreshUsed := DropRoute(grants.refreshUsed, r);
      grants := Grants(access, refresh, refreshUsed, pending, codes);
    }

    // ------------------------------------------------------------ verification

    /** `verifyAccessKey`: clean up, then look the credential up. */
    method VerifyAccessKey(key: string, resource: Resource, kind: Kind, now: int) returns (ok: bool)
      modifies this`reg, this`grants, this`web
      ensures View() == Cleanup(old(View()), now)
      ensures ok <==> Verifies(old(View()), persistenceFault, key, resource, kind) && now < old(grants).access[key].expires
    {
      ghost var before := View();
      CleanUp(now);
      CleanedVerifies(before, persistenceFault, key, resource, kind, now);
      if key !in grants.access {
        return false;
      }
      var record := grants.access[key];
      if !OwnedByUser(View(), persistenceFault, record.user, resource, kind) {
        return false;
      }
      ok := ApprovedClient(reg, record.client) && record.user != "" && record.resource == resource && record.scope.kind == kind;
    }

    // ------------------------------------------------------- devices and grants

    /** `ensureDeviceRecordLocked`: a record that was there keeps its key and its owner, it gets
        the given owner only if it had none, it is off from now on if the route is switched off,
        nothing else changes, and doing it again changes nothing, whatever owner is given then. */
    method EnsureDeviceRecordLocked(r: Route, owner: string) returns (record: DeviceRecord)
      modifies this`reg
      ensures reg == old(reg).(records := old(reg).records[r := record]) && record == EnsureRecord(old(reg), r, owner)
      ensures r in old(reg).records ==>
                record.key == old(reg).records[r].key && (old(reg).records[r].owner != "" ==> record.owner == old(reg).records[r].owner) &&
                (old(reg).records[r].owner == "" ==> record.owner == owner) && (old(reg).records[r].disabled ==> record.disabled)
      ensures r !in old(reg).records ==> record.owner == owner && record.key == NoKey && record.disabled == On(reg.disabled, r)
      ensures On(reg.disabled, r) ==> record.disabled
      ensures owner != "" ==> forall other :: EnsureRecord(reg, r, other) == record
    {
      record := Get(reg.records, r, NoRecord);
      if record.owner == "" {
        record := record.(owner := owner);
      }
      if On(reg.disabled, r) {
        record := record.(disabled := true);
      }
      reg := reg.(records := reg.records[r := record]);
    }

    /** Ownership of a route and the record that goes with it are written together. */
    method RecordClaim(u: string, r: Route, key: PublicKey)
      modifies this`reg
      ensures var record := BindKey(EnsureRecord(old(reg), r, u).(owner := u), key);
              reg == old(reg).(devices := old(reg).devices[r := u], records := old(reg).records[r := record])
    {
      reg := reg.(devices := reg.devices[r := u]);
      var record := EnsureDeviceRecordLocked(r, u);
      record := record.(owner := u);
      if key != NoKey {
        record := record.(key := key);
      }
      reg := reg.(records := reg.records[r := record]);
    }

    /** The first claim of a route: by an Agent, in public mode only of an immutable one, within the quota. */
    method ClaimLocked(u: string, r: Route, key: PublicKey) returns (ok: bool)
      modifies this`reg
      ensures var c := Claim(old(reg), switches.mode, u, r, key); ok == c.Success? && reg == if ok then c.value else old(reg)
    {
      hide RoutesOf, EnsureRecord, BindKey;
      if switches.mode.Public? && r.Named? {
        return false;
      }
      var owned := CountRoutes(reg.devices, u);
      if owned >= MAX_DEVICES_USER {
        return false;
      }
      RecordClaim(u, r, key);
      return true;
    }

    /** `authorizeResourceLocked`: a route without an owner is claimed, within the quota. */
    method AuthorizeResourceLocked(u: string, clientId: string, resource: Resource) returns (ok: bool)
      modifies this`reg
      ensures var a := AuthorizeResource(old(View()), persistenceFault, u, clientId, resource);
              ok == a.Success? && reg == if ok then a.value else old(reg)
    {
      hide ValidateDeviceKey, DeviceOn, Claim, EnsureRecord;
      if u !in reg.users || reg.users[u].id == "" || reg.users[u].disabled {
        return false;
      }
      var key := ValidateDeviceKey(reg, clientId, resource);
      if key.Failure? {
        return false;
      }
      if persistenceFault || switches.kill || (resource.Agent? && !switches.agent) || (!resource.Agent? && !switches.mcp) {
        return false;
      }
      if resource.AccountMcp? {
        return true;
      }
      var r := resource.device;
      var owner := Get(reg.devices, r, "");
      var record := Get(reg.records, r, NoRecord);
      if !DeviceOn(reg, r) || (record.owner != "" && record.owner != owner) {
        return false;
      }
      if resource.Mcp? {
        return owner == u;
      }
      if owner == "" {
        ok := ClaimLocked(u, r, key.value);
        return;
      }
      if owner != u {
        return false;
      }
      if key.value != NoKey {
        record := EnsureDeviceRecordLocked(r, u);
        reg := reg.(records := reg.records[r := record.(key := key.value)]);
      }
      return true;
    }

    /** `commitAuthorizationLocked`; on failure the caller restores its snapshot. */
    method CommitAuthorizationLocked(request: string, u: string, code: string, now: int) returns (error: Option<Error>)
      modifies this`reg, this`grants
      ensures var c := CommitAuthorization(old(View()), persistenceFault, now, request, u, code);
              if c.Success? then error.None? && View() == c.value else error == Some(c.error)
    {
      hide AuthorizeResource, EnsureRecord;
      ghost var before := View();
      if request !in grants.pending || now > grants.pending[request].expires {
        return Some(Refused);
      }
      var p := grants.pending[request];
      if !ClientMatches(reg, p.client) || p.redirect !in reg.clients[p.client].redirects {
        return Some(ClientInvalid);
      }
      var client := reg.clients[p.client];
      AuthorizeErrors(before, persistenceFault, u, p.client, p.resource);
      var ok := AuthorizeResourceLocked(u, p.client, p.resource);
      if !ok {
        return Some(Refused);
      }
      AuthorizeKeepsClients(before, persistenceFault, u, p.client, p.resource);
      if p.resource.Agent? && client.announcesName {
        var record := EnsureDeviceRecordLocked(p.resource.device, u);
      }
      grants := grants.(pending := grants.pending - {request}, codes := grants.codes[code := Code(p.(user := u), now + CODE_LIFETIME)]);
      reg := reg.(clients := reg.clients[p.client := client.(approved := true)]);
      return None;
    }

    /** `grantAuthorization` */
    method GrantAuthorization(request: string, u: string, code: string, now: int, o: SaveOutcome) returns (ok: bool)
      modifies this
      ensures Process() == Settle(old(Process()), Grant(old(View()), old(persistenceFault), now, request, u, code), o)
      ensures ok ==> !persistenceFault && o.Saved?
    {
      hide CommitAuthorization, ImageOf, DiskAfter;
      var snapshot := View();
      var error := CommitAuthorizationLocked(request, u, code, now);
      if error.Some? {
        Restore(snapshot);
        if error == Some(ClientInvalid) {
          grants := grants.(pending := grants.pending - {request});
          var saved := Save(o);
        }
        return false;
      }
      ok := SaveOrRollback(snapshot, o);
    }

    /** `registerAndGrantAuthorization` */
    method RegisterAndGrantAuthorization(request: string, user: User, invite: string, code: string, session: string, now: int, o: SaveOutcome)
      returns (ok: bool)
      modifies this
      ensures Process() == Settle(old(Process()), RegisterAndGrant(old(View()), old(persistenceFault), now, request, user, invite, code, session), o)
    {
      hide CommitAuthorization, ImageOf, DiskAfter, NormalizeUsername, ConsumeInvite;
      var normalized := NormalizeUsername(user.username);
      if normalized.None? || user.id == "" || user.passwordHash == "" {
        return false;
      }
      var open := RegistrationAllowed(now);
      if !open || normalized.value in reg.usernames || |reg.users| >= MAX_USERS {
        return false;
      }
      var snapshot := View();
      reg := reg.(users := reg.users[user.id := user], usernames := reg.usernames[normalized.value := user.id]);
      var web' := ConsumeInvite(snapshot, invite, now);
      if web'.None? {
        Restore(snapshot);
        return false;
      }
      web := web'.value;
      var error := CommitAuthorizationLocked(request, user.id, code, now);
      if error.Some? {
        Restore(snapshot);
        if error == Some(ClientInvalid) {
          grants := grants.(pending := grants.pending - {request});
          var saved := Save(o);
        }
        return false;
      }
      web := web.(sessions := web.sessions[session := Session(user.id, now + SESSION_LIFETIME, now)]);
      ok := SaveOrRollback(snapshot, o);
    }

    /** `registrationPolicyLocked`: looks at the invitations one by one. */
    method RegistrationAllowed(now: int) returns (open: bool)
      ensures open == RegistrationOpen(View(), now)
    {
      if !switches.mode.Public? || switches.awaitingSetup {
        return false;
      }
      if switches.registration {
        return true;
      }
      open := false;
      var todo := web.invites.Keys;
      while todo != {} && !open
        invariant todo <= web.invites.Keys
        invariant open ==> InvitesOpen(web, now)
        invariant !open ==> forall k :: k in web.invites && k !in todo ==> !(now < web.invites[k].expires && web.invites[k].uses > 0)
        decreases |todo|
      {
        var k :| k in todo;
        open := now < web.invites[k].expires && web.invites[k].uses > 0;
        todo := todo - {k};
      }
    }

    // ------------------------------------------------------------------ clients

    /** `handleRegister`, once the request and its challenge have been validated. */
    method HandleRegister(id: string, req: Registration, now: int, o: SaveOutcome) returns (ok: bool, ghost victim: string)
      modifies this
      ensures Process() == Settle(old(Process()), RegisterClient(old(View()), old(persistenceFault), now, id, req, victim), o)
    {
      hide Cleanup, RevokeClients, ImageOf, DiskAfter, Evictable, NewClient;
      victim := "";
      if persistenceFault || !switches.dcr {
        return false, victim;
      }
      CleanUp(now);
      var snapshot := View();
      if req.device != NoKey && On(reg.retired, Immutable(req.device.derivedId)) {
        return false, victim;
      }
      if |reg.clients| >= MAX_CLIENTS {
        var oldest := OldestUnapproved(reg.clients, now);
        if oldest.None? {
          return false, victim;
        }
        victim := oldest.value;
        RevokeClientLocked(oldest.value);
      }
      reg := reg.(clients := reg.clients[id := NewClient(id, req, now)]);
      ok := SaveOrRollback(snapshot, o);
    }

    // ------------------------------------------------------------------- tokens

    /** `issueTokensInFamilyLocked`: a save that fails takes the two new tokens back. */
    method IssueTokensInFamilyLocked(f: Fresh, t: Token, now: int, o: SaveOutcome) returns (ok: bool)
      modifies this
      ensures ok == (!old(persistenceFault) && o.Saved?)
      ensures var g := Issue(old(grants), f, t.client, t.user, t.resource, t.scope, t.family, now);
              Process() == Settle(old(Process()), Commit(old(View()).(grants := g),
                old(View()).(grants := g.(access := g.access - {f.access}, refresh := g.refresh - {f.refresh})), false), o)
    {
      hide ImageOf, DiskAfter;
      grants := grants.(access := grants.access[f.access := Token(t.client, t.user, t.resource, t.scope, t.family, now + ACCESS_LIFETIME)]);
      grants := grants.(refresh := grants.refresh[f.refresh := Token(t.client, t.user, t.resource, t.scope, t.family, now + REFRESH_LIFETIME)]);
      ok := Save(o);
      if !ok {
        grants := grants.(access := grants.access - {f.access});
        grants := grants.(refresh := grants.refresh - {f.refresh});
      }
    }

    /** `exchangeCode` */
    method ExchangeCodeLocked(q: CodeRequest, f: Fresh, now: int, o: SaveOutcome) returns (ok: bool)
      modifies this
      ensures Process() == Settle(old(Process()), ExchangeCode(old(View()), old(persistenceFault), now, q, f), o)
    {
      hide Cleanup, ImageOf, DiskAfter, PkceMatches, OwnedByUser, ApprovedClient, Issue;
      CleanUp(now);
      if q.code !in grants.codes {
        return false;
      }
      var code := grants.codes[q.code];
      grants := grants.(codes := grants.codes - {q.code});
      if !ApprovedClient(reg, code.grant.client) || code.grant.client != q.client || code.grant.redirect != q.redirect ||
         !PkceMatches(q.verifier, code.grant.challenge) {
        return false;
      }
      if q.resource.Some? && q.resource.value != code.grant.resource {
        return false;
      }
      if !OwnedByUser(View(), persistenceFault, code.grant.user, code.grant.resource, KindOf(code.grant.resource)) {
        return false;
      }
      ok := IssueTokensInFamilyLocked(f, Token(code.grant.client, code.grant.user, code.grant.resource, code.grant.scope, f.family, 0), now, o);
    }

    /** `exchangeRefresh` */
    method ExchangeRefreshLocked(q: RefreshRequest, f: Fresh, now: int, o: SaveOutcome) returns (ok: bool)
      modifies this
      ensures Process() == Settle(old(Process()), ExchangeRefresh(old(View()), old(persistenceFault), now, q, f), o)
    {
      hide Cleanup, ImageOf, DiskAfter, OwnedByUser, ApprovedClient, RevokeFamily, Stopped, Issue, Settle;
      ghost var before := Process();
      CleanUp(now);
      ghost var cleaned := View();
      SettleCleaned(before, cleaned, o);
      if !(q.key in grants.refresh && grants.refresh[q.key].client == q.client &&
           (q.resource.Some? ==> q.resource.value == grants.refresh[q.key].resource)) {
        if q.key in grants.refreshUsed && (q.client == "" || grants.refreshUsed[q.key].client == q.client) {
          RevokeFamilyLocked(grants.refreshUsed[q.key].family);
          SettleIgnoresState(before, View(), Commit(View(), View(), false), o);
          var saved := Save(o);
        }
        return false;
      }
      var record := grants.refresh[q.key];
      if !ApprovedClient(reg, record.client) || !OwnedByUser(View(), persistenceFault, record.user, record.resource, KindOf(record.resource)) {
        grants := grants.(refresh := grants.refresh - {q.key});
        SettleIgnoresState(before, View(), Commit(View(), View(), false), o);
        var saved := Save(o);
        return false;
      }
      SettleIgnoresState(before, cleaned, RotateToken(cleaned, persistenceFault, now, q, f), o);
      ok := RotateLocked(q.key, record, f, now, o);
    }

    /** The rotation itself: the old token becomes a used one, unless the save fails. */
    method RotateLocked(key: string, presented: Token, f: Fresh, now: int, o: SaveOutcome) returns (ok: bool)
      modifies this
      ensures var kept := presented.(family := if presented.family == "" then f.family else presented.family);
              var moved := old(grants).(refresh := old(grants).refresh - {key}, refreshUsed := old(grants).refreshUsed[key := kept]);
              var g := Issue(moved, f, kept.client, kept.user, kept.resource, kept.scope, kept.family, now);
              Process() == Settle(old(Process()), Commit(old(View()).(grants := g),
                old(View()).(grants := g.(access := g.access - {f.access}, refresh := (g.refresh - {f.refresh})[key := kept],
                                          refreshUsed := g.refreshUsed - {key})), false), o)
    {
      hide ImageOf, DiskAfter, Stopped, Issue;
      var record := presented;
      grants := grants.(refresh := grants.refresh - {key});
      if record.family == "" {
        record := record.(family := f.family);
      }
      grants := grants.(refreshUsed := grants.refreshUsed[key := record]);
      ok := IssueTokensInFamilyLocked(f, record, now, o);
      if !ok {
        grants := grants.(refreshUsed := grants.refreshUsed - {key});
        grants := grants.(refresh := grants.refresh[key := record]);
      }
    }

    /** `handleRevoke` */
    method HandleRevoke(key: string, o: SaveOutcome)
      modifies this
      ensures Process() == Settle(old(Process()), Revoke(old(View()), key), o)
    {
      hide ImageOf, DiskAfter, WithoutFamily;
      if key in grants.access {
        RevokeFamilyLocked(grants.access[key].family);
      } else if key in grants.refresh {
        RevokeFamilyLocked(grants.refresh[key].family);
      } else if key in grants.refreshUsed {
        RevokeFamilyLocked(grants.refreshUsed[key].family);
      }
      grants := grants.(access := grants.access - {key});
      grants := grants.(refresh := grants.refresh - {key});
      grants := grants.(refreshUsed := grants.refreshUsed - {key});
      var saved := Save(o);
    }

    // ----------------------------------------------------------------- sessions

    /** `createSession`: while the file is in doubt a session lives in memory only. */
    method CreateSessionLocked(current: User, handle: string, now: int, o: SaveOutcome) returns (ok: bool)
      modifies this
      ensures Process() == Settle(old(Process()), CreateSession(old(View()), old(persistenceFault), now, current, handle), o)
    {
      hide ImageOf, DiskAfter;
      if current.id !in reg.users || reg.users[current.id].id == "" || reg.users[current.id].disabled {
        return false;
      }
      if current.passwordHash == "" || reg.users[current.id].passwordHash != current.passwordHash {
        return false;
      }
      var snapshot := View();
      web := web.(sessions := web.sessions[handle := Session(current.id, now + SESSION_LIFETIME, now)]);
      if persistenceFault {
        web := web.(ephemeral := web.ephemeral + {handle});
        return true;
      }
      ok := SaveOrRollback(snapshot, o);
    }

    /** `clearSession` */
    method ClearSessionLocked(handle: string, o: SaveOutcome)
      modifies this
      ensures Process() == Settle(old(Process()), ClearSession(old(View()), handle), o)
    {
      hide ImageOf, DiskAfter;
      web := web.(sessions := web.sessions - {handle});
      web := web.(ephemeral := web.ephemeral - {handle});
      var saved := Save(o);
    }

    /** `handleAdminReauthPOST`, once the password has been verified. */
    method ReauthenticateLocked(current: User, handle: string, renewed: string, now: int, o: SaveOutcome) returns (ok: bool)
      modifies this
      ensures Process() == Settle(old(Process()), Reauthenticate(old(View()), old(persistenceFault), now, current, handle, renewed), o)
    {
      hide ImageOf, DiskAfter, LiveAdmin;
      if handle !in web.sessions || web.sessions[handle].user != current.id || !LiveAdmin(reg, current) {
        return false;
      }
      var snapshot := View();
      var record := web.sessions[handle].(reauthAt := now);
      web := web.(sessions := web.sessions - {handle}, ephemeral := web.ephemeral - {handle});
      web := web.(sessions := web.sessions[renewed := record]);
      if persistenceFault {
        web := web.(ephemeral := web.ephemeral + {renewed});
        return true;
      }
      ok := SaveOrRollback(snapshot, o);
    }

    /** `handleAdminInvite` */
    method HandleAdminInvite(current: User, handle: string, now: int, o: SaveOutcome) returns (ok: bool)
      modifies this
      ensures Process() == Settle(old(Process()), CreateInvite(old(View()), old(persistenceFault), now, current, handle), o)
    {
      hide Cleanup, ImageOf, DiskAfter, LiveAdmin;
      if !LiveAdmin(reg, current) || !switches.mode.Public? || persistenceFault {
        return false;
      }
      CleanUp(now);
      if |web.invites| >= MAX_INVITES {
        return false;
      }
      var snapshot := View();
      web := web.(invites := web.invites[handle := Invite(now + INVITE_LIFETIME, 1)]);
      ok := SaveOrRollback(snapshot, o);
    }

    // --------------------------------------------------- authorization requests

    /** `handleAuthorizeGET`, once the request has been parsed and any device proof checked. */
    method BeginAuthorizationLocked(request: string, a: AuthRequest, now: int) returns (ok: bool)
      modifies this`reg, this`grants, this`web
      ensures BeginAuthorization(old(View()), cfg, now, request, a) == Quiet(View())
    {
      hide Cleanup, MayAskFor;
      CleanUp(now);
      if !MayAskFor(reg, cfg, a) || |grants.pending| >= MAX_PENDING {
        return false;
      }
      var fromIp := CountFrom(grants.pending, a.ip);
      if fromIp >= MAX_PENDING_IP {
        return false;
      }
      grants := grants.(pending := grants.pending[request :=
        Pending(a.client, a.redirect, a.scope, a.resource, a.challenge, a.ip, now + PENDING_LIFETIME, 0, "")]);
      return true;
    }

    /** `failAuthorization`: the fifth failed login ends the request, an earlier one is counted,
        no other request is touched, and so none ever has five. */
    method FailAuthorizationLocked(request: string)
      modifies this`grants
      ensures FailAuthorization(old(View()), request) == Quiet(View())
      ensures grants == old(grants).(pending := grants.pending) && grants.pending - {request} == old(grants).pending - {request}
      ensures request in grants.pending <==> request in old(grants).pending && old(grants).pending[request].attempts < 4
      ensures request in grants.pending ==>
                grants.pending[request] == old(grants).pending[request].(attempts := old(grants).pending[request].attempts + 1)
      ensures (forall k :: k in old(grants).pending ==> old(grants).pending[k].attempts < 5) ==>
                forall k :: k in grants.pending ==> grants.pending[k].attempts < 5
    {
      if request !in grants.pending {
        return;
      }
      var p := grants.pending[request].(attempts := grants.pending[request].attempts + 1);
      if p.attempts >= 5 {
        grants := grants.(pending := grants.pending - {request});
      } else {
        grants := grants.(pending := grants.pending[request := p]);
      }
    }

    // ------------------------------------------------ accounts and administration

    /** `createUserLocked`; `hash` is None when the password is not acceptable. An account is
        created exactly for an unused normalized name below the limit, it is enabled and found
        under that name, and every other account and name stays as it was. */
    method CreateUserLocked(username: string, hash: Option<string>, id: string, admin: bool) returns (ok: bool)
      modifies this`reg
      ensures ok <==> hash.Some? && |old(reg).users| < MAX_USERS &&
                      NormalizeUsername(username).Some? && NormalizeUsername(username).value !in old(reg).usernames
      ensures !ok ==> reg == old(reg)
      ensures ok ==> id in reg.users &&
                     reg == old(reg).(users := old(reg).users[id := reg.users[id]],
                                      usernames := old(reg).usernames[NormalizeUsername(username).value := id])
      ensures ok ==> !reg.users[id].disabled && NormalizeUsername(reg.users[id].username) == NormalizeUsername(username)
      ensures ok ==> reg.users[id].id == id && reg.users[id].passwordHash == hash.value && reg.users[id].admin == admin
      ensures var c := CreateUser(old(reg), username, hash, id, admin); ok == c.Some? && reg == if ok then c.value else old(reg)
    {
      hide NormalizeUsername;
      var normalized := NormalizeUsername(username);
      if normalized.None? || normalized.value in reg.usernames || |reg.users| >= MAX_USERS || hash.None? {
        return false;
      }
      reg := reg.(users := reg.users[id := User(id, Text.Trim(username), hash.value, admin, false)]);
      reg := reg.(usernames := reg.usernames[normalized.value := id]);
      TrimKeepsUsername(username);
      return true;
    }

    /** `handleSetupPOST`: the first account, once. */
    method HandleSetup(username: string, hash: Option<string>, id: string, mode: Mode, open: bool, o: SaveOutcome) returns (ok: bool)
      modifies this
      ensures Process() == Settle(old(Process()), Setup(old(View()), cfg, username, hash, id, mode, open), o)
    {
      hide CreateUser, Settle;
      ghost var before := Process();
      SettleQuiet(before, o);
      if (cfg.modeConfigured && mode != switches.mode) || reg.users != map[] || !switches.awaitingSetup {
        return false;
      }
      var snapshot := View();
      var created := SetUpLocked(username, hash, id, mode, open);
      if !created {
        return false;
      }
      SettleIgnoresState(before, View(), Commit(View(), snapshot, false), o);
      ok := SaveOrRollback(snapshot, o);
    }

    method SetUpLocked(username: string, hash: Option<string>, id: string, mode: Mode, open: bool) returns (ok: bool)
      modifies this`reg, this`switches
      ensures var c := CreateUser(old(reg), username, hash, id, true);
              ok == c.Some? && reg == (if ok then c.value else old(reg)) &&
              switches == if ok then old(switches).(mode := mode, registration := mode.Public? && open, awaitingSetup := false) else old(switches)
    {
      hide CreateUser, NormalizeUsername;
      ok := CreateUserLocked(username, hash, id, true);
      if ok {
        switches := switches.(mode := mode);
        switches := switches.(registration := mode.Public? && open);
        switches := switches.(awaitingSetup := false);
      }
    }

    /** The permanent end of a route, as `revoke-device` and `delete-user` perform it. */
    method RetireLocked(r: Route)
      modifies this`reg, this`grants
      ensures View() == Retire(old(View()), {r})
    {
      hide RevokeRoutes, RevokeClients, Retire;
      ghost var before := View();
      reg := reg.(retired := reg.retired[r := true]);
      reg := reg.(devices := reg.devices - {r});
      reg := reg.(disabled := reg.disabled - {r});
      reg := reg.(records := reg.records - {r});
      assert reg.retired == RetiredRegistry(before.reg, {r}).retired;
      RetireShape(before, {r});
      RevokeDeviceTokensLocked(r);
      assert ClientsBoundTo(reg.clients, r) == BoundToAny(before.reg.clients, {r});
      RevokeDeviceClientsLocked(r);
    }

    /** `disable-device`, by the owner or by an administrator. */
    method DisableDeviceLocked(r: Route, off: bool, owner: string)
      modifies this`reg, this`grants
      ensures View() == SetDisabled(old(View()), r, off, owner)
    {
      hide RevokeRoutes, EnsureRecord;
      reg := reg.(disabled := reg.disabled[r := off]);
      var record := EnsureDeviceRecordLocked(r, owner);
      reg := reg.(records := reg.records[r := record.(disabled := off)]);
      if off {
        RevokeDeviceTokensLocked(r);
      }
    }

    method RetireAllLocked(routes: set<Route>)
      modifies this`reg, this`grants
      ensures View() == Retire(old(View()), routes)
    {
      ghost var before := View();
      var todo := routes;
      ghost var done: set<Route> := {};
      RetireNone(before);
      hide Retire;
      while todo != {}
        invariant todo <= routes && done == routes - todo
        invariant View() == Retire(before, done)
        decreases |todo|
      {
        var r :| r in todo;
        RetireOneMore(before, done, r);
        RetireLocked(r);
        todo := todo - {r};
        done := done + {r};
      }
      assert done == routes;
    }

    /** `delete-user`: the account, its name, every device it leaves behind, its credentials. */
    method DeleteUserLocked(u: string)
      modifies this`reg, this`grants, this`web
      ensures View() == RevokeUser(Retire(old(View()).(reg := RemoveUser(old(reg), u)), LeftBehind(old(reg), u)), u)
    {
      hide Retire, RevokeUser, LeftBehind, RemoveUser;
      var owned := LeftBehind(reg, u);
      reg := RemoveUser(reg, u);
      RetireAllLocked(owned);
      RevokeUserCredentialsLocked(u);
    }

    /** `revoke-token`: the family of the record the handle finds, live ones first. */
    method RevokeTokenLocked(h: string) returns (ok: bool)
      modifies this`grants
      ensures ok == (h in old(grants).refresh || h in old(grants).refreshUsed || h in old(grants).access)
      ensures grants == if !ok then old(grants)
                        else RevokeFamily(old(grants), if h in old(grants).refresh then old(grants).refresh[h].family
                                                       else if h in old(grants).refreshUsed then old(grants).refreshUsed[h].family
                                                       else old(grants).access[h].family)
    {
      hide RevokeFamily;
      if h in grants.refresh {
        RevokeFamilyLocked(grants.refresh[h].family);
        return true;
      }
      if h in grants.refreshUsed {
        RevokeFamilyLocked(grants.refreshUsed[h].family);
        return true;
      }
      if h in grants.access {
        RevokeFamilyLocked(grants.access[h].family);
        return true;
      }
      return false;
    }

    /** Stores a changed account and, where the change calls for it, ends all its credentials. */
    method ChangeUserLocked(u: string, user: User, revoke: bool)
      modifies this`reg, this`grants, this`web
      ensures var t := old(View()).(reg := old(reg).(users := old(reg).users[u := user])); View() == if revoke then RevokeUser(t, u) else t
    {
      hide RevokeUser;
      reg := reg.(users := reg.users[u := user]);
      if revoke {
        RevokeUserCredentialsLocked(u);
      }
    }

    /** The switch of `applyAdminAction`; on an error nothing has changed. */
    method ChangeByAdmin(current: User, a: AdminAction) returns (ok: bool)
      modifies this`reg, this`grants, this`web, this`switches
      ensures var c := AdminChange(old(View()), cfg, current, a); ok == c.Some? && View() == if ok then c.value else old(View())
    {
      hide AdminChange, LightChange;
      if OnAccount(a) {
        ok := ChangeAccount(current, a);
      } else if Light(a) {
        ok := ChangeSwitchOrSession(a);
        SwitchesIgnoreCurrent(old(View()), cfg, current, a);
      } else {
        ok := ChangeDeviceOrToken(current, a);
      }
    }

    /** The actions on one account. */
    method ChangeAccount(current: User, a: AdminAction) returns (ok: bool)
      requires OnAccount(a)
      modifies this`reg, this`grants, this`web
      ensures var c := AdminChange(old(View()), cfg, current, a); ok == c.Some? && View() == if ok then c.value else old(View())
    {
      hide RevokeUser, Retire, RevokeClients, CreateUser, LeftBehind, RemoveUser;
      match a {
        case RotatePassword(u, hash) =>
          if hash.None? || u !in reg.users || reg.users[u].disabled { return false; }
          ChangeUserLocked(u, reg.users[u].(passwordHash := hash.value), true);
          return true;
        case CreateAccount(username, hash, id) =>
          ok := CreateUserLocked(username, hash, id, false);
        case DisableUser(u, toggle) =>
          if u !in reg.users || reg.users[u].id == current.id || toggle.None? { return false; }
          ChangeUserLocked(u, reg.users[u].(disabled := toggle.value), toggle.value);
          return true;
        case DeleteUser(u) =>
          if u == current.id || u !in reg.users { return false; }
          DeleteUserLocked(u);
          return true;
      }
    }

    /** The actions on one device, one client or one token. */
    method ChangeDeviceOrToken(current: User, a: AdminAction) returns (ok: bool)
      requires !OnAccount(a) && !Light(a)
      modifies this`reg, this`grants
      ensures var c := AdminChange(old(View()), cfg, current, a); ok == c.Some? && View() == if ok then c.value else old(View())
    {
      hide Retire, RevokeClients, SetDisabled, EnsureRecord, RevokeFamily;
      match a {
        case DisableDevice(r, toggle) =>
          if r !in reg.devices || toggle.None? { return false; }
          DisableDeviceLocked(r, toggle.value, reg.devices[r]);
          return true;
        case RevokeDevice(r) =>
          if r !in reg.devices { return false; }
          RetireLocked(r);
          return true;
        case RenameDevice(r, valid) =>
          if r !in reg.devices || !valid { return false; }
          var record := EnsureDeviceRecordLocked(r, reg.devices[r]);
          return true;
        case RevokeClientAction(c) =>
          if c !in reg.clients { return false; }
          RevokeClientLocked(c);
          return true;
        case RevokeToken(h) =>
          ok := RevokeTokenLocked(h);
      }
    }

    /** The actions that only throw a switch or drop a session or an invitation. */
    method ChangeSwitchOrSession(a: AdminAction) returns (ok: bool)
      requires Light(a)
      modifies this`web, this`switches
      ensures var c := LightChange(old(View()), cfg, a); ok == c.Some? && View() == if ok then c.value else old(View())
    {
      hide DropSessions;
      match a {
        case SetMode(m) =>
          if cfg.modeConfigured || m.None? || m.value == switches.mode { return false; }
          switches := switches.(mode := m.value);
          switches := switches.(registration := false);
        case SetRegistration(t) =>
          if t.None? || !switches.mode.Public? || cfg.registrationDisabled { return false; }
          switches := switches.(registration := t.value);
        case SetDcr(t) =>
          if t.None? { return false; }
          switches := switches.(dcr := t.value);
        case SetMcp(t) =>
          if t.None? { return false; }
          switches := switches.(mcp := t.value);
        case SetAgent(t) =>
          if t.None? { return false; }
          switches := switches.(agent := t.value);
        case SetKillSwitch(t) =>
          if t.None? { return false; }
          switches := switches.(kill := t.value);
        case SetUsage(t) =>
          if t.None? { return false; }
        case SetReward(t, ready) =>
          if t.None? || (t.value && !ready) { return false; }
        case LogoutUser(u) =>
          if u !in reg.users { return false; }
          DeleteUserSessionsLocked(u);
        case LogoutAll(u) =>
          if u !in reg.users { return false; }
          DeleteUserSessionsLocked(u);
        case LogoutSession(h) =>
          if h !in web.sessions { return false; }
          web := web.(sessions := web.sessions - {h});
        case RevokeInvite(h) =>
          if h !in web.invites { return false; }
          web := web.(invites := web.invites - {h});
        case _ => return false;
      }
      return true;
    }

    /** `applyAdminAction`: while the file is in doubt only recovery actions run, and
        their save is a recovery save. */
    method ApplyAdminAction(current: User, a: AdminAction, o: SaveOutcome) returns (ok: bool)
      modifies this
      ensures Process() == Settle(old(Process()), Admin(old(View()), cfg, old(persistenceFault), current, a), o)
      ensures ok ==> o.Saved?
    {
      hide AdminChange, RecoveryAllowed, Settle, LiveAdmin;
      ghost var before := Process();
      SettleQuiet(before, o);
      if !LiveAdmin(reg, current) {
        return false;
      }
      var recovering := persistenceFault;
      if recovering && !RecoveryAllowed(a) {
        return false;
      }
      var snapshot := View();
      var changed := ChangeByAdmin(current, a);
      if !changed {
        return false;
      }
      SettleIgnoresState(before, View(), Commit(View(), snapshot, recovering), o);
      if recovering {
        ok := SaveRecoveryOrRollback(snapshot, o);
      } else {
        ok := SaveOrRollback(snapshot, o);
      }
    }

    /** `applyAccountActionLocked` */
    method ChangeByOwner(current: User, a: AccountAction) returns (ok: bool)
      modifies this`reg, this`grants, this`web
      ensures var c := AccountChange(old(View()), current, a); ok == c.Some? && View() == if ok then c.value else old(View())
    {
      hide Retire, SetDisabled, EnsureRecord, RevokeFamily, LiveUser, OwnsFamily;
      if !LiveUser(reg, current) {
        return false;
      }
      match a {
        case OwnRename(r, valid) =>
          if Get(reg.devices, r, "") != current.id || !valid { return false; }
          var record := EnsureDeviceRecordLocked(r, current.id);
        case OwnDisable(r, toggle) =>
          if Get(reg.devices, r, "") != current.id || toggle.None? { return false; }
          DisableDeviceLocked(r, toggle.value, current.id);
        case OwnRevoke(r) =>
          if Get(reg.devices, r, "") != current.id { return false; }
          RetireLocked(r);
        case OwnRevokeFamily(family) =>
          var own := HoldsFamily(current.id, family);
          if !own { return false; }
          RevokeFamilyLocked(family);
        case OwnLogout(handle) =>
          if !(handle in web.sessions && web.sessions[handle].user == current.id) { return false; }
          web := web.(sessions := web.sessions - {handle}, ephemeral := web.ephemeral - {handle});
        case OwnLogoutOthers(keep) =>
          var gone := set k | k in web.sessions && web.sessions[k].user == current.id && k != keep;
          web := web.(sessions := web.sessions - gone, ephemeral := web.ephemeral - gone);
        case OwnUnknown => return false;
      }
      return true;
    }

    /** The search of `revoke-family` through the account's live tokens. */
    method HoldsFamily(u: string, family: string) returns (own: bool)
      ensures own == OwnsFamily(grants, u, family)
    {
      if family == "" {
        return false;
      }
      var inAccess := SomeToken(grants.access, u, family);
      var inRefresh := SomeToken(grants.refresh, u, family);
      own := inAccess || inRefresh;
    }

    method SomeToken(m: map<string, Token>, u: string, family: string) returns (found: bool)
      ensures found == exists k :: k in m && m[k].user == u && m[k].family == family
    {
      found := false;
      var todo := m.Keys;
      while todo != {}
        invariant todo <= m.Keys
        invariant found == exists k :: k in m && k !in todo && m[k].user == u && m[k].family == family
        decreases |todo|
      {
        var k :| k in todo;
        if m[k].user == u && m[k].family == family {
          found := true;
        }
        todo := todo - {k};
      }
    }

    /** `handleAccountAction`, after its form has been checked. */
    method HandleAccountAction(current: User, a: AccountAction, o: SaveOutcome) returns (ok: bool)
      modifies this
      ensures Process() == Settle(old(Process()), Account(old(View()), old(persistenceFault), current, a), o)
    {
      hide AccountChange, ImageOf, DiskAfter;
      if persistenceFault {
        return false;
      }
      var snapshot := View();
      var changed := ChangeByOwner(current, a);
      if !changed {
        return false;
      }
      ok := SaveOrRollback(snapshot, o);
    }

    /** `changeOwnPassword`, once the old password has been verified and the new one hashed. */
    method ChangeOwnPassword(current: User, hash: string, o: SaveOutcome) returns (ok: bool)
      modifies this
      ensures Process() == Settle(old(Process()), ChangePassword(old(View()), old(persistenceFault), current, hash), o)
    {
      hide RevokeUser, ImageOf, DiskAfter;
      if persistenceFault || !LiveUser(reg, current) {
        return false;
      }
      var snapshot := View();
      reg := reg.(users := reg.users[current.id := reg.users[current.id].(passwordHash := hash)]);
      RevokeUserCredentialsLocked(current.id);
      ok := SaveOrRollback(snapshot, o);
    }
  }

  lemma RevokedKeepsOthers(s: State, done: set<string>, c: string)
    ensures var m := RevokeClients(s, done).reg.clients;
            (c in m <==> c in s.reg.clients && c !in done) && (c in m ==> m[c] == s.reg.clients[c])
  {
  }

  /** Clean-up changes no credential's standing except by its expiry. */
  lemma CleanedVerifies(s: State, fault: bool, key: string, resource: Resource, kind: Kind, now: int)
    ensures Verifies(Cleanup(s, now), fault, key, resource, kind) <==>
            Verifies(s, fault, key, resource, kind) && now < s.grants.access[key].expires
  {
    hide LivePendings, LiveCodes, LiveSessions, LiveInvites;
  }

  lemma AuthorizeErrors(s: State, fault: bool, u: string, clientId: string, resource: Resource)
    ensures var a := AuthorizeResource(s, fault, u, clientId, resource); a.Failure? ==> a.error.Refused?
  {
    hide BindKey, EnsureRecord, RoutesOf;
  }

  lemma AuthorizeKeepsClients(s: State, fault: bool, u: string, clientId: string, resource: Resource)
    requires AuthorizeResource(s, fault, u, clientId, resource).Success?
    ensures AuthorizeResource(s, fault, u, clientId, resource).value.clients == s.reg.clients
  {
    hide ValidateDeviceKey, BindKey, EnsureRecord, RoutesOf;
  }

  // --------------------------------------------------------------- settlement

  /** What a request settles to depends on the state only through the effect. */
  lemma SettleIgnoresState(r: Relay, s: State, e: Effect, o: SaveOutcome)
    ensures Settle(r.(st := s), e, o) == Settle(r, e, o)
  {
  }

  lemma SettleCleaned(r: Relay, s: State, o: SaveOutcome)
    ensures Settle(r, Quiet(s), o) == r.(st := s)
  {
  }

  lemma SettleQuiet(r: Relay, o: SaveOutcome)
    ensures Settle(r, Quiet(r.st), o) == r
  {
  }

  // ---------------------------------------------------- one route after another

  lemma RetireNone(s: State)
    ensures Retire(s, {}) == s
  {
    hide RevokeClients;
    var g := RevokeRoutes(s.grants, {});
    assert g.access == s.grants.access;
    assert g.refresh == s.grants.refresh;
    assert g.refreshUsed == s.grants.refreshUsed;
    assert g.pending == s.grants.pending;
    assert g.codes == s.grants.codes;
    var reg := RetiredRegistry(s.reg, {});
    assert reg.retired == s.reg.retired;
    assert reg.devices == s.reg.devices;
    assert reg.disabled == s.reg.disabled;
    assert reg.records == s.reg.records;
    assert BoundToAny(s.reg.clients, {}) == {};
    RetireShape(s, {});
    RevokeNone(s);
  }

  lemma RoutesOneByOne(tokens: map<string, Token>, pending: map<string, Pending>, codes: map<string, Code>, a: set<Route>, b: set<Route>)
    ensures WithoutRoutes(WithoutRoutes(tokens, a), b) == WithoutRoutes(tokens, a + b)
    ensures PendingsWithoutRoutes(PendingsWithoutRoutes(pending, a), b) == PendingsWithoutRoutes(pending, a + b)
    ensures CodesWithoutRoutes(CodesWithoutRoutes(codes, a), b) == CodesWithoutRoutes(codes, a + b)
  {
  }

  lemma RevokeRoutesOneMore(g: Grants, done: set<Route>, r: Route)
    ensures RevokeRoutes(RevokeRoutes(g, done), {r}) == RevokeRoutes(g, done + {r})
  {
    RoutesOneByOne(g.access, g.pending, g.codes, done, {r});
    RoutesOneByOne(g.refresh, g.pending, g.codes, done, {r});
    RoutesOneByOne(g.refreshUsed, g.pending, g.codes, done, {r});
    hide WithoutRoutes, PendingsWithoutRoutes, CodesWithoutRoutes;
  }

  lemma RoutesAndClients(tokens: map<string, Token>, pending: map<string, Pending>, codes: map<string, Code>, ids: set<string>, routes: set<Route>)
    ensures WithoutRoutes(WithoutClients(tokens, ids), routes) == WithoutClients(WithoutRoutes(tokens, routes), ids)
    ensures PendingsWithoutRoutes(PendingsWithoutClients(pending, ids), routes) == PendingsWithoutClients(PendingsWithoutRoutes(pending, routes), ids)
    ensures CodesWithoutRoutes(CodesWithoutClients(codes, ids), routes) == CodesWithoutClients(CodesWithoutRoutes(codes, routes), ids)
  {
  }

  /** Revoking clients and revoking routes' tokens do not get in each other's way. */
  lemma RevocationsCommute(s: State, ids: set<string>, routes: set<Route>)
    ensures RevokeRoutes(RevokeClients(s, ids).grants, routes) == RevokeClients(s.(grants := RevokeRoutes(s.grants, routes)), ids).grants
  {
    RoutesAndClients(s.grants.access, s.grants.pending, s.grants.codes, ids, routes);
    RoutesAndClients(s.grants.refresh, s.grants.pending, s.grants.codes, ids, routes);
    RoutesAndClients(s.grants.refreshUsed, s.grants.pending, s.grants.codes, ids, routes);
    hide WithoutRoutes, PendingsWithoutRoutes, CodesWithoutRoutes, WithoutClients, PendingsWithoutClients, CodesWithoutClients;
  }

  function RetiredRegistry(reg: Registry, routes: set<Route>): Registry {
    reg.(retired := reg.retired + Marks(routes), devices := reg.devices - routes,
         disabled := reg.disabled - routes, records := reg.records - routes)
  }

  lemma MinusTwice<V>(m: map<Route, V>, a: set<Route>, b: set<Route>)
    ensures m - a - b == m - (a + b)
  {
  }

  function Marks(routes: set<Route>): map<Route, bool> {
    map r | r in routes :: true
  }

  lemma MarksTwice(m: map<Route, bool>, a: set<Route>, b: set<Route>)
    ensures m + Marks(a) + Marks(b) == m + Marks(a + b)
  {
  }

  lemma RetiredOneMore(reg: Registry, done: set<Route>, r: Route)
    ensures RetiredRegistry(RetiredRegistry(reg, done), {r}) == RetiredRegistry(reg, done + {r})
  {
    hide Marks;
    MarksTwice(reg.retired, done, {r});
    MinusTwice(reg.devices, done, {r});
    MinusTwice(reg.disabled, done, {r});
    MinusTwice(reg.records, done, {r});
  }

  /** Retiring routes one after another is retiring them together. */
  lemma RetireOneMore(s: State, done: set<Route>, r: Route)
    ensures Retire(Retire(s, done), {r}) == Retire(s, done + {r})
  {
    var ids, more := BoundToAny(s.reg.clients, done), BoundToAny(s.reg.clients - BoundToAny(s.reg.clients, done), {r});
    assert ids + more == BoundToAny(s.reg.clients, done + {r});
    var m := s.(reg := RetiredRegistry(s.reg, done), grants := RevokeRoutes(s.grants, done));
    var n := s.(reg := RetiredRegistry(s.reg, done + {r}), grants := RevokeRoutes(s.grants, done + {r}));
    RetireShape(s, done);
    RetireShape(s, done + {r});
    var t := Retire(s, done);
    RetireShape(t, {r});
    RevokedRegistry(m, ids);
    hide Retire, RevokeClients, RevokeRoutes, BoundToAny, RetiredRegistry;
    RevocationsCommute(m, ids, {r});
    RevokeRoutesOneMore(s.grants, done, r);
    RetiredOneMore(s.reg, done, r);
    RetiredClients(t.reg, m.reg, ids, {r});
    RevokedWith(m, n, ids, {r});
    RevokeMore(n, ids, more);
  }

  lemma RetireShape(s: State, routes: set<Route>)
    ensures Retire(s, routes) ==
            RevokeClients(s.(reg := RetiredRegistry(s.reg, routes), grants := RevokeRoutes(s.grants, routes)), BoundToAny(s.reg.clients, routes))
  {
    hide RevokeClients, RevokeRoutes, BoundToAny;
  }

  lemma RevokedRegistry(s: State, ids: set<string>)
    ensures RevokeClients(s, ids).reg == s.reg.(clients := s.reg.clients - ids)
    ensures RevokeClients(s, ids).web == s.web && RevokeClients(s, ids).switches == s.switches
  {
  }

  lemma RetiredClients(a: Registry, b: Registry, ids: set<string>, routes: set<Route>)
    requires a == b.(clients := b.clients - ids)
    ensures RetiredRegistry(a, routes) == RetiredRegistry(b, routes).(clients := b.clients - ids)
    ensures RetiredRegistry(b, routes).clients == b.clients
  {
  }

  /** Dropping clients first and then rewriting the rest is rewriting first and then dropping. */
  lemma RevokedWith(m: State, n: State, ids: set<string>, routes: set<Route>)
    requires n.web == m.web && n.switches == m.switches && n.reg.clients == m.reg.clients && n.grants == RevokeRoutes(m.grants, routes)
    requires RevokeRoutes(RevokeClients(m, ids).grants, routes) == RevokeClients(m.(grants := RevokeRoutes(m.grants, routes)), ids).grants
    ensures RevokeClients(n, ids) == State(n.reg.(clients := n.reg.clients - ids), RevokeRoutes(RevokeClients(m, ids).grants, routes), m.web, m.switches)
  {
    hide RevokeRoutes, WithoutClients, PendingsWithoutClients, CodesWithoutClients;
  }

  predicate OnAccount(a: AdminAction) {
    a.RotatePassword? || a.CreateAccount? || a.DisableUser? || a.DeleteUser?
  }

  predicate Light(a: AdminAction) {
    !OnAccount(a) && !a.DisableDevice? && !a.RevokeDevice? && !a.RenameDevice? && !a.RevokeClientAction? && !a.RevokeToken?
  }

  /** The light actions ask nothing about who performs them. */
  function LightChange(s: State, cfg: Config, a: AdminAction): Option<State>
    requires Light(a)
  {
    hide DropSessions;
    AdminChange(s, cfg, User("", "", "", false, false), a)
  }

  lemma SwitchesIgnoreCurrent(s: State, cfg: Config, current: User, a: AdminAction)
    requires Light(a)
    ensures AdminChange(s, cfg, current, a) == LightChange(s, cfg, a)
  {
    hide DropSessions;
  }

  lemma SameRecord(a: Registry, b: Registry, r: Route, owner: string)
    requires Get(a.records, r, NoRecord) == Get(b.records, r, NoRecord) && a.disabled == b.disabled
    ensures EnsureRecord(a, r, owner) == EnsureRecord(b, r, owner)
  {
  }

  /** The records once those of `done` have been ensured. */
  function EnsureSome(reg: Registry, done: set<Route>): map<Route, DeviceRecord>
    requires done <= reg.devices.Keys
  {
    map r | r in reg.records.Keys + done :: if r in done then EnsureRecord(reg, r, reg.devices[r]) else reg.records[r]
  }

  lemma EnsuredNone(reg: Registry)
    ensures EnsureSome(reg, {}) == reg.records
  {
  }

  lemma EnsuredOneMore(reg: Registry, done: set<Route>, r: Route)
    requires done <= reg.devices.Keys && r in reg.devices && r !in done
    ensures EnsureSome(reg, done + {r}) == EnsureSome(reg, done)[r := EnsureRecord(reg, r, reg.devices[r])]
    ensures Get(EnsureSome(reg, done), r, NoRecord) == Get(reg.records, r, NoRecord)
  {
    hide EnsureRecord;
  }

  lemma EnsuredEvery(reg: Registry)
    ensures EnsureSome(reg, reg.devices.Keys) == EnsureAll(reg)
  {
    hide EnsureRecord;
  }
}
