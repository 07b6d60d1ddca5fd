/** What a restart does to a Relay that was saved: exactly when the process comes up, and exactly
    what of the saved state works again. */
module RelayRestart {
  import opened Wrappers
  import opened RelayState
  import opened RelayOps
  import opened RelayInvariant
  import opened RelayRequests
  import opened RelaySafety
  import opened RelayRuns
  import opened RelayConsent
  import opened RelayAccounts
  import opened Resources
  import opened StateFile
  import RelayServer
  import RelayAgents
  import Text

  // ------------------------------------------------------------------ coming up

  /** The mode the operator chose, or else the one of the file. */
  function ModeFrom(d: Disk, b: Boot): Mode {
    if b.cfg.modeConfigured || d.file.None? then b.mode else d.file.value.settings.mode
  }

  predicate Peopled(d: Disk) {
    d.file.Some? && d.file.value.users != map[]
  }

  /** A private instance without an account starts only if its owner can be made and saved, or
      if no owner is configured and a setup token lets the first visitor become one. */
  predicate OwnerReady(d: Disk, b: Boot) {
    if b.owner.None? then b.setupToken
    else !d.mark.Dirty? && b.owner.value.Some? && NormalizeUsername(b.cfg.ownerUsername).Some? && b.second.Saved?
  }

  /** A process comes up exactly when its guard is not torn, what it has read and cleaned up could be
      saved if the guard was clean, and, in private mode, it has an account or may have its first. */
  lemma StartsExactly(base: Origin, r: Relay, b: Boot)
    requires Sound(r) && (r.disk.file.Some? ==> Writable(r.disk.file.value))
    ensures Start(base, r, b).up <==>
              !r.disk.mark.Torn? && (r.disk.file.Some? && r.disk.mark.Clean? ==> b.first.Saved?) &&
              (ModeFrom(r.disk, b).Public? || Peopled(r.disk) || OwnerReady(r.disk, b))
  {
    var down, begun := r.(up := false), r.(up := true, cfg := b.cfg, fault := r.disk.mark.Dirty?);
    hide Sound, Writable, FirstAccount, Read, UsersAccepted;
    if r.disk.file.Some? {
      OnFile(base, r, b);
      hide Start;
      if !r.disk.mark.Torn? && (r.disk.mark.Clean? ==> b.first.Saved?) {
        OwnerComes(Read(r, b), down, b);
      }
    } else {
      OwnerComes(begun.(st := Blank(b)), down, b);
    }
  }

  /** A start on a file that may go on does so with what it has read. */
  lemma OnFile(base: Origin, r: Relay, b: Boot)
    requires Sound(r) && r.disk.file.Some? && Writable(r.disk.file.value)
    ensures UsersAccepted(r.disk.file.value.users)
    ensures if r.disk.mark.Torn? || (r.disk.mark.Clean? && !b.first.Saved?) then !Start(base, r, b).up
            else Start(base, r, b) == FirstAccount(Read(r, b), r.(up := false), b) && Read(r, b).up && (Read(r, b).fault <==> r.disk.mark.Dirty?)
    ensures var s := Read(r, b).st;
            s.switches.mode == ModeFrom(r.disk, b) && (s.reg.users != map[] <==> Peopled(r.disk)) && (s.reg.users == map[] ==> s.reg.usernames == map[])
  {
    SoundFileLoads(base, r.disk, r.drawn) by { hide SoundState, SoundDisk, Writable; }
    hide Sound, Writable, UsersAccepted, FirstAccount, Read, Start, ModeFrom, Peopled;
    GoesOn(base, r, b);
    ReadGoesOn(r, b);
    RelayAgents.ReadState(r, b);
    ReadSwitches(r.disk, b);
  }

  lemma GoesOn(base: Origin, r: Relay, b: Boot)
    requires r.disk.file.Some? && Writable(r.disk.file.value) && UsersAccepted(r.disk.file.value.users)
    requires Canonicalize(base, Encode(base, r.disk.file.value)) == r.disk.file
    ensures if r.disk.mark.Torn? || (r.disk.mark.Clean? && !b.first.Saved?) then !Start(base, r, b).up
            else Start(base, r, b) == FirstAccount(Read(r, b), r.(up := false), b)
  {
    hide Writable, UsersAccepted, FirstAccount, Cleanup, Loaded, Canonicalize, Encode, Settle;
  }

  lemma ReadGoesOn(r: Relay, b: Boot)
    requires r.disk.file.Some? && UsersAccepted(r.disk.file.value.users)
    ensures Read(r, b).up && (r.disk.mark.Dirty? || b.first.Saved? ==> (Read(r, b).fault <==> r.disk.mark.Dirty?))
  {
    hide UsersAccepted, Cleanup, Loaded, ImageOf, DiskAfter;
  }

  lemma ReadSwitches(d: Disk, b: Boot)
    requires d.file.Some? && UsersAccepted(d.file.value.users)
    ensures var s := Cleanup(Loaded(d.file.value, b), b.now);
            s.switches.mode == ModeFrom(d, b) && (s.reg.users != map[] <==> Peopled(d)) && (s.reg.users == map[] ==> s.reg.usernames == map[])
  {
    var i := d.file.value;
    CleanedUsers(i, b, b.now);
    FewNames(i, b);
    assert Loaded(i, b).switches.mode == ModeFrom(d, b) by { hide EnsureAll, Adopt, IndexOf, UsersAccepted; }
    hide Loaded, Cleanup, UsersAccepted;
  }

  lemma FewNames(i: Image, b: Boot)
    requires UsersAccepted(i.users)
    ensures i.users == map[] ==> Cleanup(Loaded(i, b), b.now).reg.usernames == map[]
  {
    hide EnsureAll, UsersAccepted, CleanGrants, FreshClients, LiveSessions, LiveInvites;
  }

  lemma OwnerComes(t: Relay, down: Relay, b: Boot)
    requires t.up && !down.up && (t.st.reg.users == map[] ==> t.st.reg.usernames == map[])
    ensures FirstAccount(t, down, b).up <==>
              t.st.switches.mode.Public? || t.st.reg.users != map[] ||
              (if b.owner.None? then b.setupToken
               else !t.fault && b.owner.value.Some? && NormalizeUsername(b.cfg.ownerUsername).Some? && b.second.Saved?)
  {
    if t.st.reg.users == map[] && b.owner.Some? {
      FirstIsCreated(AwaitSetup(t.st, b.setupToken).reg, b.cfg.ownerUsername, b.owner.value, b.ownerId);
    }
    hide CreateUser, NormalizeUsername, ImageOf, DiskAfter;
  }

  /** The first account needs a valid name and an acceptable password, and nothing else. */
  lemma FirstIsCreated(reg: Registry, username: string, hash: Option<string>, id: string)
    requires reg.users == map[] && reg.usernames == map[]
    ensures CreateUser(reg, username, hash, id, true).Some? <==> NormalizeUsername(username).Some? && hash.Some?
  {
    hide NormalizeUsername;
  }

  /** On an empty disk a private instance begins with exactly its owner, an enabled administrator
      under the configured name, and that is what is saved. */
  lemma OwnerBegins(base: Origin, r: Relay, b: Boot)
    requires Sound(r) && r.disk.file.None? && b.mode.Private? && b.owner.Some? && Start(base, r, b).up
    ensures var t := Start(base, r, b);
            b.owner.value.Some? && Enrolls(EmptyRegistry, t.st.reg, b.cfg.ownerUsername, b.owner.value.value, b.ownerId, true) &&
            t.st.grants == EmptyGrants && t.st.web == EmptyWeb && !t.fault && Holding(t.disk, t.st)
  {
    StartsExactly(base, r, b);
    hide NormalizeUsername, ImageOf, Canonicalize, Encode, Sound, Writable;
  }

  // -------------------------------------------------------------- what works again

  /** The disk holds this state and nothing of the save is left to be done. */
  predicate Holding(d: Disk, s: State) {
    d.mark.Clean? && d.file == Some(ImageOf(s))
  }

  /** After a restart a key works exactly where it did in the state that was saved, unless it has
      expired meanwhile. */
  lemma KeysWorkAgain(base: Origin, r: Relay, s: State, b: Boot, key: string, resource: Resource, kind: Kind)
    requires Sound(r) && Holding(r.disk, s) && Start(base, r, b).up
    ensures var t := Start(base, r, b);
            Verifies(t.st, t.fault, key, resource, kind) <==> Verifies(s, false, key, resource, kind) && b.now < s.grants.access[key].expires
  {
    var i := ImageOf(s);
    SoundFileLoads(base, r.disk, r.drawn) by { hide SoundState, SoundDisk, Writable; }
    SwitchesBack(base, r, s, b);
    RelayAgents.StartedState(base, r, b, i) by { hide SoundState, SoundDisk, Writable; }
    NobodysTokens(r, s);
    var l := Loaded(i, b);
    LoadedVerifies(s, b, key, resource, kind) by { hide Sound, Writable; }
    RelayServer.CleanedVerifies(l, false, key, resource, kind, b.now);
    assert l.grants.access == s.grants.access by { hide EnsureAll, Adopt, IndexOf, UsersAccepted, Sound, Writable; }
    CleanedUsers(i, b, b.now) by { hide Sound, Writable; }
    hide Start, Sound, Writable, UsersAccepted, Loaded, Cleanup, ImageOf, OwnedByUser, ApprovedClient;
    var t, c := Start(base, r, b), Cleanup(l, b.now);
    if s.reg.users != map[] {
      assert t.st.reg == c.reg;
      OwnedAlike(t.st, t.fault, c, false, if key in c.grants.access then c.grants.access[key].user else "", resource, kind);
    }
  }

  lemma OwnedAlike(a: State, f: bool, b: State, g: bool, u: string, resource: Resource, kind: Kind)
    requires a.reg == b.reg && f == g && a.switches.kill == b.switches.kill && a.switches.mcp == b.switches.mcp && a.switches.agent == b.switches.agent
    ensures OwnedByUser(a, f, u, resource, kind) <==> OwnedByUser(b, g, u, resource, kind)
  {
  }

  /** Whatever is saved belongs to an account. */
  lemma NobodysTokens(r: Relay, s: State)
    requires Sound(r) && Holding(r.disk, s)
    ensures s.reg.users == map[] ==> s.grants.access == map[] && s.grants.refresh == map[] && s.grants.refreshUsed == map[]
  {
    var i := ImageOf(s);
    assert r.disk.file in Files(r.disk);
    assert TokensOk(i.clients, i.users, i.access) && TokensOk(i.clients, i.users, i.refresh) && TokensOk(i.clients, i.users, i.refreshUsed) by {
      hide SoundState, TokensOk, DirectoryOk, ClientsOk, Files, NamesDrawn;
    }
    hide Sound, Files, ImageOk;
  }

  lemma LoadedVerifies(s: State, b: Boot, key: string, resource: Resource, kind: Kind)
    requires UsersAccepted(ImageOf(s).users)
    ensures Verifies(Loaded(ImageOf(s), b), false, key, resource, kind) <==> Verifies(s, false, key, resource, kind)
  {
    hide UsersAccepted, IndexOf, SameName;
  }

  /** What stays switched on or off, and that a process that comes up from a clean guard is in no doubt. */
  lemma SwitchesBack(base: Origin, r: Relay, s: State, b: Boot)
    requires Sound(r) && Holding(r.disk, s) && Start(base, r, b).up
    ensures var t, mode := Start(base, r, b), ModeFrom(r.disk, b);
            !t.fault && t.st.switches.kill == s.switches.kill && t.st.switches.mcp == s.switches.mcp && t.st.switches.agent == s.switches.agent &&
            t.st.switches.dcr == s.switches.dcr && t.st.switches.mode == mode &&
            t.st.switches.awaitingSetup == (b.setupToken && s.reg.users == map[]) &&
            (t.st.switches.registration <==> s.switches.registration && s.switches.mode.Public? && mode.Public? &&
                                             !b.cfg.registrationDisabled && !t.st.switches.awaitingSetup)
  {
    hide Sound, Writable, UsersAccepted, Cleanup, Loaded, Read, Start, FirstAccount;
    HeldUsers(base, r, s);
    ReadIsLoaded(base, r, s, b);
    LoadedSwitches(s, b);
    OwnerLeavesSwitches(Read(r, b), r.(up := false), b);
  }

  lemma HeldUsers(base: Origin, r: Relay, s: State)
    requires Sound(r) && Holding(r.disk, s)
    ensures Writable(ImageOf(s)) && UsersAccepted(ImageOf(s).users)
  {
    hide SoundState, SoundDisk, Writable, UsersAccepted, ImageOf;
    SoundFileLoads(base, r.disk, r.drawn);
  }

  /** It continues with what it has read, cleaned up. */
  lemma ReadIsLoaded(base: Origin, r: Relay, s: State, b: Boot)
    requires Sound(r) && Holding(r.disk, s) && UsersAccepted(ImageOf(s).users) && Start(base, r, b).up
    ensures Start(base, r, b) == FirstAccount(Read(r, b), r.(up := false), b) && !Read(r, b).fault
    ensures Read(r, b).st == Cleanup(Loaded(ImageOf(s), b), b.now)
    ensures Read(r, b).st.switches == Loaded(ImageOf(s), b).switches && Read(r, b).st.reg.users.Keys == s.reg.users.Keys
  {
    StartsExactly(base, r, b) by { hide SoundState, SoundDisk, UsersAccepted; }
    StartCases(base, r, b) by { hide SoundState, SoundDisk, UsersAccepted; }
    hide Sound, Writable, Start, FirstAccount, OwnerReady, Peopled, ModeFrom;
    CleanRead(r, s, b);
    hide *;
  }

  lemma CleanRead(r: Relay, s: State, b: Boot)
    requires Holding(r.disk, s) && UsersAccepted(ImageOf(s).users) && b.first.Saved?
    ensures !Read(r, b).fault && Read(r, b).st == Cleanup(Loaded(ImageOf(s), b), b.now)
    ensures Read(r, b).st.switches == Loaded(ImageOf(s), b).switches && Read(r, b).st.reg.users.Keys == s.reg.users.Keys
  {
    CleanedUsers(ImageOf(s), b, b.now);
    assert ImageOf(s).users == s.reg.users;
    hide UsersAccepted, Loaded, Cleanup, DiskAfter, ImageOf;
  }

  lemma LoadedSwitches(s: State, b: Boot)
    requires UsersAccepted(ImageOf(s).users)
    ensures var w := Loaded(ImageOf(s), b).switches;
            var mode := if b.cfg.modeConfigured then b.mode else s.switches.mode;
            w == Switches(mode, s.switches.registration && s.switches.mode.Public? && mode.Public? && !b.cfg.registrationDisabled,
                          s.switches.dcr, s.switches.mcp, s.switches.agent, s.switches.kill, false)
  {
    hide UsersAccepted, EnsureAll, Adopt, IndexOf;
  }

  lemma OwnerLeavesSwitches(t: Relay, down: Relay, b: Boot)
    requires !down.up && FirstAccount(t, down, b).up && !t.fault
    ensures var n := FirstAccount(t, down, b);
            !n.fault && n.st.switches == AwaitSetup(t.st, b.setupToken).switches
  {
    hide CreateUser, ImageOf, DiskAfter;
  }

  lemma OwnerStays(t: Relay, down: Relay, b: Boot)
    requires t.st.reg.users != map[] && FirstAccount(t, down, b).up && !down.up
    ensures var n := FirstAccount(t, down, b).st; n == t.st.(switches := n.switches)
  {
  }

  lemma LoadedTables(s: State, b: Boot, k: string, mode: Mode)
    requires UsersAccepted(ImageOf(s).users) && mode == if b.cfg.modeConfigured then b.mode else s.switches.mode
    ensures var t := Loaded(ImageOf(s), b);
            t.web == Web(s.web.sessions, {}, s.web.invites) && t.grants == Grants(s.grants.access, s.grants.refresh, s.grants.refreshUsed, map[], map[]) &&
            t.reg.clients == s.reg.clients && t.reg.devices == s.reg.devices && t.reg.disabled == s.reg.disabled && t.reg.retired == s.reg.retired &&
            t.reg.users.Keys == s.reg.users.Keys && (k in s.reg.users ==> Kept(s.reg.users[k], t.reg.users[k], b.cfg, mode))
    ensures var t := Loaded(ImageOf(s), b);
            (forall h :: Enrolled(t.reg, h) <==> Enrolled(s.reg, h)) &&
            (forall m: Token :: TokenLive(t.reg, m, b.now) <==> TokenLive(s.reg, m, b.now))
  {
    hide UsersAccepted, IndexOf, SameName;
  }

  lemma CleanedTokens(s: State, now: int, k: string)
    ensures var c := Cleanup(s, now);
            (k in c.grants.refresh <==> k in s.grants.refresh && TokenLive(s.reg, s.grants.refresh[k], now)) &&
            (k in c.grants.refreshUsed <==> k in s.grants.refreshUsed && TokenLive(s.reg, s.grants.refreshUsed[k], now))
    ensures var c := Cleanup(s, now);
            Sub(c.grants.refresh, s.grants.refresh) && Sub(c.grants.refreshUsed, s.grants.refreshUsed) &&
            (s.grants.pending == map[] ==> c.grants.pending == map[]) && (s.grants.codes == map[] ==> c.grants.codes == map[])
  {
    hide TokenLive, FreshClients, LiveSessions, LiveInvites;
  }

  /** What an account keeps over a restart: everything but that a private instance makes its owner
      an administrator. */
  predicate Kept(u: User, v: User, cfg: Config, mode: Mode) {
    v == u.(admin := u.admin || (mode.Private? && SameName(u.username, cfg.ownerUsername)))
  }

  /** A restart keeps every account and its name, who owns what and what is switched off or retired,
      every session of an enabled account, every usable invitation, every approved client and every
      refresh token that is still good, and nothing else that was granted. */
  lemma TablesComeBack(base: Origin, r: Relay, s: State, b: Boot, k: string)
    requires Sound(r) && Holding(r.disk, s) && Start(base, r, b).up && s.reg.users != map[]
    ensures var t := Start(base, r, b).st;
            t.reg.users.Keys == s.reg.users.Keys && (k in s.reg.users ==> Kept(s.reg.users[k], t.reg.users[k], b.cfg, ModeFrom(r.disk, b))) &&
            t.reg.devices == s.reg.devices && t.reg.disabled == s.reg.disabled && t.reg.retired == s.reg.retired
    ensures var t := Start(base, r, b).st;
            (k in t.web.sessions <==> k in s.web.sessions && b.now < s.web.sessions[k].expires && Enrolled(s.reg, s.web.sessions[k].user)) &&
            (k in t.web.invites <==> k in s.web.invites && b.now < s.web.invites[k].expires && s.web.invites[k].uses > 0) &&
            (k in t.reg.clients <==> k in s.reg.clients && (s.reg.clients[k].approved || b.now <= s.reg.clients[k].issuedAt + 3600)) &&
            (k in t.grants.refresh <==> k in s.grants.refresh && TokenLive(s.reg, s.grants.refresh[k], b.now)) &&
            (k in t.grants.refreshUsed <==> k in s.grants.refreshUsed && TokenLive(s.reg, s.grants.refreshUsed[k], b.now))
    ensures var t := Start(base, r, b).st;
            Sub(t.web.sessions, s.web.sessions) && Sub(t.web.invites, s.web.invites) && Sub(t.reg.clients, s.reg.clients) &&
            Sub(t.grants.refresh, s.grants.refresh) && Sub(t.grants.refreshUsed, s.grants.refreshUsed) &&
            t.web.ephemeral == {} && t.grants.pending == map[] && t.grants.codes == map[]
  {
    hide Sound, Writable, UsersAccepted, Cleanup, Loaded, Read, Start, FirstAccount, TokenLive, Kept;
    var mode := if b.cfg.modeConfigured then b.mode else s.switches.mode;
    assert mode == ModeFrom(r.disk, b);
    hide ModeFrom;
    HeldUsers(base, r, s);
    ReadIsLoaded(base, r, s, b);
    OwnerStays(Read(r, b), r.(up := false), b);
    LoadedTables(s, b, k, mode);
    CleanUpExactly(Loaded(ImageOf(s), b), b.now, k);
    CleanedTokens(Loaded(ImageOf(s), b), b.now, k);
    hide ImageOf;
  }
}
