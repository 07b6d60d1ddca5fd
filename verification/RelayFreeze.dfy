/** Service after a start on a dirty guard: there is none, until a release is accepted and
    written by a process that started clean, as long as the dirty mark itself is durable. */
module RelayFreeze {
  import opened Wrappers
  import opened RelayState
  import opened RelayOps
  import opened RelayInvariant
  import opened RelayRequests
  import opened RelaySafety
  import opened RelayTokens
  import opened RelaySteps
  import opened RelayRuns
  import opened RelayLogin
  import opened Resources
  import opened StateFile

  // ------------------------------------------------------------------- frozen

  /** Not an invitation to serve: the guard does not read clean, or the kill switch is on in the file. */
  predicate Shut(x: Reading) {
    x.mark != Clean || (x.file.Some? && x.file.value.settings.kill)
  }

  ghost predicate DiskShut(d: Disk) {
    forall x :: x in Findable(d) ==> Shut(x)
  }

  /** No access is possible, now or after a restart. */
  ghost predicate Frozen(r: Relay) {
    DiskShut(r.disk) && (r.up && !r.fault ==> r.st.switches.kill)
  }

  /** A release that takes effect: accepted, in a process that started clean and has not
      failed to save, and written as far as the file. */
  predicate Released(r: Relay, ev: Event) {
    ev.Serve? && !r.fault && Releases(ev.request) && Effects(r.st, r.cfg, r.fault, ev.now, ev.request).Commit? &&
    (ev.outcome.Saved? || ev.outcome.CleanFailed?)
  }

  lemma ReleaseUnsaved(s: State, cfg: Config, fault: bool, now: int, q: Request)
    requires Releases(q)
    ensures Unsaved(Effects(s, cfg, fault, now, q)) == s
  {
    hide AdminChange;
  }

  lemma ServeFrozen(r: Relay, now: int, q: Request, o: SaveOutcome)
    requires SoundState(r.st, r.drawn) && r.up && Frozen(r) && Draws(q, r.drawn) && !Released(r, Serve(now, q, o))
    ensures Frozen(ServeRequest(r, now, q, o))
  {
    var e := Effects(r.st, r.cfg, r.fault, now, q);
    assert r.fault || !Releases(q) || !e.Commit? || o.MarkFailed? || o.WriteFailed?;
    hide Inv, Effects, NewlyCommitted, NewLineage, Draws, Names, NewIds, Releases, Effected, Settle, DiskShut, Released;
    NewIdsAreNew(r.st.reg, q, r.drawn);
    if Releases(q) && !r.fault {
      ReleaseUnsaved(r.st, r.cfg, r.fault, now, q);
    } else {
      RequestEffected(r.st, r.cfg, r.fault, now, q, Unsaved(e));
      if e.Commit? {
        RequestEffected(r.st, r.cfg, r.fault, now, q, e.attempt);
      }
    }
    SettleFrozen(r, e, o);
  }

  lemma ShutAfter(d: Disk, i: Image, o: SaveOutcome)
    requires DiskShut(d) && (o.Saved? || o.CleanFailed? ==> i.settings.kill)
    ensures DiskShut(DiskAfter(d, i, o))
  {
    if o.MarkFailed? { assert Reading(d.mark, d.file) in Findable(d); }
  }

  /** A frozen process stays frozen if what is left in memory, and what reaches the file, keep the kill switch on. */
  lemma SettleFrozen(r: Relay, e: Effect, o: SaveOutcome)
    requires r.up && Frozen(r)
    requires r.st.switches.kill ==> Unsaved(e).switches.kill
    requires r.st.switches.kill && e.Commit? && !r.fault && (o.Saved? || o.CleanFailed?) ==> e.attempt.switches.kill
    ensures Frozen(Settle(r, e, o)) && Settle(r, e, o).up
  {
    hide DiskShut, DiskAfter;
    if e.Commit? && !(r.fault && !e.recovery) {
      ShutAfter(r.disk, ImageOf(if r.fault then Stopped(e.attempt) else e.attempt), o);
    }
  }

  lemma FirstAccountFrozen(r: Relay, down: Relay, b: Boot)
    requires Frozen(r) && r.up && !down.up
    ensures Frozen(FirstAccount(r, down, b))
  {
    var s := AwaitSetup(r.st, b.setupToken);
    FirstAccountCases(r, down, b);
    hide DiskShut, CreateUser, FirstAccount, Settle;
    if b.owner.Some? && CreateUser(s.reg, b.cfg.ownerUsername, b.owner.value, b.ownerId, true).Some? {
      var reg := CreateUser(s.reg, b.cfg.ownerUsername, b.owner.value, b.ownerId, true).value;
      SettleFrozen(r, Commit(s.(reg := reg), s, false), b.second);
    }
  }

  lemma LoadedKill(i: Image, b: Boot)
    requires UsersAccepted(i.users)
    ensures Loaded(i, b).switches.kill == i.settings.kill
  {
    hide UsersAccepted, EnsureAll, IndexOf, Adopt;
  }

  lemma ReadFrozen(r: Relay, b: Boot)
    requires Frozen(r) && r.disk.file.Some? && UsersAccepted(r.disk.file.value.users) && !r.disk.mark.Torn?
    ensures Frozen(Read(r, b)) && Read(r, b).up
  {
    var i := r.disk.file.value;
    assert Shut(Reading(r.disk.mark, r.disk.file)) by { assert Reading(r.disk.mark, r.disk.file) in Findable(r.disk); }
    hide UsersAccepted, Cleanup, Loaded, DiskShut, Settle;
    var s := Cleanup(Loaded(i, b), b.now);
    LoadedKill(i, b);
    CleanedKill(Loaded(i, b), b.now);
    var begun := r.(up := true, cfg := b.cfg, fault := r.disk.mark.Dirty?, st := s);
    SettleFrozen(begun, Commit(s, s, false), b.first);
  }

  lemma StartFrozen(base: Origin, r: Relay, b: Boot)
    requires SoundDisk(r.disk, r.drawn) && Frozen(r) && (r.disk.file.Some? ==> Writable(r.disk.file.value))
    ensures Frozen(Start(base, r, b))
  {
    assert Shut(Reading(r.disk.mark, r.disk.file)) by { assert Reading(r.disk.mark, r.disk.file) in Findable(r.disk); hide SoundDisk; }
    if r.disk.mark.Torn? {
      assert Start(base, r, b) == r.(up := false) by { hide SoundDisk, Writable, FirstAccount; }
    } else {
      hide SoundDisk, DiskShut, UsersAccepted, FirstAccount, Writable, Start, Read, Blank;
      StartCases(base, r, b);
      if r.disk.file.None? {
        FirstAccountFrozen(r.(up := true, cfg := b.cfg, fault := r.disk.mark.Dirty?, st := Blank(b)), r.(up := false), b);
      } else {
        ReadFrozen(r, b);
        FirstAccountFrozen(Read(r, b), r.(up := false), b);
      }
    }
  }

  lemma NextFrozen(base: Origin, r: Relay, ev: Event)
    requires Sound(r) && Frozen(r) && Allowed(r, ev) && !Released(r, ev) && (r.disk.file.Some? ==> Writable(r.disk.file.value))
    ensures Frozen(Next(base, r, ev))
  {
    hide SoundState, SoundDisk, Writable, ServeRequest, Start, WellFormed, Draws, Released, FileDurable;
    match ev {
      case Serve(now, q, o) => ServeFrozen(r, now, q, o) by { hide Frozen; }
      case Restart(b) => StartFrozen(base, r, b) by { hide Frozen; }
      case LosePower(x) =>
    }
  }

  /** The run contains no release that takes effect. */
  ghost predicate Unreleased(base: Origin, r: Relay, evs: seq<Event>)
    decreases |evs|
  {
    evs == [] ||
    (!Released(r, evs[0]) && ((r.disk.file.Some? ==> Writable(r.disk.file.value)) ==> Unreleased(base, Next(base, r, evs[0]), evs[1..])))
  }

  lemma {:induction false} StaysFrozen(base: Origin, r: Relay, evs: seq<Event>, t: Relay)
    requires Sound(r) && Frozen(r) && Reaches(base, r, evs, t) && Unreleased(base, r, evs)
    ensures Frozen(t)
    decreases |evs|
  {
    hide Sound, Next, Allowed, Writable, Frozen, Released;
    if evs != [] {
      NextSound(base, r, evs[0]);
      NextFrozen(base, r, evs[0]);
      StaysFrozen(base, Next(base, r, evs[0]), evs[1..], t);
    }
  }

  /** No credential works. */
  ghost predicate Closed(t: Relay) {
    t.up ==> forall key, resource, kind :: !Verifies(t.st, t.fault, key, resource, kind)
  }

  /** The dirty mark holds: no power failure can bring back a clean guard, unless beside a
      file whose kill switch is on. */
  predicate MarkHolds(d: Disk) {
    forall x :: x in d.lapses ==> Shut(x)
  }

  /** From a dirty guard whose mark holds, no access key verifies in the process that starts on
      it or in any later one, whatever is requested and however saves, starts and power fail,
      until a release of the kill switch is accepted and written by a process that started clean. */
  lemma DirtyStartStaysClosed(base: Origin, r: Relay, evs: seq<Event>, t: Relay)
    requires Sound(r) && !r.up && r.disk.mark.Dirty? && MarkHolds(r.disk) && Reaches(base, r, evs, t) && Unreleased(base, r, evs)
    ensures Closed(t)
  {
    assert Frozen(r);
    hide Sound, Reaches, Unreleased;
    StaysFrozen(base, r, evs, t);
  }

  // ---------------------------------------------------- what an unsynced mark costs

  /** Read by a start whose own first save succeeds, the file holds a credential that works. */
  predicate Works(i: Image, b: Boot, key: string, resource: Resource, kind: Kind) {
    UsersAccepted(i.users) && b.first.Saved? && Verifies(Cleanup(Loaded(i, b), b.now), false, key, resource, kind)
  }

  lemma CleanStartServes(base: Origin, r: Relay, b: Boot, i: Image, key: string, resource: Resource, kind: Kind)
    requires SoundDisk(r.disk, r.drawn) && r.disk.mark.Clean? && r.disk.file == Some(i) && Writable(i) && Works(i, b, key, resource, kind)
    ensures var t := Start(base, r, b); t.up && Verifies(t.st, t.fault, key, resource, kind)
  {
    SoundFileLoads(base, r.disk, r.drawn) by { hide SoundDisk, Writable, Works; }
    var s := Cleanup(Loaded(i, b), b.now);
    assert Verifies(s, false, key, resource, kind) && s.reg.users != map[] by { hide SoundDisk, Writable, Cleanup, Loaded, UsersAccepted; }
    hide SoundDisk, Writable, Cleanup, Loaded, Canonicalize, Encode, UsersAccepted, Verifies, AwaitSetup, FirstAccount;
    CleanStart(base, r, b, i);
    PeopledStart(Read(r, b), r.(up := false), b) by { hide Works; }
    AwaitingVerifies(s, b.setupToken, key, resource, kind);
  }

  lemma CleanStart(base: Origin, r: Relay, b: Boot, i: Image)
    requires r.disk.mark.Clean? && r.disk.file == Some(i) && Writable(i) && b.first.Saved? && UsersAccepted(i.users)
    requires Canonicalize(base, Encode(base, i)) == Some(i)
    ensures Start(base, r, b) == FirstAccount(Read(r, b), r.(up := false), b)
    ensures var t := Read(r, b); t.up && !t.fault && t.st == Cleanup(Loaded(i, b), b.now)
  {
    hide Writable, Cleanup, Loaded, Canonicalize, Encode, UsersAccepted, ImageOf, DiskAfter, FirstAccount;
  }

  lemma PeopledStart(r: Relay, down: Relay, b: Boot)
    requires r.st.reg.users != map[]
    ensures FirstAccount(r, down, b) == r.(st := AwaitSetup(r.st, b.setupToken))
  {
    hide CreateUser, Settle;
  }

  lemma AwaitingVerifies(s: State, token: bool, key: string, resource: Resource, kind: Kind)
    ensures Verifies(AwaitSetup(s, token), false, key, resource, kind) == Verifies(s, false, key, resource, kind)
  {
  }

  /** The proviso is needed: if a power failure can bring back a clean guard, beside a file in
      which a credential works, a process that starts after it serves that credential again. */
  lemma VanishedMarkReopens(base: Origin, r: Relay, a: Boot, x: Reading, b: Boot, key: string, resource: Resource, kind: Kind)
    requires Sound(r) && r.disk.mark.Dirty? && x in r.disk.lapses && x.mark.Clean? && x.file.Some?
    requires Allowed(r, Restart(a)) && b.ownerId != "" && b.ownerId !in r.drawn + {a.ownerId} && Works(x.file.value, b, key, resource, kind)
    ensures exists t :: Reaches(base, r, [Restart(a), LosePower(x), Restart(b)], t) && Unreleased(base, r, [Restart(a), LosePower(x), Restart(b)]) &&
                        !Closed(t)
  {
    hide *;
    if r.disk.file.Some? { SoundWritable(base, r); }
    DirtyThenLost(base, r, a, x);
    LostPowerParts(Next(base, r, Restart(a)), x, b);
    var l := LostPower(Next(base, r, Restart(a)), x);
    ReachesAfterLoss(base, r, a, x, Restart(b));
    Reopened(base, l, b, x.file.value, key, resource, kind);
    NothingReleased(base, r, [Restart(a), LosePower(x), Restart(b)]);
    ServesAgain(Next(base, l, Restart(b)), key, resource, kind);
  }

  lemma ServesAgain(t: Relay, key: string, resource: Resource, kind: Kind)
    requires t.up && Verifies(t.st, t.fault, key, resource, kind)
    ensures !Closed(t)
  {
    hide Verifies;
  }

  lemma Reopened(base: Origin, l: Relay, b: Boot, i: Image, key: string, resource: Resource, kind: Kind)
    requires Sound(l) && l.disk.mark.Clean? && l.disk.file == Some(i) && Writable(i) && Works(i, b, key, resource, kind)
    ensures var t := Next(base, l, Restart(b)); t.up && Verifies(t.st, t.fault, key, resource, kind)
  {
    hide SoundState, SoundDisk, Writable, Works, Start, Verifies, FileDurable;
    CleanStartServes(base, l, b, i, key, resource, kind);
  }

  lemma {:induction false} NothingReleased(base: Origin, r: Relay, evs: seq<Event>)
    requires forall ev :: ev in evs ==> !ev.Serve? || LogsIn(ev)
    ensures Unreleased(base, r, evs)
    decreases |evs|
  {
    hide Writable, Next, Effects, Releases;
    if evs != [] {
      assert evs[0] in evs;
      if r.disk.file.Some? ==> Writable(r.disk.file.value) {
        NothingReleased(base, Next(base, r, evs[0]), evs[1..]);
      }
    }
  }

  /** The file lets an account in: it is enabled, the switches are on, and there is a client to
      log in with, or one can be registered. */
  ghost predicate LetsIn(i: Image) {
    !i.settings.kill && i.settings.mcp && (exists u :: EnabledIn(i, u)) &&
    ((exists c, redirect :: ClientIn(i, c, redirect)) || (i.settings.dcr && |i.clients| < MAX_CLIENTS))
  }

  predicate EnabledIn(i: Image, u: string) {
    u != "" && u in i.users && i.users[u].id == u && !i.users[u].disabled
  }

  predicate ClientIn(i: Image, c: string, redirect: string) {
    c != "" && c in i.clients && i.clients[c].id == c && i.clients[c].approved && redirect in i.clients[c].redirects && Unbound(i.clients[c])
  }

  /** What the public start finds in such a file. */
  lemma FindsAccount(i: Image, id: string, u: string)
    requires UsersAccepted(i.users) && EnabledIn(i, u)
    ensures var s := AwaitSetup(Cleanup(Loaded(i, PublicBoot(id)), 0), false);
            ActiveUser(s.reg, u) && s.grants.pending == map[] && s.reg.users != map[] &&
            s.switches.kill == i.settings.kill && s.switches.mcp == i.settings.mcp && s.switches.dcr == i.settings.dcr
  {
    var l := Loaded(i, PublicBoot(id));
    assert l.reg.users == Adopt(i.users, PublicBoot(id).cfg, Public) && l.grants.pending == map[] by { hide EnsureAll, IndexOf, Adopt, UsersAccepted; }
    assert l.switches.kill == i.settings.kill && l.switches.mcp == i.settings.mcp && l.switches.dcr == i.settings.dcr by {
      hide EnsureAll, IndexOf, Adopt, UsersAccepted;
    }
    AdoptedKeys(i.users, PublicBoot(id).cfg, Public);
    hide Loaded, UsersAccepted, EnsureAll, IndexOf, Adopt;
    CleanupSame(l, 0);
    CleanedKill(l, 0);
    NoRequests(l, 0);
    hide Cleanup, Progress;
  }

  lemma FindsClient(i: Image, id: string, u: string, c: string, redirect: string)
    requires UsersAccepted(i.users) && EnabledIn(i, u) && ClientIn(i, c, redirect) && !i.settings.kill && i.settings.mcp
    ensures Welcomes(AwaitSetup(Cleanup(Loaded(i, PublicBoot(id)), 0), false), 0, u, c, redirect)
  {
    var l := Loaded(i, PublicBoot(id));
    assert l.reg.clients == i.clients by { hide EnsureAll, IndexOf, Adopt, UsersAccepted; }
    FindsAccount(i, id, u);
    hide Loaded, UsersAccepted;
    assert Cleanup(l, 0).reg.clients == FreshClients(i.clients, 0) by { hide CleanGrants, LiveSessions, LiveInvites, FreshClients; }
    hide Cleanup, ActiveUser;
  }

  /** And what it then serves: a login, and the credential it yields. */
  lemma OpenFileReopens(base: Origin, l: Relay, id: string, i: Image)
    requires Sound(l) && l.disk.mark.Clean? && l.disk.file == Some(i) && Writable(i) && LetsIn(i) && id != "" && id !in l.drawn
    ensures Allowed(l, Restart(PublicBoot(id))) && Reopens(base, Next(base, l, Restart(PublicBoot(id))))
  {
    hide Sound, Next, Reopens, Writable, Loaded, Cleanup, AwaitSetup, ActiveUser, Welcomes, EnabledIn, ClientIn, Allowed, PublicBoot;
    var m := Next(base, l, Restart(PublicBoot(id)));
    var u :| EnabledIn(i, u);
    OpenStart(base, l, id, i, u);
    if c, redirect :| ClientIn(i, c, redirect) {
      FindsClient(i, id, u, c, redirect);
      LoginReopens(base, m, 0, u, c, redirect);
    } else {
      FewerThere(i, id);
      assert u != "" by { Named(i, u); }
      NewClientReopens(base, m, 0, u);
    }
  }

  lemma Named(i: Image, u: string)
    requires EnabledIn(i, u)
    ensures u != ""
  {
  }

  lemma FewerThere(i: Image, id: string)
    requires UsersAccepted(i.users)
    ensures |AwaitSetup(Cleanup(Loaded(i, PublicBoot(id)), 0), false).reg.clients| <= |i.clients|
  {
    assert Loaded(i, PublicBoot(id)).reg.clients == i.clients by { hide EnsureAll, IndexOf, Adopt, UsersAccepted; }
    ClientsShrink(Loaded(i, PublicBoot(id)), 0);
    hide Loaded, UsersAccepted, Cleanup;
  }

  lemma OpenStart(base: Origin, l: Relay, id: string, i: Image, u: string)
    requires Sound(l) && l.disk.mark.Clean? && l.disk.file == Some(i) && Writable(i) && id != "" && id !in l.drawn && EnabledIn(i, u)
    ensures UsersAccepted(i.users) && Allowed(l, Restart(PublicBoot(id)))
    ensures var m, s := Next(base, l, Restart(PublicBoot(id))), AwaitSetup(Cleanup(Loaded(i, PublicBoot(id)), 0), false);
            Sound(m) && m.up && !m.fault && m.st == s && ActiveUser(s.reg, u) && s.grants.pending == map[] &&
            s.switches.kill == i.settings.kill && s.switches.mcp == i.settings.mcp && s.switches.dcr == i.settings.dcr
  {
    hide *;
    BootParts(l, id);
    SoundFileLoads(base, l.disk, l.drawn) by { SoundParts(l); }
    FindsAccount(i, id, u);
    NextSound(base, l, Restart(PublicBoot(id)));
    CleanedUsers(i, PublicBoot(id), 0);
    PeopledOpen(base, l, PublicBoot(id), i, u);
  }

  lemma SoundParts(r: Relay)
    requires Sound(r)
    ensures SoundDisk(r.disk, r.drawn)
  {
    hide SoundState, SoundDisk;
  }

  lemma BootParts(l: Relay, id: string)
    ensures var b := PublicBoot(id);
            b.now == 0 && b.first.Saved? && !b.setupToken && (id != "" && id !in l.drawn ==> Allowed(l, Restart(b)))
  {
  }

  lemma PeopledOpen(base: Origin, l: Relay, b: Boot, i: Image, u: string)
    requires l.disk.mark.Clean? && l.disk.file == Some(i) && Writable(i) && b.first.Saved? && UsersAccepted(i.users) && !b.setupToken && EnabledIn(i, u)
    requires Canonicalize(base, Encode(base, i)) == Some(i) && Cleanup(Loaded(i, b), b.now).reg.users.Keys == i.users.Keys
    ensures var m := Next(base, l, Restart(b)); m.up && !m.fault && m.st == AwaitSetup(Cleanup(Loaded(i, b), b.now), false)
  {
    hide Writable, Cleanup, Loaded, Canonicalize, Encode, UsersAccepted, FirstAccount, Start, Read, AwaitSetup, FileDurable;
    CleanStart(base, l, b, i);
    assert u in Read(l, b).st.reg.users;
    PeopledStart(Read(l, b), l.(up := false), b);
  }

  /** Or it lets an account in: then the process that starts after the power failure serves a
      credential it issues itself. */
  lemma VanishedMarkLetsIn(base: Origin, r: Relay, a: Boot, x: Reading)
    requires Sound(r) && r.disk.mark.Dirty? && x in r.disk.lapses && x.mark.Clean? && x.file.Some? && LetsIn(x.file.value) && Allowed(r, Restart(a))
    ensures exists evs, t :: Reaches(base, r, [Restart(a)] + evs, t) && Unreleased(base, r, [Restart(a)] + evs) && !Closed(t)
  {
    hide *;
    if r.disk.file.Some? { SoundWritable(base, r); }
    DirtyThenLost(base, r, a, x);
    var l := LostPower(Next(base, r, Restart(a)), x);
    var id := FreshName(l.drawn);
    LostPowerParts(Next(base, r, Restart(a)), x, PublicBoot(id));
    OpenFileReopens(base, l, id, x.file.value);
    ReachesAfterLoss(base, r, a, x, Restart(PublicBoot(id)));
    var first, m := [Restart(a), LosePower(x), Restart(PublicBoot(id))], Next(base, l, Restart(PublicBoot(id)));
    var evs, t, key := LoginFrom(base, m);
    ReachesJoin(base, r, first, m, evs, t);
    NothingReleased(base, r, first + evs);
    ServesAgain(t, key, AccountMcp, McpKind);
    assert first + evs == [Restart(a)] + ([LosePower(x), Restart(PublicBoot(id))] + evs);
  }

  lemma LoginFrom(base: Origin, m: Relay) returns (evs: seq<Event>, t: Relay, key: string)
    requires Reopens(base, m)
    ensures Reaches(base, m, evs, t) && (forall ev :: ev in evs ==> LogsIn(ev)) && t.up && Verifies(t.st, t.fault, key, AccountMcp, McpKind)
  {
    hide Reaches, Verifies, LogsIn;
    evs, t, key :| Reaches(base, m, evs, t) && (forall ev :: ev in evs ==> LogsIn(ev)) && t.up && Verifies(t.st, t.fault, key, AccountMcp, McpKind);
  }

  lemma {:induction false} ReachesJoin(base: Origin, r: Relay, first: seq<Event>, m: Relay, more: seq<Event>, t: Relay)
    requires Reaches(base, r, first, m) && Reaches(base, m, more, t)
    ensures Reaches(base, r, first + more, t)
    decreases |first|
  {
    hide Allowed, Writable, Next;
    if first == [] {
      assert first + more == more;
    } else {
      ReachesJoin(base, Next(base, r, first[0]), first[1..], m, more, t);
      assert (first + more)[1..] == first[1..] + more;
    }
  }

  /** What a power failure may bring back either refuses to serve, or holds a credential that
      works, or lets an account in. */
  ghost predicate Telling(r: Relay, a: Boot, x: Reading) {
    Shut(x) || (x.mark.Clean? && x.file.Some? &&
                (LetsIn(x.file.value) || exists b: Boot, key, resource, kind ::
                  b.ownerId != "" && b.ownerId !in r.drawn + {a.ownerId} && Works(x.file.value, b, key, resource, kind)))
  }

  /** Every unreleased run from a start on the guard stays closed. */
  ghost predicate ClosedFrom(base: Origin, r: Relay, a: Boot) {
    forall evs, t :: Reaches(base, r, [Restart(a)] + evs, t) && Unreleased(base, r, [Restart(a)] + evs) ==> Closed(t)
  }

  /** Exactly when a dirty start stays closed: when its mark holds. */
  lemma DirtyStartExactly(base: Origin, r: Relay, a: Boot)
    requires Sound(r) && !r.up && r.disk.mark.Dirty? && Allowed(r, Restart(a)) && forall x :: x in r.disk.lapses ==> Telling(r, a, x)
    ensures ClosedFrom(base, r, a) <==> MarkHolds(r.disk)
  {
    hide Sound, Reaches, Unreleased, Closed, Works, Shut, LetsIn;
    if MarkHolds(r.disk) {
      forall evs, t | Reaches(base, r, [Restart(a)] + evs, t) && Unreleased(base, r, [Restart(a)] + evs) ensures Closed(t) {
        DirtyStartStaysClosed(base, r, [Restart(a)] + evs, t);
      }
    } else {
      var x :| x in r.disk.lapses && !Shut(x);
      assert Telling(r, a, x);
      if LetsIn(x.file.value) {
        VanishedMarkLetsIn(base, r, a, x);
        return;
      }
      var b: Boot, key, resource, kind :| b.ownerId != "" && b.ownerId !in r.drawn + {a.ownerId} && Works(x.file.value, b, key, resource, kind);
      VanishedMarkReopens(base, r, a, x, b, key, resource, kind);
      assert [Restart(a), LosePower(x), Restart(b)] == [Restart(a)] + [LosePower(x), Restart(b)];
    }
  }

  /** And such a disk comes about whenever the dirty mark of a save is written but not synced. */
  lemma FailedMarkReopens(base: Origin, r: Relay, i: Image, now: int, a: Boot, b: Boot, key: string, resource: Resource, kind: Kind)
    requires Sound(r) && r.up && !r.fault && r.disk.mark.Clean? && r.disk.file == Some(i)
    requires Allowed(r, Restart(a)) && b.ownerId != "" && b.ownerId !in r.drawn + {a.ownerId} && Works(i, b, key, resource, kind)
    ensures var evs := [Serve(now, Audit, MarkFailed(Dirty)), Restart(a), LosePower(Reading(Clean, Some(i))), Restart(b)];
            exists t :: Reaches(base, r, evs, t) && Unreleased(base, r, evs) && !Closed(t)
  {
    var save, x := Serve(now, Audit, MarkFailed(Dirty)), Reading(Clean, Some(i));
    hide *;
    SoundWritable(base, r);
    var n := Next(base, r, save);
    AuditFails(base, r, i, now, a);
    NextSound(base, r, save);
    VanishedMarkReopens(base, n, a, x, b, key, resource, kind);
    var evs := [Restart(a), LosePower(x), Restart(b)];
    var t :| Reaches(base, n, evs, t) && Unreleased(base, n, evs) && !Closed(t);
    assert [save] + evs == [save, Restart(a), LosePower(x), Restart(b)];
    ReachesMore(base, r, save, evs, t);
    UnreleasedMore(base, r, save, evs);
  }

  lemma AuditFails(base: Origin, r: Relay, i: Image, now: int, a: Boot)
    requires r.up && !r.fault && r.disk.mark.Clean? && r.disk.file == Some(i) && Writable(i) && Allowed(r, Restart(a))
    ensures var save := Serve(now, Audit, MarkFailed(Dirty)); var n := Next(base, r, save);
            n.disk.mark.Dirty? && Reading(Clean, Some(i)) in n.disk.lapses && n.drawn == r.drawn &&
            Allowed(r, save) && !Released(r, save) && Allowed(n, Restart(a))
  {
    hide Writable, ImageOf, FileDurable;
  }

  lemma UnreleasedMore(base: Origin, r: Relay, ev: Event, evs: seq<Event>)
    requires !Released(r, ev) && (r.disk.file.Some? ==> Writable(r.disk.file.value)) && Unreleased(base, Next(base, r, ev), evs)
    ensures Unreleased(base, r, [ev] + evs)
  {
    hide Released, Writable, Next;
    assert ([ev] + evs)[1..] == evs;
  }
}
