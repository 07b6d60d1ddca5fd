/** The life of a device route over whole runs, crashes, power failures and restarts
    included: nobody's, then one account's, then retired for ever; and no more than
    sixteen to an account. */
module RelayLifeCycle {
  import opened Wrappers
  import opened RelayState
  import opened RelayOps
  import opened RelayInvariant
  import opened RelayRequests
  import opened RelaySafety
  import opened RelayTokens
  import opened RelaySteps
  import opened RelayRuns
  import opened Resources
  import opened StateFile

  // ------------------------------------------------------------ device routes

  /** The routes a start would find in a file. */
  function RoutesIn(file: Option<Image>): Registry {
    match file
    case None => EmptyRegistry
    case Some(i) => EmptyRegistry.(devices := i.devices, retired := i.retired)
  }

  /** The file is never behind memory: whatever memory has promised about a route, a start
      will find, even if power fails first, unless memory came from a file that is not durable. */
  ghost predicate NotBehind(r: Relay) {
    Ages(r.st.reg, RoutesIn(r.disk.file)) && (!r.hasty ==> AllAhead(r.st.reg, Files(r.disk)))
  }

  ghost predicate AllAhead(reg: Registry, files: set<Option<Image>>) {
    forall f :: f in files ==> Ages(reg, RoutesIn(f))
  }

  ghost predicate QuotaEverywhere(r: Relay) {
    WithinQuota(r.st.reg) && forall f :: f in Files(r.disk) ==> WithinQuota(RoutesIn(f))
  }

  /** From `r` to `t`, routes only moved forward in memory, and the file is not behind. */
  ghost predicate Forward(r: Relay, t: Relay) {
    Ages(r.st.reg, t.st.reg) && NotBehind(t)
  }

  lemma AgesSame(a: Registry, b: Registry, c: Registry)
    requires Ages(a, b) && b.devices == c.devices && b.retired == c.retired
    ensures Ages(a, c)
  {
  }

  lemma AgesFromSame(a: Registry, b: Registry, c: Registry)
    requires Ages(b, c) && a.devices == b.devices && a.retired == b.retired
    ensures Ages(a, c)
  {
  }

  /** An effect whose attempt moves routes forward, and whose other outcome moves none. */
  ghost predicate MovesForward(s: State, e: Effect) {
    Unsaved(e).reg.devices == s.reg.devices && Unsaved(e).reg.retired == s.reg.retired &&
    (e.Commit? ==> Progress(s.reg, e.attempt.reg))
  }

  lemma SettleForward(r: Relay, e: Effect, o: SaveOutcome)
    requires NotBehind(r) && MovesForward(r.st, e)
    ensures var t := Settle(r, e, o); Forward(r, t.(hasty := r.hasty && !FileDurable(t.disk)))
  {
    var t, s := Settle(r, e, o), Unsaved(e);
    if e.Commit? {
      assert ImageOf(e.attempt).devices == ImageOf(Stopped(e.attempt)).devices == e.attempt.reg.devices;
      assert ImageOf(e.attempt).retired == ImageOf(Stopped(e.attempt)).retired == e.attempt.reg.retired;
    }
    hide Ages, WithinQuota, Files, FileDurable, DiskAfter, ImageOf, RoutesIn;
    SameDevicesAge(r.st.reg, s.reg);
    AheadOfSame(s.reg, r.st.reg, Files(r.disk));
    AgesFromSame(s.reg, r.st.reg, RoutesIn(r.disk.file));
    if FileDurable(t.disk) { DurableFile(t.disk); }
    if e.Commit? && !(r.fault && !e.recovery) {
      var saved := ImageOf(if r.fault then Stopped(e.attempt) else e.attempt);
      SavedAhead(r.st.reg, s.reg, e.attempt.reg, saved);
      FilesAfter(r.disk, saved, o);
    }
  }

  lemma DurableFile(d: Disk)
    requires FileDurable(d)
    ensures Files(d) == {d.file}
  {
  }

  lemma AheadOfSame(a: Registry, b: Registry, files: set<Option<Image>>)
    requires a.devices == b.devices && a.retired == b.retired
    ensures AllAhead(a, files) == AllAhead(b, files)
  {
    hide RoutesIn;
  }

  /** What a request that moves routes forward saves is ahead of memory before, and after whichever way it ends. */
  lemma SavedAhead(before: Registry, unsaved: Registry, attempt: Registry, i: Image)
    requires Progress(before, attempt) && unsaved.devices == before.devices && unsaved.retired == before.retired
    requires i.devices == attempt.devices && i.retired == attempt.retired
    ensures Ages(before, RoutesIn(Some(i))) && Ages(unsaved, RoutesIn(Some(i))) && Ages(attempt, RoutesIn(Some(i)))
  {
    hide WithinQuota, Ages;
    AgesSame(before, attempt, RoutesIn(Some(i)));
    AgesFromSame(unsaved, before, RoutesIn(Some(i)));
    SameDevicesAge(attempt, RoutesIn(Some(i)));
  }

  lemma SameQuota(a: Registry, b: Registry)
    requires a.devices == b.devices
    ensures WithinQuota(a) == WithinQuota(b)
  {
  }

  lemma RequestMovesForward(s: State, cfg: Config, fault: bool, now: int, q: Request)
    requires Inv(s) && NewIds(s.reg, q)
    ensures MovesForward(s, Effects(s, cfg, fault, now, q))
  {
    var e := Effects(s, cfg, fault, now, q);
    hide Inv, NewIds, Effects, Progress, Granted, Names;
    UnsavedDevices(s, cfg, fault, now, q);
    if e.Commit? {
      RequestEffected(s, cfg, fault, now, q, e.attempt);
    }
  }

  lemma ServeForward(base: Origin, r: Relay, ev: Event)
    requires SoundState(r.st, r.drawn) && NotBehind(r) && ev.Serve? && Draws(ev.request, r.drawn) && (r.disk.file.Some? ==> Writable(r.disk.file.value))
    ensures Forward(r, Next(base, r, ev))
  {
    hide Inv, Effects, NewlyCommitted, NewLineage, Settle, Draws, Names, Ages, Files, FileDurable, WithinQuota, MovesForward, NewIds, Writable;
    var Serve(now, q, o) := ev;
    NewIdsAreNew(r.st.reg, q, r.drawn);
    RequestMovesForward(r.st, r.cfg, r.fault, now, q);
    SettleForward(r, Effects(r.st, r.cfg, r.fault, now, q), o);
  }

  lemma CleanedLoadDevices(i: Image, b: Boot, now: int)
    requires UsersAccepted(i.users)
    ensures var reg := Cleanup(Loaded(i, b), now).reg; reg.devices == i.devices && reg.retired == i.retired
  {
    hide Cleanup, UsersAccepted, EnsureAll, IndexOf, Adopt;
    CleanupSame(Loaded(i, b), now);
  }

  /** The state and the files it may save carry exactly these routes. */
  predicate Carrying(reg: Registry, routes: Registry) {
    routes == EmptyRegistry.(devices := reg.devices, retired := reg.retired)
  }

  lemma SettleDevices(r: Relay, e: Effect, o: SaveOutcome, routes: Registry)
    requires e.Commit? && Carrying(e.attempt.reg, routes) && Carrying(e.onFailure.reg, routes) && RoutesIn(r.disk.file) == routes
    ensures var t := Settle(r, e, o);
            Carrying(t.st.reg, routes) && RoutesIn(t.disk.file) == routes &&
            forall f :: f in Files(t.disk) ==> f in Files(r.disk) || RoutesIn(f) == routes
  {
    hide Files, DiskAfter;
    FilesAfter(r.disk, ImageOf(if r.fault then Stopped(e.attempt) else e.attempt), o);
  }

  /** The last part of a start moves no route. */
  lemma FirstAccountDevices(r: Relay, down: Relay, b: Boot)
    requires Carrying(r.st.reg, RoutesIn(r.disk.file))
    ensures var t, routes := FirstAccount(r, down, b), RoutesIn(r.disk.file);
            (t.up && r.up && !down.up ==> Carrying(t.st.reg, routes)) && (t.st == down.st || Carrying(t.st.reg, routes)) &&
            (!t.up && r.up ==> t.st == down.st) &&
            RoutesIn(t.disk.file) == routes && forall f :: f in Files(t.disk) ==> f in Files(r.disk) || RoutesIn(f) == routes
  {
    var s := AwaitSetup(r.st, b.setupToken);
    FirstAccountCases(r, down, b);
    hide CreateUser, FirstAccount, Settle, RoutesIn, Files;
    if b.owner.Some? && CreateUser(s.reg, b.cfg.ownerUsername, b.owner.value, b.ownerId, true).Some? {
      var reg := CreateUser(s.reg, b.cfg.ownerUsername, b.owner.value, b.ownerId, true).value;
      CreateUserShape(s.reg, b.cfg.ownerUsername, b.owner.value, b.ownerId, true);
      SettleDevices(r, Commit(s.(reg := reg), s, false), b.second, RoutesIn(r.disk.file));
      SettleDrawn(r, Commit(s.(reg := reg), s, false), b.second);
    }
  }

  lemma ReadDevices(r: Relay, b: Boot)
    requires r.disk.file.Some? && UsersAccepted(r.disk.file.value.users)
    ensures var t, routes := Read(r, b), RoutesIn(r.disk.file);
            t.up && Carrying(t.st.reg, routes) && RoutesIn(t.disk.file) == routes &&
            forall f :: f in Files(t.disk) ==> f in Files(r.disk) || RoutesIn(f) == routes
  {
    var i := r.disk.file.value;
    var s := Cleanup(Loaded(i, b), b.now);
    var begun := r.(up := true, cfg := b.cfg, fault := r.disk.mark.Dirty?, st := s);
    hide UsersAccepted, Cleanup, Loaded, Settle, Files;
    CleanedLoadDevices(i, b, b.now);
    SettleDevices(begun, Commit(s, s, false), b.first, RoutesIn(r.disk.file));
    SettleDrawn(begun, Commit(s, s, false), b.first);
  }

  /** A start leaves every route on disk where it was, and either takes memory to what it read or does not come up. */
  lemma StartDevices(base: Origin, r: Relay, b: Boot)
    requires SoundDisk(r.disk, r.drawn) && (r.disk.file.Some? ==> Writable(r.disk.file.value))
    ensures var t, routes := Start(base, r, b), RoutesIn(r.disk.file);
            RoutesIn(t.disk.file) == routes && (forall f :: f in Files(t.disk) ==> f in Files(r.disk) || RoutesIn(f) == routes) &&
            if t.up then Carrying(t.st.reg, routes) else t.st == r.st
  {
    var down := r.(up := false);
    assert Carrying(Blank(b).reg, RoutesIn(None));
    hide SoundDisk, UsersAccepted, FirstAccount, Writable, Start, Read, RoutesIn, Files, Blank, Carrying;
    StartCases(base, r, b);
    if r.disk.file.None? {
      FirstAccountDevices(r.(up := true, cfg := b.cfg, fault := r.disk.mark.Dirty?, st := Blank(b)), down, b);
    } else {
      ReadDevices(r, b);
      FirstAccountDevices(Read(r, b), down, b);
    }
  }

  lemma StartForward(base: Origin, r: Relay, ev: Event)
    requires SoundDisk(r.disk, r.drawn) && NotBehind(r) && ev.Restart? && (r.disk.file.Some? ==> Writable(r.disk.file.value))
    ensures Forward(r, Next(base, r, ev))
  {
    hide SoundDisk, Writable, Start, Ages, WithinQuota, Files, FileDurable, RoutesIn;
    StartDevices(base, r, ev.boot);
    var t, routes := Start(base, r, ev.boot), RoutesIn(r.disk.file);
    SameDevicesAge(r.st.reg, r.st.reg);
    if FileDurable(r.disk) { DurableFile(r.disk); }
    if t.up {
      AgesSame(r.st.reg, routes, t.st.reg);
      SameDevicesAge(t.st.reg, routes);
    }
  }

  /** Power fails, and the file it leaves is behind what memory has shown of some route. */
  ghost predicate SetsBack(r: Relay, ev: Event) {
    ev.LosePower? && !Ages(r.st.reg, RoutesIn(ev.left.file))
  }

  lemma LostPowerForward(base: Origin, r: Relay, ev: Event)
    requires ev.LosePower? && !SetsBack(r, ev) && (r.disk.file.Some? ==> Writable(r.disk.file.value))
    ensures Forward(r, Next(base, r, ev))
  {
    hide Writable, Ages, Files, RoutesIn, Findable;
    DurableFile(Disk(ev.left.mark, ev.left.file, {}));
    SameDevicesAge(r.st.reg, r.st.reg);
  }

  lemma NextForward(base: Origin, r: Relay, ev: Event)
    requires Sound(r) && NotBehind(r) && Allowed(r, ev) && !SetsBack(r, ev) && (r.disk.file.Some? ==> Writable(r.disk.file.value))
    ensures Forward(r, Next(base, r, ev))
  {
    hide SoundState, SoundDisk, Writable, WellFormed, Draws, Forward, NotBehind, Next, SetsBack;
    match ev {
      case Serve(_, _, _) => ServeForward(base, r, ev);
      case Restart(_) => StartForward(base, r, ev);
      case LosePower(_) => LostPowerForward(base, r, ev);
    }
  }

  /** No power failure in the run sets a route back. */
  ghost predicate NoSetback(base: Origin, r: Relay, evs: seq<Event>)
    decreases |evs|
  {
    evs == [] ||
    (!SetsBack(r, evs[0]) && ((r.disk.file.Some? ==> Writable(r.disk.file.value)) ==> NoSetback(base, Next(base, r, evs[0]), evs[1..])))
  }

  /** Over any run, no route goes back in its life. */
  lemma {:induction false} RunsGoForward(base: Origin, r: Relay, evs: seq<Event>, t: Relay)
    requires Sound(r) && NotBehind(r) && Reaches(base, r, evs, t) && NoSetback(base, r, evs)
    ensures Forward(r, t)
    decreases |evs|
  {
    hide Sound, NotBehind, Next, Allowed, Writable, Ages, SetsBack;
    if evs != [] {
      var n := Next(base, r, evs[0]);
      NextSound(base, r, evs[0]);
      NextForward(base, r, evs[0]);
      RunsGoForward(base, n, evs[1..], t);
      AgesTransitive(r.st.reg, n.st.reg, t.st.reg);
    } else {
      SameDevicesAge(r.st.reg, r.st.reg);
    }
  }

  /** Only a power failure that takes back a file a start has read can set a route back; a start
      reads a file that is not durable only after a save whose directory sync failed. */
  lemma SetbackTakesBack(r: Relay, ev: Event)
    requires NotBehind(r) && Allowed(r, ev) && SetsBack(r, ev)
    ensures r.hasty && ev.left.file != r.disk.file
  {
    LostPowerFiles(r.disk, ev.left);
    hide Ages, RoutesIn, Files;
  }

  /** A route that once belonged to an account belongs to it for ever or is retired; a
      retired route stays retired, and no credential of anyone is good for it again. */
  lemma RouteForever(base: Origin, r: Relay, evs: seq<Event>, t: Relay, route: Route)
    requires Sound(r) && NotBehind(r) && Reaches(base, r, evs, t) && NoSetback(base, r, evs)
    ensures On(r.st.reg.retired, route) ==> On(t.st.reg.retired, route)
    ensures route in r.st.reg.devices && !On(r.st.reg.retired, route) ==>
              On(t.st.reg.retired, route) || (route in t.st.reg.devices && t.st.reg.devices[route] == r.st.reg.devices[route])
    ensures On(r.st.reg.retired, route) ==>
              forall fault, key, kind, resource :: UsesDevice(resource, route) ==> !Verifies(t.st, fault, key, resource, kind)
  {
    RunsGoForward(base, r, evs, t) by { hide Sound, NotBehind, NoSetback; }
    assert Later(PhaseOf(r.st.reg.devices, r.st.reg.retired, route), PhaseOf(t.st.reg.devices, t.st.reg.retired, route));
    hide Sound, NotBehind, Reaches, Forward, NoSetback;
  }

  // ------------------------------------------------ exactly when a route goes back

  lemma PublicStart(base: Origin, r: Relay, id: string)
    requires SoundDisk(r.disk, r.drawn) && !r.disk.mark.Torn? && (r.disk.file.Some? ==> Writable(r.disk.file.value))
    ensures Start(base, r, PublicBoot(id)).up
  {
    var b := PublicBoot(id);
    hide SoundDisk, Writable, Cleanup, Canonicalize, Encode, UsersAccepted, ImageOf, DiskAfter, CreateUser;
    if r.disk.file.Some? {
      SoundFileLoads(base, r.disk, r.drawn);
      var i := r.disk.file.value;
      CleanedUsers(i, b, b.now);
      assert Loaded(i, b).switches.mode.Public? by { hide EnsureAll, IndexOf, Adopt; }
      hide Loaded;
    }
  }

  /** The public start after a power failure shows exactly the routes of the file it finds. */
  lemma ShowsTheFile(base: Origin, l: Relay, id: string)
    requires Sound(l) && !l.disk.mark.Torn? && id != "" && id !in l.drawn
    ensures var t := Next(base, l, Restart(PublicBoot(id)));
            Reaches(base, l, [Restart(PublicBoot(id))], t) && NoSetback(base, l, [Restart(PublicBoot(id))]) && Carrying(t.st.reg, RoutesIn(l.disk.file))
  {
    var ev := Restart(PublicBoot(id));
    if l.disk.file.Some? { SoundWritable(base, l) by { hide Sound; } }
    assert !SetsBack(l, ev) && [ev][1..] == [];
    hide SoundState, SoundDisk, Writable, Start, PublicBoot, RoutesIn, FileDurable;
    ReachesOne(base, l, ev);
    PublicStart(base, l, id);
    StartDevices(base, l, ev.boot);
  }

  /** A torn mark stops the server for good. */
  lemma {:induction false} TornStays(base: Origin, r: Relay, evs: seq<Event>, t: Relay)
    requires !r.up && r.disk.mark.Torn? && r.disk.lapses == {} && Reaches(base, r, evs, t)
    ensures t.st == r.st
    decreases |evs|
  {
    hide Writable, Canonicalize, Encode, UsersAccepted, FirstAccount;
    if evs != [] {
      TornStays(base, Next(base, r, evs[0]), evs[1..], t);
    }
  }

  /** Every run after the power failure that sets no route back itself shows each route where it was or further. */
  ghost predicate GoesOn(base: Origin, r: Relay, x: Reading) {
    forall evs, t :: Reaches(base, LostPower(r, x), evs, t) && NoSetback(base, LostPower(r, x), evs) ==> Ages(r.st.reg, t.st.reg)
  }

  /** Exactly when a power failure leaves the life of the routes whole: when the file it leaves is
      not behind what memory has shown, or no start will ever accept the mark it leaves. */
  lemma SetbackExactly(base: Origin, r: Relay, x: Reading)
    requires Sound(r) && x in Findable(r.disk)
    ensures GoesOn(base, r, x) <==> x.mark.Torn? || Ages(r.st.reg, RoutesIn(x.file))
  {
    var l := LostPower(r, x);
    LostPowerSound(r, x) by { hide Sound; }
    assert l.st == r.st && l.disk == Disk(x.mark, x.file, {}) && l.drawn == r.drawn && !l.up && !l.hasty;
    hide Sound, Reaches, NoSetback, Ages, RoutesIn, Carrying, Files, Findable;
    if x.mark.Torn? {
      forall evs, t | Reaches(base, l, evs, t) ensures Ages(r.st.reg, t.st.reg) {
        TornStays(base, l, evs, t);
        SameDevicesAge(r.st.reg, t.st.reg);
      }
    } else if Ages(r.st.reg, RoutesIn(x.file)) {
      assert NotBehind(l) by { DurableFile(l.disk); }
      hide NotBehind;
      forall evs, t | Reaches(base, l, evs, t) && NoSetback(base, l, evs) ensures Ages(r.st.reg, t.st.reg) {
        RunsGoForward(base, l, evs, t);
      }
    } else {
      var id := FreshName(l.drawn);
      ShowsTheFile(base, l, id);
      ShownAges(r.st.reg, Next(base, l, Restart(PublicBoot(id))).st.reg, x.file);
    }
  }

  lemma ShownAges(a: Registry, shown: Registry, file: Option<Image>)
    requires Carrying(shown, RoutesIn(file)) && !Ages(a, RoutesIn(file))
    ensures !Ages(a, shown)
  {
    hide RoutesIn, Ages;
    if Ages(a, shown) { AgesSame(a, shown, RoutesIn(file)); }
  }

  // -------------------------------------------------- what an unsynced file costs

  /** A start on a dirty guard that finds accounts comes up with exactly the routes of its file, whatever it may find later. */
  lemma DirtyStartReads(base: Origin, r: Relay, b: Boot)
    requires SoundDisk(r.disk, r.drawn) && r.disk.mark.Dirty? && r.disk.file.Some? && r.disk.file.value.users != map[]
    requires Writable(r.disk.file.value)
    ensures var t := Start(base, r, b); t.up && t.fault && t.disk == r.disk && Carrying(t.st.reg, RoutesIn(r.disk.file))
  {
    hide SoundDisk, Writable, Cleanup, Loaded, Canonicalize, Encode;
    SoundFileLoads(base, r.disk, r.drawn);
    var i := r.disk.file.value;
    CleanedLoadDevices(i, b, b.now);
    CleanedUsers(i, b, b.now);
  }

  /** Both reads see a dirty guard: a file renamed but not synced, and what it replaced. */
  predicate Unsettled(d: Disk, newer: Image, older: Image) {
    d.mark.Dirty? && d.file == Some(newer) && Reading(Dirty, Some(older)) in d.lapses && newer.users != map[] && older.users != map[]
  }

  /** The proviso is needed: between a rename whose sync failed and a power failure that
      undoes it, a start shows the newer file's routes, and the next start the older one's. */
  lemma UnsyncedRoutesCanVanish(base: Origin, r: Relay, newer: Image, older: Image, b: Boot, c: Boot)
    requires Sound(r) && Unsettled(r.disk, newer, older) && Allowed(r, Restart(b))
    requires c.ownerId != "" && c.ownerId !in r.drawn + {b.ownerId}
    ensures exists m, t :: Reaches(base, r, [Restart(b)], m) && Reaches(base, r, [Restart(b), LosePower(Reading(Dirty, Some(older))), Restart(c)], t) &&
                           m.up && t.up && Carrying(m.st.reg, RoutesIn(Some(newer))) && Carrying(t.st.reg, RoutesIn(Some(older)))
  {
    var lost := Reading(Dirty, Some(older));
    hide *;
    UnsettledUsers(r.disk, newer, older);
    SoundWritable(base, r);
    var m := Next(base, r, Restart(b));
    ReachesOne(base, r, Restart(b));
    DirtyRestart(base, r, b, newer);
    DirtyThenLost(base, r, b, lost);
    LostPowerParts(m, lost, c);
    ReachesAfterLoss(base, r, b, lost, Restart(c));
    DirtyRestart(base, LostPower(m, lost), c, older);
  }

  lemma UnsettledUsers(d: Disk, newer: Image, older: Image)
    requires Unsettled(d, newer, older)
    ensures newer.users != map[] && older.users != map[] && d.mark.Dirty? && d.file == Some(newer) && Reading(Dirty, Some(older)) in d.lapses
  {
  }

  /** The whole step of a start on a dirty guard. */
  lemma DirtyRestart(base: Origin, r: Relay, b: Boot, i: Image)
    requires Sound(r) && r.disk.mark.Dirty? && r.disk.file == Some(i) && i.users != map[] && Writable(i) && Allowed(r, Restart(b))
    ensures var m := Next(base, r, Restart(b));
            m.up && m.fault && m.disk == r.disk && m.drawn == r.drawn + {b.ownerId} && Carrying(m.st.reg, RoutesIn(Some(i))) && Sound(m)
  {
    hide SoundState, SoundDisk, Start, Carrying, RoutesIn, Writable, FileDurable;
    NextSound(base, r, Restart(b));
    DirtyStartReads(base, r, b);
    StartDrawn(base, r, b);
  }

  // ---------------------------------------------------------- and that it happens

  /** What a process that may save shows of the routes is what its file says. */
  ghost predicate InStep(r: Relay) {
    r.up && !r.fault ==> Carrying(r.st.reg, RoutesIn(r.disk.file))
  }

  lemma SettleInStep(r: Relay, e: Effect, o: SaveOutcome)
    requires InStep(r) && r.up && MovesForward(r.st, e)
    ensures InStep(Settle(r, e, o))
  {
    hide Progress;
    if e.Commit? {
      assert ImageOf(e.attempt).devices == e.attempt.reg.devices && ImageOf(e.attempt).retired == e.attempt.reg.retired;
      hide ImageOf;
    }
  }

  lemma ServeInStep(base: Origin, r: Relay, ev: Event)
    requires SoundState(r.st, r.drawn) && InStep(r) && ev.Serve? && Allowed(r, ev) && (r.disk.file.Some? ==> Writable(r.disk.file.value))
    ensures InStep(Next(base, r, ev))
  {
    hide Inv, Effects, NewlyCommitted, NewLineage, Settle, Draws, Names, FileDurable, WellFormed, MovesForward, NewIds, Writable, RoutesIn;
    var Serve(now, q, o) := ev;
    NewIdsAreNew(r.st.reg, q, r.drawn);
    RequestMovesForward(r.st, r.cfg, r.fault, now, q);
    SettleInStep(r, Effects(r.st, r.cfg, r.fault, now, q), o);
  }

  /** Over any run, whatever saves and power do. */
  lemma {:induction false} RunsStayInStep(base: Origin, r: Relay, evs: seq<Event>, t: Relay)
    requires Sound(r) && InStep(r) && Reaches(base, r, evs, t)
    ensures InStep(t)
    decreases |evs|
  {
    hide SoundState, SoundDisk, Writable, Start, ServeRequest, FileDurable, RoutesIn, Findable, WellFormed, Draws, Carrying;
    if evs != [] {
      match evs[0] {
        case Serve(_, _, _) => ServeInStep(base, r, evs[0]);
        case Restart(b) => StartDevices(base, r, b);
        case LosePower(x) =>
      }
      NextSound(base, r, evs[0]);
      RunsStayInStep(base, Next(base, r, evs[0]), evs[1..], t);
    }
  }

  /** An administrator retires a route, and the save fails when everything but the directory's sync is done. */
  function Retiring(now: int, admin: User, route: Route): Event {
    Serve(now, Manage(admin, RevokeDevice(route)), WriteFailed(true))
  }

  lemma RetiringFails(base: Origin, r: Relay, now: int, admin: User, route: Route, older: Image)
    requires r.up && !r.fault && LiveAdmin(r.st.reg, admin) && route in r.st.reg.devices && r.disk.file == Some(older) && Writable(older)
    requires older.users != map[]
    ensures var n, newer := Next(base, r, Retiring(now, admin, route)), ImageOf(Retire(r.st, {route}));
            Unsettled(n.disk, newer, older) && On(newer.retired, route) && n.drawn == r.drawn && Allowed(r, Retiring(now, admin, route))
  {
    hide *;
    var ev, e := Retiring(now, admin, route), Commit(Retire(r.st, {route}), r.st, false);
    RetiringEffect(base, r, now, admin, route);
    RetiredOn(r.st, route);
    RetiredImage(r.st, route);
    FailedAfterRename(r, e, older);
    UnsettledParts(Next(base, r, ev).disk, ImageOf(e.attempt), older);
  }

  lemma UnsettledParts(d: Disk, newer: Image, older: Image)
    requires newer.users != map[] && older.users != map[] && d.mark.Dirty? && d.file == Some(newer) && Reading(Dirty, Some(older)) in d.lapses
    ensures Unsettled(d, newer, older)
  {
  }

  lemma RetiringEffect(base: Origin, r: Relay, now: int, admin: User, route: Route)
    requires r.up && !r.fault && LiveAdmin(r.st.reg, admin) && route in r.st.reg.devices && (r.disk.file.Some? ==> Writable(r.disk.file.value))
    ensures r.st.reg.users != map[] && Allowed(r, Retiring(now, admin, route))
    ensures var n := Next(base, r, Retiring(now, admin, route));
            n.disk == Settle(r, Commit(Retire(r.st, {route}), r.st, false), WriteFailed(true)).disk && n.drawn == r.drawn
  {
    hide Retire, Settle, Writable, FileDurable, NewlyCommitted, NewLineage;
    assert Effects(r.st, r.cfg, r.fault, now, Manage(admin, RevokeDevice(route))) == Commit(Retire(r.st, {route}), r.st, false);
  }

  lemma FailedAfterRename(r: Relay, e: Effect, older: Image)
    requires e.Commit? && !r.fault && r.disk.file == Some(older)
    ensures var d := Settle(r, e, WriteFailed(true)).disk;
            d.mark.Dirty? && d.file == Some(ImageOf(e.attempt)) && Reading(Dirty, Some(older)) in d.lapses
  {
    hide ImageOf;
    assert Reading(r.disk.mark, r.disk.file) in Findable(r.disk);
  }

  lemma RetiredImage(s: State, route: Route)
    requires route in s.reg.devices
    ensures var t := Retire(s, {route}); ImageOf(t).retired == t.reg.retired && ImageOf(t).users == t.reg.users
  {
    hide Retire;
  }

  lemma RetiredOn(s: State, route: Route)
    ensures var t := Retire(s, {route}); On(t.reg.retired, route) && t.reg.users == s.reg.users
  {
    hide RevokeRoutes, BoundToAny;
  }

  /** The owned route is in the file too, and so is its owner's account. */
  lemma OwnedInFile(r: Relay, route: Route)
    requires Sound(r) && InStep(r) && r.up && !r.fault && route in r.st.reg.devices
    ensures r.disk.file.Some? && r.disk.file.value.users != map[]
    ensures var i := r.disk.file.value;
            route in i.devices && i.devices[route] == r.st.reg.devices[route] && route !in i.retired
  {
    hide Inv, UsersOk, ClientsOk, FlagsOk, RecordsOk, TokensOk, RouteOk, NamesDrawn;
    assert r.disk.file in Files(r.disk);
    hide Files;
    assert SoundImage(r.disk.file.value, r.drawn);
  }

  /** Retirement is not for ever. In any process that may save, a route it retires, if only the
      sync of that save fails, is retired for everyone in the next process and, once power has
      failed under that one, owned by its former account again in the process after it. */
  lemma RetiredRouteReturns(base: Origin, r: Relay, now: int, admin: User, route: Route, b: Boot, c: Boot)
    requires Sound(r) && InStep(r) && r.up && !r.fault && LiveAdmin(r.st.reg, admin) && route in r.st.reg.devices
    requires Allowed(r, Restart(b)) && c.ownerId != "" && c.ownerId !in r.drawn + {b.ownerId}
    ensures var save, lost := Retiring(now, admin, route), LosePower(Reading(Dirty, r.disk.file));
            exists m, t :: Reaches(base, r, [save, Restart(b)], m) && Reaches(base, r, [save, Restart(b), lost, Restart(c)], t) && m.up && t.up &&
                           On(m.st.reg.retired, route) && !On(t.st.reg.retired, route) && route in t.st.reg.devices &&
                           t.st.reg.devices[route] == r.st.reg.devices[route] && !Ages(m.st.reg, t.st.reg)
  {
    hide *;
    var save, newer := Retiring(now, admin, route), ImageOf(Retire(r.st, {route}));
    OwnedInFile(r, route);
    var older := r.disk.file.value;
    var lost := Reading(Dirty, Some(older));
    SoundWritable(base, r);
    RetiringFails(base, r, now, admin, route, older);
    var n := Next(base, r, save);
    NextSound(base, r, save);
    SameNames(r, n, b);
    UnsyncedRoutesCanVanish(base, n, newer, older, b, c);
    var m, t :| Reaches(base, n, [Restart(b)], m) && Reaches(base, n, [Restart(b), LosePower(lost), Restart(c)], t) &&
                m.up && t.up && Carrying(m.st.reg, RoutesIn(Some(newer))) && Carrying(t.st.reg, RoutesIn(Some(older)));
    ReachesMore(base, r, save, [Restart(b)], m);
    ReachesMore(base, r, save, [Restart(b), LosePower(lost), Restart(c)], t);
    assert [save] + [Restart(b)] == [save, Restart(b)] && [save] + [Restart(b), LosePower(lost), Restart(c)] == [save, Restart(b), LosePower(lost), Restart(c)];
    GoneBack(m.st.reg, t.st.reg, newer, older, route);
  }

  lemma SameNames(r: Relay, n: Relay, b: Boot)
    requires n.drawn == r.drawn && Allowed(r, Restart(b))
    ensures Allowed(n, Restart(b))
  {
  }

  lemma GoneBack(a: Registry, b: Registry, newer: Image, older: Image, route: Route)
    requires Carrying(a, RoutesIn(Some(newer))) && Carrying(b, RoutesIn(Some(older)))
    requires On(newer.retired, route) && route in older.devices && route !in older.retired
    ensures On(a.retired, route) && !On(b.retired, route) && route in b.devices && b.devices[route] == older.devices[route] && !Ages(a, b)
  {
    assert !Later(PhaseOf(a.devices, a.retired, route), PhaseOf(b.devices, b.retired, route));
  }

  // -------------------------------------------------------------------- quota

  lemma SettleQuota(r: Relay, e: Effect, o: SaveOutcome)
    requires QuotaEverywhere(r) && WithinQuota(Unsaved(e).reg) && (e.Commit? ==> WithinQuota(e.attempt.reg))
    ensures QuotaEverywhere(Settle(r, e, o))
  {
    hide WithinQuota, Files, DiskAfter;
    if e.Commit? {
      var saved := ImageOf(if r.fault then Stopped(e.attempt) else e.attempt);
      SameQuota(RoutesIn(Some(saved)), e.attempt.reg);
      FilesAfter(r.disk, saved, o);
    }
  }

  lemma ServeQuota(r: Relay, now: int, q: Request, o: SaveOutcome)
    requires SoundState(r.st, r.drawn) && QuotaEverywhere(r) && Draws(q, r.drawn)
    ensures QuotaEverywhere(ServeRequest(r, now, q, o))
  {
    var e := Effects(r.st, r.cfg, r.fault, now, q);
    hide Inv, Effects, NewlyCommitted, NewLineage, Settle, Draws, Names, Ages, Files, WithinQuota, NewIds;
    NewIdsAreNew(r.st.reg, q, r.drawn);
    RequestMovesForward(r.st, r.cfg, r.fault, now, q);
    SameQuota(Unsaved(e).reg, r.st.reg);
    SettleQuota(r, e, o);
  }

  lemma StartQuota(base: Origin, r: Relay, b: Boot)
    requires SoundDisk(r.disk, r.drawn) && QuotaEverywhere(r) && (r.disk.file.Some? ==> Writable(r.disk.file.value))
    ensures QuotaEverywhere(Start(base, r, b))
  {
    hide SoundDisk, Writable, Start, WithinQuota, Files, RoutesIn;
    StartDevices(base, r, b);
    if Start(base, r, b).up { SameQuota(Start(base, r, b).st.reg, RoutesIn(r.disk.file)); }
  }

  /** No account exceeds its quota of routes in any run, whatever power failures take back. */
  lemma {:induction false} RunsKeepQuota(base: Origin, r: Relay, evs: seq<Event>, t: Relay)
    requires Sound(r) && QuotaEverywhere(r) && Reaches(base, r, evs, t)
    ensures QuotaEverywhere(t)
    decreases |evs|
  {
    hide SoundState, SoundDisk, Writable, Start, ServeRequest, WithinQuota, Files, FileDurable, RoutesIn, Findable, WellFormed, Draws;
    if evs != [] {
      match evs[0] {
        case Serve(now, q, o) => ServeQuota(r, now, q, o);
        case Restart(b) => StartQuota(base, r, b);
        case LosePower(x) => LostPowerFiles(r.disk, x);
      }
      NextSound(base, r, evs[0]);
      RunsKeepQuota(base, Next(base, r, evs[0]), evs[1..], t);
    }
  }

  /** A server started on an empty disk never lets an account own more than 16 routes. */
  lemma SixteenRoutes(base: Origin, evs: seq<Event>, t: Relay, u: string)
    requires Reaches(base, Unborn, evs, t)
    ensures |RoutesOf(t.st.reg.devices, u)| <= 16
  {
    UnbornIsSound();
    assert QuotaEverywhere(Unborn) by { EmptyQuota(); hide Reaches, Sound; }
    hide Sound, Reaches;
    RunsKeepQuota(base, Unborn, evs, t);
  }

  lemma EmptyQuota()
    ensures WithinQuota(EmptyRegistry)
  {
    forall u ensures |RoutesOf(EmptyRegistry.devices, u)| <= MAX_DEVICES_USER {
      assert RoutesOf(EmptyRegistry.devices, u) == {};
    }
  }
}
