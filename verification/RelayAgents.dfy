/** The Relay as the server its Agents refresh their tokens with: its exchanges do what
    `CredentialStore` takes them to do, and a rotation that fails halfway ends a family later. */
module RelayAgents {
  import opened Wrappers
  import opened RelayState
  import opened RelayOps
  import opened RelayInvariant
  import opened RelayRequests
  import opened RelaySafety
  import opened RelayTokens
  import opened RelaySteps
  import opened RelayFamilies
  import opened RelayFreeze
  import opened RelayRuns
  import opened Resources
  import opened StateFile
  import Store = CredentialStore

  // ------------------------------------------------------------- the server seen

  function Families(m: map<string, Token>): map<string, string> {
    map k | k in m :: m[k].family
  }

  function TablesOf(g: Grants): Store.Tables {
    Store.Tables(Families(g.refresh), Families(g.refreshUsed))
  }

  function TablesIn(file: Option<Image>): Store.Tables {
    match file
    case None => Store.NoTables
    case Some(i) => TablesOf(ImageGrants(i))
  }

  function FilesOf(d: Disk): set<Store.Tables> {
    set f | f in Files(d) :: TablesIn(f)
  }

  function EndingOf(o: SaveOutcome): Store.Ending {
    match o
    case Saved => Store.Stored
    case MarkFailed(_) => Store.Unwritten
    case WriteFailed(wrote) => if wrote then Store.Halfway else Store.Unwritten
    case CleanFailed(_) => Store.Halfway
  }

  function ServerOf(r: Relay, replays: nat): Store.Server {
    Store.Server(TablesOf(r.st.grants), replays, r.fault, FilesOf(r.disk))
  }

  /** `a` is what `b` may be: the same but for files that only `b` may find. */
  predicate Within(a: Store.Server, b: Store.Server) {
    a == b.(files := a.files) && a.files <= b.files
  }

  lemma SavedTables(s: State)
    ensures TablesIn(Some(ImageOf(s))) == TablesOf(s.grants)
  {
  }

  /** A save that is not a recovery does to the tokens what `Saving` says. */
  lemma SettlingIsSaving(r: Relay, e: Effect, o: SaveOutcome, replays: nat)
    requires e.Commit? && !e.recovery
    ensures var a := TablesOf(e.attempt.grants);
            Within(ServerOf(Settle(r, e, o), replays), Store.Saving(ServerOf(r, replays), a, TablesOf(e.onFailure.grants), EndingOf(o))) &&
            (!r.fault && !EndingOf(o).Unwritten? ==> a in FilesOf(Settle(r, e, o).disk))
  {
    if !r.fault {
      var i := ImageOf(e.attempt);
      SavedTables(e.attempt);
      hide ImageOf, TablesOf;
      AfterSave(r.disk, i, o);
    }
  }

  lemma AfterSave(d: Disk, i: Image, o: SaveOutcome)
    ensures var after, a := FilesOf(DiskAfter(d, i, o)), TablesIn(Some(i));
            match EndingOf(o)
            case Stored => after == {a}
            case Unwritten => after <= FilesOf(d)
            case Halfway => after <= FilesOf(d) + {a} && a in after
  {
    hide TablesIn;
    FilesAfter(d, i, o);
    assert DiskAfter(d, i, o).file in Files(DiskAfter(d, i, o));
    if EndingOf(o).Unwritten? {
      assert Files(DiskAfter(d, i, o)) <= Files(d) by { Unwritten(d, i, o); }
    }
  }

  lemma Unwritten(d: Disk, i: Image, o: SaveOutcome)
    requires EndingOf(o).Unwritten?
    ensures Files(DiskAfter(d, i, o)) <= Files(d)
  {
    assert forall x :: x in DiskAfter(d, i, o).lapses ==> x.file in Files(d);
  }

  // ------------------------------------------------------------- the exchanges seen

  /** The process as the exchange finds it, once it has cleaned up. */
  function Cleaned(r: Relay, now: int): Relay {
    r.(st := Cleanup(r.st, now))
  }

  lemma RotatedTables(c: Grants, t: Grants, key: string, f: Fresh, kept: Token)
    requires Rotated(c, t, key, f, kept) && key in c.refresh && c.refresh[key].family == kept.family
    ensures TablesOf(t) == Store.Rotated(TablesOf(c), key, f.refresh)
  {
    assert t.refresh == (c.refresh - {key})[f.refresh := t.refresh[f.refresh]];
    assert Families(t.refresh) == (Families(c.refresh) - {key})[f.refresh := kept.family];
    assert Families(t.refreshUsed) == Families(c.refreshUsed)[key := kept.family];
  }

  /** A refresh that may happen is a rotation of the tables, saved or taken back. */
  lemma RotationIsRotating(r: Relay, now: int, q: RefreshRequest, f: Fresh, o: SaveOutcome, replays: nat)
    requires Rotatable(r.st, r.fault, now, q) && r.st.grants.refresh[q.key].family != ""
    requires f.access !in r.st.grants.access && f.refresh !in r.st.grants.refresh && q.key !in r.st.grants.refreshUsed
    ensures var c, n := ServerOf(Cleaned(r, now), replays), ServeRequest(r, now, Rotate(q, f), o);
            q.key in c.now.live && Within(ServerOf(n, replays), Store.Saving(c, Store.Rotated(c.now, q.key, f.refresh), c.now, EndingOf(o)))
    ensures var c, n := ServerOf(Cleaned(r, now), replays), ServeRequest(r, now, Rotate(q, f), o);
            !EndingOf(o).Unwritten? ==> Store.Rotated(c.now, q.key, f.refresh) in FilesOf(n.disk)
  {
    var c, live := Cleaned(r, now), r.st.grants.refresh[q.key];
    var e := Effects(r.st, r.cfg, r.fault, now, Rotate(q, f));
    RotateYields(r.st, r.cfg, r.fault, now, q, f);
    CleanedTokens(r.st, now, q.key);
    assert !r.fault && !e.recovery && q.key in c.st.grants.refresh && c.st.grants.refresh[q.key] == live by { hide Cleanup, TokenLive; }
    hide Cleanup, Effects, Rotated, Rotatable, Settle, TablesOf, FilesOf;
    RotatedTables(c.st.grants, e.attempt.grants, q.key, f, live);
    TakenBack(c.st.grants, e.onFailure.grants, q.key);
    SettlingIsSaving(r, e, o, replays);
    SavingFromCleaned(r, now, TablesOf(e.attempt.grants), TablesOf(e.onFailure.grants), o, replays);
    ServingIsSettling(r, now, Rotate(q, f), o, replays);
  }

  lemma SavingFromCleaned(r: Relay, now: int, a: Store.Tables, kept: Store.Tables, o: SaveOutcome, replays: nat)
    ensures Store.Saving(ServerOf(Cleaned(r, now), replays), a, kept, EndingOf(o)) == Store.Saving(ServerOf(r, replays), a, kept, EndingOf(o))
  {
    hide Cleanup, TablesOf, FilesOf;
  }

  lemma ServingIsSettling(r: Relay, now: int, q: Request, o: SaveOutcome, replays: nat)
    ensures var n, t := ServeRequest(r, now, q, o), Settle(r, Effects(r.st, r.cfg, r.fault, now, q), o);
            ServerOf(n, replays) == ServerOf(t, replays) && n.disk == t.disk
  {
    hide Effects, Settle, TablesOf, FilesOf, NewlyCommitted, NewLineage, Names;
  }

  lemma TakenBack(c: Grants, t: Grants, key: string)
    requires key in c.refresh && t == c.(refresh := c.refresh[key := c.refresh[key]])
    ensures TablesOf(t) == TablesOf(c) && key in TablesOf(c).live
  {
    assert c.refresh[key := c.refresh[key]] == c.refresh;
  }

  lemma EndedTables(g: Grants, family: string)
    requires family != ""
    ensures TablesOf(RevokeFamily(g, family)) == Store.EndFamily(TablesOf(g), family)
  {
  }

  lemma ReplayEffect(r: Relay, now: int, q: RefreshRequest, f: Fresh)
    requires Rotates(r.st.grants, r.drawn) && Replays(r.st.grants, q) && TokenLive(r.st.reg, r.st.grants.refreshUsed[q.key], now)
    ensures var c, used := Cleanup(r.st, now), r.st.grants.refreshUsed[q.key];
            var dead := c.(grants := RevokeFamily(c.grants, used.family));
            Effects(r.st, r.cfg, r.fault, now, Rotate(q, f)) == Commit(dead, dead, false) &&
            q.key !in c.grants.refresh && q.key in c.grants.refreshUsed && c.grants.refreshUsed[q.key] == used
  {
    CleanedUsed(r.st, now, q.key);
    assert q.key !in Cleanup(r.st, now).grants.refresh by {
      CleanupShrinks(r.st.reg, r.st.grants, now);
      assert q.key !in r.st.grants.refresh;
    }
    hide Cleanup, RevokeFamily, Rotates, TokenLive;
  }

  /** A replay is a refusal that ends the family. */
  lemma ReplayIsRefused(r: Relay, now: int, q: RefreshRequest, f: Fresh, o: SaveOutcome, replays: nat)
    requires Rotates(r.st.grants, r.drawn) && Replays(r.st.grants, q) && TokenLive(r.st.reg, r.st.grants.refreshUsed[q.key], now)
    requires r.st.grants.refreshUsed[q.key].family != ""
    ensures var c, n := ServerOf(Cleaned(r, now), replays), ServeRequest(r, now, Rotate(q, f), o);
            q.key !in c.now.live && q.key in c.now.used && Within(ServerOf(n, replays + 1), Store.Refused(c, q.key, EndingOf(o)))
  {
    var c, used := Cleaned(r, now), r.st.grants.refreshUsed[q.key];
    hide *;
    var e, d := Effects(r.st, r.cfg, r.fault, now, Rotate(q, f)), Store.EndFamily(TablesOf(c.st.grants), used.family);
    CleanedState(r, now);
    ReplayEffect(r, now, q, f);
    EndedTables(c.st.grants, used.family);
    SettlingIsSaving(r, e, o, replays);
    SavingFromCleaned(r, now, d, d, o, replays);
    ServingIsSettling(r, now, Rotate(q, f), o, replays);
    RefusedIsSaving(c, q.key, EndingOf(o), replays);
    OneReplayMore(ServeRequest(r, now, Rotate(q, f), o), Store.Saving(ServerOf(c, replays), d, d, EndingOf(o)), replays);
  }

  lemma CleanedState(r: Relay, now: int)
    ensures Cleaned(r, now).st == Cleanup(r.st, now)
  {
  }

  lemma RefusedIsSaving(c: Relay, key: string, end: Store.Ending, replays: nat)
    requires key in c.st.grants.refreshUsed && key !in c.st.grants.refresh
    ensures var s := ServerOf(c, replays);
            var d := Store.EndFamily(TablesOf(c.st.grants), c.st.grants.refreshUsed[key].family);
            key !in s.now.live && key in s.now.used && Store.Refused(s, key, end) == Store.Saving(s, d, d, end).(replays := replays + 1)
  {
  }

  lemma OneReplayMore(n: Relay, s: Store.Server, replays: nat)
    requires Within(ServerOf(n, replays), s)
    ensures Within(ServerOf(n, replays + 1), s.(replays := replays + 1))
  {
    hide TablesOf, FilesOf;
  }

  /** In doubt of its file, the server drops a live token it is presented with, in memory only. */
  lemma DoubtDrops(r: Relay, now: int, q: RefreshRequest, f: Fresh, o: SaveOutcome, replays: nat)
    requires r.fault && Presents(Cleanup(r.st, now).grants, q)
    ensures ServerOf(ServeRequest(r, now, Rotate(q, f), o), replays) == Store.Refused(ServerOf(Cleaned(r, now), replays), q.key, EndingOf(o))
  {
    var c := Cleaned(r, now);
    var dropped := c.st.(grants := c.st.grants.(refresh := c.st.grants.refresh - {q.key}));
    assert Effects(r.st, r.cfg, r.fault, now, Rotate(q, f)) == Commit(dropped, dropped, false) by { hide Cleanup; }
    assert Families(c.st.grants.refresh - {q.key}) == Families(c.st.grants.refresh) - {q.key};
    hide Cleanup, Effects, FilesOf, NewlyCommitted, NewLineage;
  }

  /** What a process holds after a start are tokens of the file it has found. */
  lemma StartFindsFile(base: Origin, r: Relay, b: Boot)
    requires Sound(r) && r.disk.file.Some? && Writable(r.disk.file.value) && Start(base, r, b).up
    ensures var g, i := Start(base, r, b).st.grants, r.disk.file.value;
            Sub(g.refresh, i.refresh) && Sub(g.refreshUsed, i.refreshUsed)
    ensures var tables, found := ServerOf(Start(base, r, b), 0).now, TablesIn(r.disk.file);
            found in FilesOf(r.disk) && tables.live.Keys <= found.live.Keys && tables.used.Keys <= found.used.Keys
  {
    var i := r.disk.file.value;
    assert r.disk.file in Files(r.disk);
    SoundFileLoads(base, r.disk, r.drawn) by { hide SoundState, SoundDisk, Writable; }
    LoadedParts(i, b) by { hide Sound, Writable; }
    CleanedTokensShrink(Loaded(i, b), b.now);
    StartedState(base, r, b, i) by { hide SoundState, SoundDisk; }
    hide Sound, Writable, Start, Loaded, Cleanup, Files;
  }

  /** A process that came up holds what it has read, cleaned up. */
  lemma StartedState(base: Origin, r: Relay, b: Boot, i: Image)
    requires Sound(r) && r.disk.file == Some(i) && Writable(i) && UsersAccepted(i.users) && Start(base, r, b).up
    ensures Start(base, r, b).st.grants == Cleanup(Loaded(i, b), b.now).grants
    ensures i.users != map[] ==> Start(base, r, b).st.reg == Cleanup(Loaded(i, b), b.now).reg
  {
    StartCases(base, r, b) by { hide SoundState, SoundDisk; }
    hide Sound, Writable, Start, UsersAccepted, FirstAccount;
    CleanedUsers(i, b, b.now);
    ReadState(r, b);
    hide Read, Cleanup, Loaded;
    FirstAccountState(Read(r, b), r.(up := false), b);
  }

  lemma ReadState(r: Relay, b: Boot)
    requires r.disk.file.Some? && UsersAccepted(r.disk.file.value.users)
    ensures Read(r, b).st == Cleanup(Loaded(r.disk.file.value, b), b.now)
  {
    hide Cleanup, Loaded, UsersAccepted, ImageOf, DiskAfter;
  }

  lemma FirstAccountState(r: Relay, down: Relay, b: Boot)
    requires !down.up
    ensures var t := FirstAccount(r, down, b);
            t.up ==> t.st.grants == r.st.grants && (r.st.reg.users != map[] ==> t.st.reg == r.st.reg)
  {
    hide CreateUser, ImageOf, DiskAfter;
  }

  // --------------------------------------------------- a rotation that fails halfway

  /** After the failure memory has the token live, and the file has it used. */
  lemma FailedRotationLands(r: Relay, now: int, q: RefreshRequest, f: Fresh, o: SaveOutcome)
    requires Rotatable(r.st, r.fault, now, q) && r.st.grants.refresh[q.key].family != "" && EndingOf(o).Halfway?
    requires f.access !in r.st.grants.access && f.refresh !in r.st.grants.refresh && q.key !in r.st.grants.refreshUsed
    ensures var n, s, live := ServeRequest(r, now, Rotate(q, f), o), Effects(r.st, r.cfg, r.fault, now, Rotate(q, f)), r.st.grants.refresh[q.key];
            s.Commit? && n.disk.file == Some(ImageOf(s.attempt)) && s.attempt.reg == Cleanup(r.st, now).reg &&
            q.key in n.st.grants.refresh && q.key !in s.attempt.grants.refresh &&
            q.key in s.attempt.grants.refreshUsed && s.attempt.grants.refreshUsed[q.key] == live
  {
    var e := Effects(r.st, r.cfg, r.fault, now, Rotate(q, f));
    RotateYields(r.st, r.cfg, r.fault, now, q, f);
    assert !r.fault && e.attempt.reg == Cleanup(r.st, now).reg && !e.recovery by { hide Cleanup, TokenLive; }
    hide Cleanup, Effects, ImageOf, NewlyCommitted, NewLineage, Names, SameGrant;
  }

  /** What a token needs to be good is not lost by writing the state and reading it again. */
  lemma LoadedKeepsGood(s: State, b: Boot, t: Token, now: int)
    requires TokenLive(s.reg, t, now) && UsersAccepted(s.reg.users)
    ensures TokenLive(Loaded(ImageOf(s), b).reg, t, now)
  {
    hide UsersAccepted, Loaded, ImageOf, ActiveUser, ApprovedClient, DeviceOn, Owns;
    LoadedKeepsParty(s, b, t);
    if HasDevice(t.resource) {
      LoadedKeepsDevice(s, b, t.user, t.resource.device);
    }
  }

  lemma LoadedKeepsParty(s: State, b: Boot, t: Token)
    requires UsersAccepted(s.reg.users)
    ensures var reg := Loaded(ImageOf(s), b).reg;
            (ActiveUser(s.reg, t.user) ==> ActiveUser(reg, t.user)) && (ApprovedClient(s.reg, t.client) ==> ApprovedClient(reg, t.client))
  {
    hide EnsureAll, IndexOf, UsersAccepted, SameName;
  }

  lemma LoadedKeepsDevice(s: State, b: Boot, u: string, r: Route)
    requires UsersAccepted(s.reg.users) && DeviceOn(s.reg, r) && Owns(s.reg, u, r)
    ensures var reg := Loaded(ImageOf(s), b).reg; DeviceOn(reg, r) && Owns(reg, u, r)
  {
    hide UsersAccepted, IndexOf, Adopt;
  }

  lemma CleanedKeepsGood(s: State, t: Token, now: int, later: int)
    requires TokenLive(s.reg, t, now) && later < t.expires
    ensures TokenLive(Cleanup(s, now).reg, t, later)
  {
    CleanupKeepsClient(s, now, t.client);
    CleanupSame(s, now);
    assert Cleanup(s, now).reg == s.reg.(clients := Cleanup(s, now).reg.clients) by { hide CleanGrants, FreshClients, LiveSessions, LiveInvites; }
    hide Cleanup, ApprovedClient;
  }

  /** The process that starts on that file takes the token for a used one, for as long as it has not expired. */
  lemma StartsWithUsed(base: Origin, n: Relay, b: Boot, attempt: State, key: string, live: Token, now: int, later: int)
    requires Sound(n) && n.disk.file == Some(ImageOf(attempt)) && Writable(ImageOf(attempt)) && Start(base, n, b).up
    requires key in attempt.grants.refreshUsed && attempt.grants.refreshUsed[key] == live
    requires TokenLive(attempt.reg, live, now) && b.now < live.expires && later < live.expires
    ensures var t := Start(base, n, b).st;
            key in t.grants.refreshUsed && t.grants.refreshUsed[key] == live && TokenLive(t.reg, live, later)
  {
    var i := ImageOf(attempt);
    SoundFileLoads(base, n.disk, n.drawn) by { hide SoundState, SoundDisk, Writable; }
    assert i.users == attempt.reg.users && i.users != map[] by { hide Sound, Writable, Start, UsersAccepted; }
    hide Sound, Writable, Start, UsersAccepted, Loaded, Cleanup, ImageOf, TokenLive;
    StartedState(base, n, b, i);
    LoadedParts(i, b);
    LoadedKeepsGood(attempt, b, live, now);
    LaterGood(Loaded(i, b).reg, live, now, b.now);
    CleanedUsed(Loaded(i, b), b.now, key) by { UsedInImage(attempt, key); }
    CleanedKeepsGood(Loaded(i, b), live, b.now, later);
  }

  lemma LaterGood(reg: Registry, t: Token, now: int, later: int)
    requires TokenLive(reg, t, now) && later < t.expires
    ensures TokenLive(reg, t, later)
  {
  }

  lemma UsedInImage(s: State, key: string)
    ensures ImageGrants(ImageOf(s)).refreshUsed == s.grants.refreshUsed
  {
  }

  lemma FreshForRotation(g: Grants, drawn: set<string>, q: RefreshRequest, f: Fresh)
    requires Rotates(g, drawn) && Draws(Rotate(q, f), drawn) && q.key in g.refresh
    ensures f.access !in g.access && f.refresh !in g.refresh && q.key !in g.refreshUsed
  {
  }

  lemma TwoSteps(base: Origin, r: Relay, a: Event, b: Event, m: Relay)
    requires Reaches(base, r, [a, b], m) && Sound(r)
    ensures Allowed(r, a) && (r.disk.file.Some? ==> Writable(r.disk.file.value))
    ensures var n := Next(base, r, a); Sound(n) && Allowed(n, b) && (n.disk.file.Some? ==> Writable(n.disk.file.value)) && m == Next(base, n, b)
  {
    hide Allowed, Writable, Next, Sound;
    assert [a, b][1..] == [b] && [b][1..] == [];
    assert Reaches(base, Next(base, r, a), [b], m) && Reaches(base, Next(base, Next(base, r, a), b), [], m);
    NextSound(base, r, a);
  }

  /** An honest Agent is taken for a thief. It asks the Relay to rotate its token, the Relay's save
      fails once the file is written, and the Agent is told so and keeps its token, which the Relay
      too has live. The process that starts next knows it as used only, and when the Agent asks
      again before the token expires, its whole family is revoked. */
  lemma HonestReplay(base: Origin, r: Relay, now: int, q: RefreshRequest, f: Fresh, o: SaveOutcome, b: Boot, m: Relay,
                     later: int, g: Fresh, p: SaveOutcome)
    requires Sound(r) && RotatesEverywhere(r) && Rotatable(r.st, r.fault, now, q) && r.st.grants.refresh[q.key].family != ""
    requires EndingOf(o).Halfway? && Reaches(base, r, [Serve(now, Rotate(q, f), o), Restart(b)], m) && m.up
    requires b.now < r.st.grants.refresh[q.key].expires && later < r.st.grants.refresh[q.key].expires
    ensures q.key in ServeRequest(r, now, Rotate(q, f), o).st.grants.refresh
    ensures q.key !in m.st.grants.refresh && Replays(m.st.grants, q)
    ensures Extinct(ServeRequest(m, later, Rotate(q, g), p).st.grants, r.st.grants.refresh[q.key].family)
  {
    var ev, live, e := Serve(now, Rotate(q, f), o), r.st.grants.refresh[q.key], Effects(r.st, r.cfg, r.fault, now, Rotate(q, f));
    assert live.client == q.client && TokenLive(r.st.reg, live, now);
    hide *;
    TwoSteps(base, r, ev, Restart(b), m);
    RotationAllowed(r, ev);
    RotatesNow(r);
    FreshForRotation(r.st.grants, r.drawn, q, f);
    FailedRotationLands(r, now, q, f, o);
    var n := Next(base, r, ev);
    ServedDisk(base, r, now, Rotate(q, f), o);
    StartedNext(base, n, b);
    CleanedGood(r.st, live, now);
    StartsWithUsed(base, n, b, e.attempt, q.key, live, now, later);
    RunsRotate(base, r, [ev, Restart(b)], m);
    RotatesNow(m);
    UsedOnly(m.st.grants, m.drawn, q, live);
    ReplayStep(m, later, q, g, p);
  }

  lemma RotationAllowed(r: Relay, ev: Event)
    requires ev.Serve? && Allowed(r, ev)
    ensures Draws(ev.request, r.drawn)
  {
  }

  lemma RotatesNow(r: Relay)
    requires RotatesEverywhere(r)
    ensures Rotates(r.st.grants, r.drawn)
  {
  }

  lemma ServedDisk(base: Origin, r: Relay, now: int, q: Request, o: SaveOutcome)
    requires r.disk.file.Some? ==> Writable(r.disk.file.value)
    ensures Next(base, r, Serve(now, q, o)).disk == ServeRequest(r, now, q, o).disk
  {
    hide Writable, ServeRequest, FileDurable;
  }

  lemma StartedNext(base: Origin, n: Relay, b: Boot)
    requires n.disk.file.Some? ==> Writable(n.disk.file.value)
    ensures var m := Next(base, n, Restart(b)); m.up == Start(base, n, b).up && m.st == Start(base, n, b).st
  {
    hide Writable, Start, FileDurable;
  }

  lemma CleanedGood(s: State, t: Token, now: int)
    requires TokenLive(s.reg, t, now)
    ensures TokenLive(Cleanup(s, now).reg, t, now)
  {
    LaterThan(s.reg, t, now);
    hide TokenLive;
    CleanedKeepsGood(s, t, now, now);
  }

  lemma LaterThan(reg: Registry, t: Token, now: int)
    requires TokenLive(reg, t, now)
    ensures now < t.expires
  {
  }

  lemma UsedOnly(g: Grants, drawn: set<string>, q: RefreshRequest, live: Token)
    requires Rotates(g, drawn) && q.key in g.refreshUsed && g.refreshUsed[q.key] == live && live.client == q.client
    ensures q.key !in g.refresh && Replays(g, q)
  {
  }
}
