/** Whole executions: requests, saves that fail at any stage, crashes, power failures
    and restarts.

    A crash in the middle of a save is a save that failed at that stage followed by a
    restart; a power failure may also take back what was never synced. `StateGuard` shows
    that the save's system calls have no other outcomes. */
module RelayRuns {
  import opened Wrappers
  import opened RelayState
  import opened RelayOps
  import opened RelayInvariant
  import opened RelayRequests
  import opened RelaySafety
  import opened RelayTokens
  import opened RelaySteps
  import opened Resources
  import opened StateFile
  import Text

  // --------------------------------------------------------------------- disk

  /** What the next start reads from the guard file; it refuses to run on a torn one. */
  datatype Mark = Clean | Dirty | Torn

  datatype Reading = Reading(mark: Mark, file: Option<Image>)

  /** What a start finds, and `lapses`: what it may find instead once power has failed,
      because what it would have found was never synced. */
  datatype Disk = Disk(mark: Mark, file: Option<Image>, lapses: set<Reading>)

  /** Everything a start may find, whether power fails first or not. */
  function Findable(d: Disk): set<Reading> {
    {Reading(d.mark, d.file)} + d.lapses
  }

  function Files(d: Disk): (files: set<Option<Image>>)
    ensures d.file in files
  {
    assert Reading(d.mark, d.file) in Findable(d);
    set x | x in Findable(d) :: x.file
  }

  /** No power failure can change which file a start finds. */
  predicate FileDurable(d: Disk) {
    forall x :: x in d.lapses ==> x.file == d.file
  }

  /** How far `saveStateTransactionUnlocked` got; `left` is what is in the guard, `wrote`
      whether the file was renamed into place. */
  datatype SaveOutcome = Saved | MarkFailed(left: Mark) | WriteFailed(wrote: bool) | CleanFailed(left: Mark)

  /** The mark goes through the guard's sync, so once it is durably dirty only a later
      attempt to clean it can make a start find it clean; the file goes through the
      directory's sync, so until then a power failure may bring an earlier one back. */
  function DiskAfter(d: Disk, i: Image, o: SaveOutcome): Disk {
    match o
    case Saved => Disk(Clean, Some(i), {})
    case MarkFailed(left) =>
      Disk(if left.Clean? then d.mark else left, d.file,
           Findable(d) + (set x | x in Findable(d) :: Reading(Dirty, x.file)) + set x | x in Findable(d) :: Reading(Torn, x.file))
    case WriteFailed(wrote) =>
      Disk(Dirty, if wrote then Some(i) else d.file, set x | x in Findable(d) :: Reading(Dirty, x.file))
    case CleanFailed(left) => Disk(left, Some(i), {Reading(Clean, Some(i)), Reading(Dirty, Some(i)), Reading(Torn, Some(i))})
  }

  /** A save puts no file on the disk but its own. */
  lemma FilesAfter(d: Disk, i: Image, o: SaveOutcome)
    ensures Files(DiskAfter(d, i, o)) <= Files(d) + {Some(i)}
    ensures DiskAfter(d, i, o).file in {d.file, Some(i)}
    ensures o.Saved? ==> Files(DiskAfter(d, i, o)) == {Some(i)}
  {
  }

  // ------------------------------------------------------------------ process

  /** The server process with its disk. The last four fields only record history: every
      name drawn so far, the authorization each code stands for, the code each token family
      came from, and whether a start has read a file that was not durable and still is not.
      A process that is down keeps the last state it served. */
  datatype Relay = Relay(up: bool, st: State, cfg: Config, fault: bool, disk: Disk,
                         drawn: set<string>, committed: map<string, Pending>, lineage: map<string, string>, hasty: bool)

  /** What a recovery save writes: the global stop goes in first. */
  function Stopped(s: State): State {
    s.(switches := s.switches.(kill := true))
  }

  /** `saveOrRollbackLocked` and `saveRecoveryOrRollbackLocked`. */
  function Settle(r: Relay, e: Effect, o: SaveOutcome): Relay {
    match e
    case Quiet(next) => r.(st := next)
    case Commit(attempt, onFailure, recovery) =>
      if r.fault && !recovery then r.(st := onFailure)
      else
        var t := if r.fault then Stopped(attempt) else attempt;
        r.(st := if o.Saved? then t else onFailure, fault := r.fault || !o.Saved?, disk := DiskAfter(r.disk, ImageOf(t), o))
  }

  // -------------------------------------------------------------------- start

  /** How an operator starts the process. `owner` is the private instance's bootstrap
      password, hashed; it hashes to None when it is not acceptable. */
  datatype Boot = Boot(cfg: Config, mode: Mode, now: int, setupToken: bool, owner: Option<Option<string>>, ownerId: string,
                       first: SaveOutcome, second: SaveOutcome)

  function FoldChar(c: char): char {
    if c == '\U{212A}' then 'k' else if c == '\U{17F}' then 's' else Text.LowerChar(c)
  }

  predicate SameName(a: string, b: string) {
    |a| == |b| && forall i :: 0 <= i < |a| ==> FoldChar(a[i]) == FoldChar(b[i])
  }

  function IndexOf(users: map<string, User>): map<string, string>
    requires UsersAccepted(users)
  {
    map u | u in users :: NormalizeUsername(users[u].username).value := u
  }

  /** In private mode the configured owner is an administrator. */
  function Adopt(users: map<string, User>, cfg: Config, mode: Mode): map<string, User> {
    map u | u in users ::
      if mode.Private? && SameName(users[u].username, cfg.ownerUsername) then users[u].(admin := true) else users[u]
  }

  function EnsureAll(reg: Registry): map<Route, DeviceRecord> {
    map r | r in reg.records.Keys + reg.devices.Keys ::
      if r in reg.devices then EnsureRecord(reg, r, reg.devices[r]) else reg.records[r]
  }

  /** The state a process holds after reading a file, before clean-up. */
  function Loaded(i: Image, b: Boot): State
    requires UsersAccepted(i.users)
  {
    var mode := if b.cfg.modeConfigured then b.mode else i.settings.mode;
    var reg := Registry(i.clients, Adopt(i.users, b.cfg, mode), IndexOf(i.users), i.devices, i.disabled, i.retired, i.records);
    State(reg.(records := EnsureAll(reg)), Grants(i.access, i.refresh, i.refreshUsed, map[], map[]), Web(i.sessions, {}, i.invites),
          Switches(mode, i.settings.registration && mode.Public? && !b.cfg.registrationDisabled, i.settings.dcr, i.settings.mcp,
                   i.settings.agent, i.settings.kill, false))
  }

  function Blank(b: Boot): State {
    State(EmptyRegistry, EmptyGrants, EmptyWeb,
          Switches(b.mode, b.mode.Public? && !b.cfg.registrationDisabled, true, true, true, false, false))
  }

  /** The setup token counts only while there is no account, and keeps registration closed. */
  function AwaitSetup(s: State, token: bool): State {
    var awaiting := token && s.reg.users == map[];
    s.(switches := s.switches.(awaitingSetup := awaiting, registration := s.switches.registration && !awaiting))
  }

  /** The end of `New`: a private instance without an account gets its owner, or does not start. */
  function FirstAccount(r: Relay, down: Relay, b: Boot): Relay {
    var s := AwaitSetup(r.st, b.setupToken);
    if !s.switches.mode.Private? || s.reg.users != map[] || (b.owner.None? && b.setupToken) then r.(st := s)
    else if b.owner.None? || r.fault then down.(disk := r.disk)
    else
      match CreateUser(s.reg, b.cfg.ownerUsername, b.owner.value, b.ownerId, true)
      case None => down.(disk := r.disk)
      case Some(reg) =>
        var t := Settle(r, Commit(s.(reg := reg), s, false), b.second);
        if b.second.Saved? then t else down.(disk := t.disk)
  }

  /** `New`, with `load`: a dirty guard means the file is read but not rewritten. */
  function Start(base: Origin, r: Relay, b: Boot): Relay
    requires r.disk.file.Some? ==> Writable(r.disk.file.value)
  {
    var down := r.(up := false);
    var begun := r.(up := true, cfg := b.cfg, fault := r.disk.mark.Dirty?);
    if r.disk.mark.Torn? then down
    else if r.disk.file.None? then FirstAccount(begun.(st := Blank(b)), down, b)
    else
      var i := Canonicalize(base, Encode(base, r.disk.file.value));
      if i.None? || !UsersAccepted(i.value.users) then down
      else
        var s := Cleanup(Loaded(i.value, b), b.now);
        var t := if begun.fault then begun.(st := s) else Settle(begun.(st := s), Commit(s, s, false), b.first);
        if !begun.fault && !b.first.Saved? then down.(disk := t.disk) else FirstAccount(t, down, b)
  }

  // --------------------------------------------------------------------- runs

  /** A restart may follow a crash or an orderly end; `LosePower` leaves one of the
      readings the disk allows. */
  datatype Event = Serve(now: int, request: Request, outcome: SaveOutcome) | Restart(boot: Boot) | LosePower(left: Reading)

  predicate Allowed(r: Relay, ev: Event) {
    match ev
    case Serve(_, q, _) => r.up && WellFormed(q) && Draws(q, r.drawn)
    case Restart(b) => b.ownerId != "" && b.ownerId !in r.drawn
    case LosePower(x) => x in Findable(r.disk)
  }

  function NewlyCommitted(r: Relay, e: Effect, q: Request): map<string, Pending> {
    if (q.Allow? || q.Join?) && e.Commit? && q.code in e.attempt.grants.codes then r.committed[q.code := e.attempt.grants.codes[q.code].grant]
    else r.committed
  }

  function NewLineage(r: Relay, e: Effect, q: Request): map<string, string> {
    if q.Redeem? && e.Commit? then r.lineage[q.tokens.family := q.codeRequest.code] else r.lineage
  }

  function ServeRequest(r: Relay, now: int, q: Request, o: SaveOutcome): Relay {
    var e := Effects(r.st, r.cfg, r.fault, now, q);
    Settle(r, e, o).(drawn := r.drawn + Names(q), committed := NewlyCommitted(r, e, q), lineage := NewLineage(r, e, q))
  }

  function Next(base: Origin, r: Relay, ev: Event): Relay
    requires r.disk.file.Some? ==> Writable(r.disk.file.value)
  {
    match ev
    case Serve(now, q, o) =>
      var n := ServeRequest(r, now, q, o);
      n.(hasty := r.hasty && !FileDurable(n.disk))
    case Restart(b) =>
      var n := Start(base, r, b);
      n.(drawn := r.drawn + {b.ownerId}, hasty := !FileDurable(r.disk) && (r.hasty || n.up))
    case LosePower(x) => r.(up := false, disk := Disk(x.mark, x.file, {}), hasty := false)
  }

  /** `t` is where the events lead from `r`, each allowed where it happens. */
  ghost predicate Reaches(base: Origin, r: Relay, evs: seq<Event>, t: Relay)
    decreases |evs|
  {
    if evs == [] then r == t
    else
      Allowed(r, evs[0]) && (r.disk.file.Some? ==> Writable(r.disk.file.value)) && Reaches(base, Next(base, r, evs[0]), evs[1..], t)
  }

  // ---------------------------------------------------------------- soundness

  ghost predicate NamesDrawn(clients: map<string, Client>, users: map<string, User>, drawn: set<string>) {
    clients.Keys <= drawn && users.Keys <= drawn
  }

  function ImageGrants(i: Image): Grants {
    Grants(i.access, i.refresh, i.refreshUsed, map[], map[])
  }

  ghost predicate SoundState(s: State, drawn: set<string>) {
    Inv(s) && NamesDrawn(s.reg.clients, s.reg.users, drawn)
  }

  ghost predicate SoundImage(i: Image, drawn: set<string>) {
    ImageOk(i) && NamesDrawn(i.clients, i.users, drawn)
  }

  /** Every file a start may find is in order. */
  ghost predicate SoundDisk(d: Disk, drawn: set<string>) {
    forall f :: f in Files(d) && f.Some? ==> SoundImage(f.value, drawn)
  }

  /** Memory is in order, and so is whatever file a restart would read. */
  ghost predicate Sound(r: Relay) {
    SoundState(r.st, r.drawn) && SoundDisk(r.disk, r.drawn)
  }

  lemma SoundIsWritable(i: Image, drawn: set<string>)
    requires SoundImage(i, drawn)
    ensures Writable(i)
  {
    hide ClientsOk, UsersOk, TokensOk, RouteOk, RecordKeyOk, NamesDrawn;
  }

  lemma SavedIsSound(s: State, drawn: set<string>)
    requires SoundState(s, drawn)
    ensures SoundImage(ImageOf(s), drawn)
  {
    hide Inv, ImageOk, NamesDrawn;
    InvariantIsReloadable(s);
  }

  lemma MoreDrawn(d: Disk, drawn: set<string>, more: set<string>)
    requires SoundDisk(d, drawn) && drawn <= more
    ensures SoundDisk(d, more)
  {
    hide ImageOk, Files;
  }

  lemma StoppedSound(s: State, drawn: set<string>)
    requires SoundState(s, drawn)
    ensures SoundState(Stopped(s), drawn)
  {
    hide Inv, NamesDrawn;
    SameKeeps(s, Stopped(s));
  }

  /** Settling an effect both of whose outcomes are sound leaves process and disk sound. */
  lemma SettleSound(r: Relay, e: Effect, o: SaveOutcome, more: set<string>)
    requires SoundDisk(r.disk, r.drawn)
    requires r.drawn <= more && forall t :: Outcome(e, t) ==> SoundState(t, more)
    ensures Sound(Settle(r, e, o).(drawn := more))
  {
    hide SoundState, SoundImage, ImageOf, Files, DiskAfter;
    MoreDrawn(r.disk, r.drawn, more);
    if e.Commit? {
      assert Outcome(e, e.attempt) && Outcome(e, e.onFailure);
      StoppedSound(e.attempt, more);
      SavedIsSound(e.attempt, more);
      SavedIsSound(Stopped(e.attempt), more);
      FilesAfter(r.disk, ImageOf(e.attempt), o);
      FilesAfter(r.disk, ImageOf(Stopped(e.attempt)), o);
    } else {
      assert Outcome(e, e.next);
    }
  }

  lemma NewIdsAreNew(reg: Registry, q: Request, drawn: set<string>)
    requires NamesDrawn(reg.clients, reg.users, drawn) && Draws(q, drawn)
    ensures NewIds(reg, q)
  {
  }

  lemma OutcomeSound(r: Relay, now: int, q: Request, t: State)
    requires SoundState(r.st, r.drawn) && WellFormed(q) && Draws(q, r.drawn) && Outcome(Effects(r.st, r.cfg, r.fault, now, q), t)
    ensures SoundState(t, r.drawn + Names(q))
  {
    hide Inv, Draws, Effects, Outcome, WellFormed, NewIds, Progress, Granted, Names;
    NewIdsAreNew(r.st.reg, q, r.drawn);
    RequestKeeps(r.st, r.cfg, r.fault, now, q, t);
    RequestEffected(r.st, r.cfg, r.fault, now, q, t);
  }

  lemma ServeSound(r: Relay, now: int, q: Request, o: SaveOutcome)
    requires Sound(r) && WellFormed(q) && Draws(q, r.drawn)
    ensures Sound(ServeRequest(r, now, q, o))
  {
    var e := Effects(r.st, r.cfg, r.fault, now, q);
    hide SoundState, SoundImage, Effects, Names, Draws, WellFormed, Outcome, Settle, Files;
    forall t | Outcome(e, t) ensures SoundState(t, r.drawn + Names(q)) {
      OutcomeSound(r, now, q, t);
    }
    SettleSound(r, e, o, r.drawn + Names(q));
  }

  // ------------------------------------------------------------ a start is sound

  lemma UserListsAgree(users: map<string, User>)
    requires UsersOk(users)
    ensures UsersAccepted(users)
  {
    hide NormalizeUsername;
  }

  lemma IndexFacts(users: map<string, User>)
    requires UsersOk(users) && UsersAccepted(users)
    ensures forall u :: u in users ==> Indexed(IndexOf(users), users[u].username, u)
    ensures forall n :: n in IndexOf(users) ==> Backed(users, n, IndexOf(users)[n])
  {
    hide NormalizeUsername;
    var names := IndexOf(users);
    forall u | u in users ensures Indexed(names, users[u].username, u) {
      assert NormalizeUsername(users[u].username).value in names;
    }
  }

  lemma AdoptedKeys(users: map<string, User>, cfg: Config, mode: Mode)
    ensures var adopted := Adopt(users, cfg, mode);
            adopted.Keys == users.Keys &&
            forall u :: u in users ==> adopted[u].id == users[u].id && adopted[u].username == users[u].username && adopted[u].disabled == users[u].disabled
  {
    hide SameName;
  }

  lemma AdoptedNames(users: map<string, User>, cfg: Config, mode: Mode)
    requires UsersOk(users) && UsersAccepted(users)
    ensures NamesAgree(Adopt(users, cfg, mode), IndexOf(users))
  {
    hide NormalizeUsername, Adopt, IndexOf, Indexed;
    IndexFacts(users);
    AdoptedKeys(users, cfg, mode);
  }

  lemma EnsuredRecords(reg: Registry)
    requires DevicesOk(reg.devices, reg.retired, reg.records, reg.users.Keys) && RecordsOk(reg.records, reg.users.Keys)
    ensures DevicesOk(reg.devices, reg.retired, EnsureAll(reg), reg.users.Keys) && RecordsOk(EnsureAll(reg), reg.users.Keys)
  {
    hide RouteOk;
  }

  lemma LoadedRegistry(i: Image, b: Boot)
    requires DirectoryOk(i) && UsersAccepted(i.users)
    ensures RegistryOk(Loaded(i, b).reg) && Loaded(i, b).reg.users.Keys == i.users.Keys
  {
    var mode := if b.cfg.modeConfigured then b.mode else i.settings.mode;
    hide NamesAgree, UsersOk, UsersAccepted, ClientsOk, DevicesOk, FlagsOk, RecordsOk, EnsureAll, IndexOf;
    AdoptedNames(i.users, b.cfg, mode);
    assert Adopt(i.users, b.cfg, mode).Keys == i.users.Keys;
    EnsuredRecords(Loaded(i, b).reg.(records := i.records));
  }

  lemma AdoptedTokens(clients: map<string, Client>, users: map<string, User>, cfg: Config, mode: Mode, m: map<string, Token>)
    requires TokensOk(clients, users, m)
    ensures TokensOk(clients, Adopt(users, cfg, mode), m)
  {
    hide Approved, ResourceOk, SameName;
  }

  lemma LoadedGrants(i: Image, b: Boot)
    requires ImageOk(i) && UsersAccepted(i.users)
    ensures var s := Loaded(i, b); GrantsOk(s.reg.clients, s.reg.users, s.grants)
  {
    var mode := if b.cfg.modeConfigured then b.mode else i.settings.mode;
    hide DirectoryOk, TokensOk, EnsureAll, IndexOf, Adopt, UsersAccepted, PendingOk;
    AdoptedTokens(i.clients, i.users, b.cfg, mode, i.access);
    AdoptedTokens(i.clients, i.users, b.cfg, mode, i.refresh);
    AdoptedTokens(i.clients, i.users, b.cfg, mode, i.refreshUsed);
  }

  lemma LoadedParts(i: Image, b: Boot)
    requires UsersAccepted(i.users)
    ensures Loaded(i, b).grants == ImageGrants(i) && Loaded(i, b).reg.clients == i.clients
  {
    hide EnsureAll, IndexOf, Adopt, UsersAccepted;
  }

  lemma LoadedSound(i: Image, b: Boot, drawn: set<string>)
    requires SoundImage(i, drawn) && UsersAccepted(i.users)
    ensures SoundState(Loaded(i, b), drawn)
  {
    hide SoundImage, RegistryOk, DirectoryOk, TokensOk, GrantsOk, UsersAccepted, Loaded;
    ImageParts(i, drawn);
    LoadedRegistry(i, b);
    LoadedGrants(i, b);
    LoadedParts(i, b);
  }

  lemma ImageParts(i: Image, drawn: set<string>)
    requires SoundImage(i, drawn)
    ensures NamesDrawn(i.clients, i.users, drawn) && ImageOk(i) && UsersAccepted(i.users)
  {
    hide UsersOk, ClientsOk, DevicesOk, FlagsOk, RecordsOk, TokensOk, UsersAccepted;
    UserListsAgree(i.users);
  }

  lemma CleanedSound(s: State, now: int, drawn: set<string>)
    requires SoundState(s, drawn)
    ensures SoundState(Cleanup(s, now), drawn)
  {
    hide Inv, Cleanup, Progress;
    CleanupKeeps(s, now);
    CleanupSame(s, now);
  }

  lemma CleanedTokensShrink(s: State, now: int)
    ensures SubTokens(Cleanup(s, now).grants, s.grants)
  {
    CleanupShrinks(s.reg, s.grants, now);
  }

  lemma BlankSound(b: Boot, drawn: set<string>)
    ensures SoundState(Blank(b), drawn)
  {
    hide NormalizeUsername;
  }

  lemma AwaitSound(s: State, token: bool, drawn: set<string>)
    requires SoundState(s, drawn)
    ensures SoundState(AwaitSetup(s, token), drawn)
  {
    hide Inv, NamesDrawn;
    SameKeeps(s, AwaitSetup(s, token));
  }

  lemma OwnerSound(s: State, b: Boot, reg: Registry, hash: Option<string>, drawn: set<string>)
    requires SoundState(s, drawn) && b.ownerId != "" && b.ownerId !in drawn
    requires CreateUser(s.reg, b.cfg.ownerUsername, hash, b.ownerId, true) == Some(reg)
    ensures SoundState(s.(reg := reg), drawn + {b.ownerId})
  {
    hide Inv, CreateUser;
    CreateUserKeeps(s, s.(reg := reg), b.cfg.ownerUsername, hash, b.ownerId, true);
    CreateUserShape(s.reg, b.cfg.ownerUsername, hash, b.ownerId, true);
  }

  lemma WiderSound(s: State, drawn: set<string>, more: set<string>)
    requires SoundState(s, drawn) && drawn <= more
    ensures SoundState(s, more)
  {
    hide Inv;
  }

  /** The last part of a start saves an owner, or changes no account. */
  lemma FirstAccountCases(r: Relay, down: Relay, b: Boot)
    ensures var s, t := AwaitSetup(r.st, b.setupToken), FirstAccount(r, down, b);
            t == r.(st := s) || t == down.(disk := r.disk) ||
            (b.owner.Some? && !r.fault &&
             var reg := CreateUser(s.reg, b.cfg.ownerUsername, b.owner.value, b.ownerId, true);
             reg.Some? &&
             var saved := Settle(r, Commit(s.(reg := reg.value), s, false), b.second);
             t == if b.second.Saved? then saved else down.(disk := saved.disk))
  {
    hide CreateUser, Settle, AwaitSetup;
  }

  lemma FirstAccountSound(r: Relay, down: Relay, b: Boot)
    requires SoundState(r.st, r.drawn) && SoundDisk(r.disk, r.drawn)
    requires SoundState(down.st, r.drawn)
    requires b.ownerId != "" && b.ownerId !in r.drawn
    ensures Sound(FirstAccount(r, down, b).(drawn := r.drawn + {b.ownerId}))
  {
    var more := r.drawn + {b.ownerId};
    var s := AwaitSetup(r.st, b.setupToken);
    FirstAccountCases(r, down, b);
    hide SoundState, SoundDisk, CreateUser, Settle, AwaitSetup, Outcome, FirstAccount;
    AwaitSound(r.st, b.setupToken, r.drawn);
    WiderSound(s, r.drawn, more);
    WiderSound(down.st, r.drawn, more);
    MoreDrawn(r.disk, r.drawn, more);
    if b.owner.Some? && CreateUser(s.reg, b.cfg.ownerUsername, b.owner.value, b.ownerId, true).Some? {
      var reg := CreateUser(s.reg, b.cfg.ownerUsername, b.owner.value, b.ownerId, true).value;
      OwnerSound(s, b, reg, b.owner.value, r.drawn);
      TwoOutcomes(s.(reg := reg), s, false, more);
      SettleSound(r, Commit(s.(reg := reg), s, false), b.second, more);
    }
  }

  lemma TwoOutcomes(a: State, b: State, recovery: bool, drawn: set<string>)
    requires SoundState(a, drawn) && SoundState(b, drawn)
    ensures forall t :: Outcome(Commit(a, b, recovery), t) ==> SoundState(t, drawn)
  {
    hide SoundState;
  }

  /** A file this server wrote is always read back whole: a start never rejects it. */
  lemma SoundFileLoads(base: Origin, d: Disk, drawn: set<string>)
    requires SoundDisk(d, drawn) && d.file.Some?
    ensures Writable(d.file.value) && Canonicalize(base, Encode(base, d.file.value)) == d.file && UsersAccepted(d.file.value.users)
  {
    assert d.file in Files(d);
    hide ImageOk, Canonicalize, Encode, UsersAccepted, Writable, SoundImage, Files;
    ImageParts(d.file.value, drawn);
    Reload(base, d.file.value);
  }

  /** The process that has read its file, cleaned up and, if it may, saved again. */
  function Read(r: Relay, b: Boot): Relay
    requires r.disk.file.Some? && UsersAccepted(r.disk.file.value.users)
  {
    var begun := r.(up := true, cfg := b.cfg, fault := r.disk.mark.Dirty?);
    var s := Cleanup(Loaded(r.disk.file.value, b), b.now);
    if begun.fault then begun.(st := s) else Settle(begun.(st := s), Commit(s, s, false), b.first)
  }

  lemma StartCases(base: Origin, r: Relay, b: Boot)
    requires SoundDisk(r.disk, r.drawn) && (r.disk.file.Some? ==> Writable(r.disk.file.value))
    ensures r.disk.file.Some? ==> UsersAccepted(r.disk.file.value.users)
    ensures var down, t := r.(up := false), Start(base, r, b);
            var begun := r.(up := true, cfg := b.cfg, fault := r.disk.mark.Dirty?);
            t == down ||
            (r.disk.file.None? && t == FirstAccount(begun.(st := Blank(b)), down, b)) ||
            (r.disk.file.Some? && (t == FirstAccount(Read(r, b), down, b) || t == down.(disk := Read(r, b).disk)))
  {
    hide SoundDisk, Canonicalize, Encode, UsersAccepted, FirstAccount, Writable, Cleanup, Loaded, Settle, Blank;
    if r.disk.file.Some? {
      SoundFileLoads(base, r.disk, r.drawn);
    }
  }

  lemma ReadSound(r: Relay, b: Boot)
    requires Sound(r) && r.disk.file.Some? && UsersAccepted(r.disk.file.value.users)
    ensures Sound(Read(r, b)) && Read(r, b).drawn == r.drawn
  {
    var i := r.disk.file.value;
    var begun := r.(up := true, cfg := b.cfg, fault := r.disk.mark.Dirty?);
    assert SoundImage(i, r.drawn) by { assert r.disk.file in Files(r.disk); }
    hide SoundState, SoundImage, SoundDisk, Settle, Cleanup, Loaded, UsersAccepted, Outcome;
    LoadedSound(i, b, r.drawn);
    var s := Cleanup(Loaded(i, b), b.now);
    CleanedSound(Loaded(i, b), b.now, r.drawn);
    TwoOutcomes(s, s, false, r.drawn);
    SettleSound(begun.(st := s), Commit(s, s, false), b.first, r.drawn);
    SettleDrawn(begun.(st := s), Commit(s, s, false), b.first);
  }

  lemma StartSound(base: Origin, r: Relay, b: Boot)
    requires Sound(r) && b.ownerId != "" && b.ownerId !in r.drawn && (r.disk.file.Some? ==> Writable(r.disk.file.value))
    ensures Sound(Start(base, r, b).(drawn := r.drawn + {b.ownerId}))
  {
    var down := r.(up := false);
    var begun := r.(up := true, cfg := b.cfg, fault := r.disk.mark.Dirty?);
    var more := r.drawn + {b.ownerId};
    hide SoundState, SoundDisk, Blank, UsersAccepted, FirstAccount, Writable, Start, Read;
    StartCases(base, r, b);
    WiderSound(r.st, r.drawn, more);
    MoreDrawn(r.disk, r.drawn, more);
    if r.disk.file.None? {
      BlankSound(b, r.drawn);
      FirstAccountSound(begun.(st := Blank(b)), down, b);
    } else {
      ReadSound(r, b);
      FirstAccountSound(Read(r, b), down, b);
      MoreDrawn(Read(r, b).disk, r.drawn, more);
    }
  }

  lemma SettleDrawn(r: Relay, e: Effect, o: SaveOutcome)
    ensures var t := Settle(r, e, o);
            t.drawn == r.drawn && t.committed == r.committed && t.lineage == r.lineage && t.cfg == r.cfg && t.up == r.up
  {
  }

  lemma NextSound(base: Origin, r: Relay, ev: Event)
    requires Sound(r) && Allowed(r, ev) && (r.disk.file.Some? ==> Writable(r.disk.file.value))
    ensures Sound(Next(base, r, ev))
  {
    hide Sound, Writable, ServeRequest, Start, WellFormed, Draws;
    match ev {
      case Serve(now, q, o) =>
        ServeSound(r, now, q, o);
        SoundIgnoresHaste(ServeRequest(r, now, q, o), r.hasty && !FileDurable(ServeRequest(r, now, q, o).disk));
      case Restart(b) =>
        StartSound(base, r, b);
        SoundIgnoresHaste(Start(base, r, b).(drawn := r.drawn + {b.ownerId}), !FileDurable(r.disk) && (r.hasty || Start(base, r, b).up));
      case LosePower(x) => LostPowerSound(r, x);
    }
  }

  lemma SoundIgnoresHaste(r: Relay, hasty: bool)
    ensures Sound(r.(hasty := hasty)) == Sound(r)
  {
    hide SoundState, SoundDisk;
  }

  /** What a power failure leaves was findable before. */
  lemma LostPowerFiles(d: Disk, x: Reading)
    requires x in Findable(d)
    ensures Files(Disk(x.mark, x.file, {})) == {x.file} && x.file in Files(d)
  {
  }

  lemma LostPowerSound(r: Relay, x: Reading)
    requires Sound(r) && x in Findable(r.disk)
    ensures Sound(r.(up := false, disk := Disk(x.mark, x.file, {}), hasty := false))
  {
    hide SoundState, SoundImage, Files, Findable;
    LostPowerFiles(r.disk, x);
  }

  /** The server before its first start, with an empty disk. */
  const Unborn := Relay(false, State(EmptyRegistry, EmptyGrants, EmptyWeb, Switches(Private, false, true, true, true, false, false)),
                        Config(false, false, false, ""), false, Disk(Clean, None, {}), {}, map[], map[], false)

  lemma UnbornIsSound()
    ensures Sound(Unborn)
  {
    hide NormalizeUsername;
  }

  /** Safety over whole runs: whatever requests come, however their saves fail, and wherever
      the process crashes, power fails and the process restarts, memory and file stay in order. */
  lemma {:induction false} RunsAreSound(base: Origin, r: Relay, evs: seq<Event>, t: Relay)
    requires Sound(r) && Reaches(base, r, evs, t)
    ensures Sound(t)
    decreases |evs|
  {
    hide Sound, Next, Allowed, Writable;
    if evs != [] {
      NextSound(base, r, evs[0]);
      RunsAreSound(base, Next(base, r, evs[0]), evs[1..], t);
    }
  }

  /** Every file a start may ever find after any run is accepted unchanged by the loader. */
  lemma EverySavedFileLoads(base: Origin, r: Relay, evs: seq<Event>, t: Relay, x: Reading)
    requires Sound(r) && Reaches(base, r, evs, t) && x in Findable(t.disk) && x.file.Some?
    ensures Writable(x.file.value) && Canonicalize(base, Encode(base, x.file.value)) == x.file
  {
    hide SoundState, SoundImage, Reaches, Writable, Canonicalize, Encode, UsersAccepted, Findable, Files;
    RunsAreSound(base, r, evs, t);
    LostPowerSound(t, x);
    SoundFileLoads(base, Disk(x.mark, x.file, {}), t.drawn);
  }

  /** Starting from any file the loader accepts, under names drawn so far, is a sound beginning. */
  lemma AcceptedFileIsSound(base: Origin, raw: TextState, mark: Mark, drawn: set<string>)
    requires Canonicalize(base, raw).Some?
    requires var i := Canonicalize(base, raw).value; NamesDrawn(i.clients, i.users, drawn)
    ensures Sound(Unborn.(disk := Disk(mark, Canonicalize(base, raw), {}), drawn := drawn))
  {
    hide Canonicalize, ImageOk, Inv, NamesDrawn;
    Accepted(base, raw);
    UnbornState(drawn);
  }

  lemma UnbornState(drawn: set<string>)
    ensures SoundState(Unborn.st, drawn)
  {
    hide NormalizeUsername;
  }

  // ------------------------------------------------------------- steps of a run

  lemma CleanedUsers(i: Image, b: Boot, now: int)
    requires UsersAccepted(i.users)
    ensures Cleanup(Loaded(i, b), now).reg.users.Keys == i.users.Keys && Cleanup(Loaded(i, b), now).switches == Loaded(i, b).switches
  {
    var mode := if b.cfg.modeConfigured then b.mode else i.settings.mode;
    CleanedKill(Loaded(i, b), now);
    CleanupSame(Loaded(i, b), now) by { hide UsersAccepted; }
    hide Cleanup, UsersAccepted, EnsureAll, IndexOf, Adopt;
    AdoptedKeys(i.users, b.cfg, mode);
  }

  /** Power fails and the next start finds `x`. */
  function LostPower(r: Relay, x: Reading): Relay {
    r.(up := false, disk := Disk(x.mark, x.file, {}), hasty := false)
  }

  lemma ReachesOne(base: Origin, r: Relay, ev: Event)
    requires Allowed(r, ev) && (r.disk.file.Some? ==> Writable(r.disk.file.value))
    ensures Reaches(base, r, [ev], Next(base, r, ev))
  {
    hide Allowed, Writable, Next;
    assert [ev][1..] == [] && Reaches(base, Next(base, r, ev), [], Next(base, r, ev));
  }

  lemma ReachesMore(base: Origin, r: Relay, ev: Event, evs: seq<Event>, t: Relay)
    requires Allowed(r, ev) && (r.disk.file.Some? ==> Writable(r.disk.file.value)) && Reaches(base, Next(base, r, ev), evs, t)
    ensures Reaches(base, r, [ev] + evs, t)
  {
    hide Allowed, Writable, Next;
    assert ([ev] + evs)[1..] == evs;
  }

  lemma SoundWritable(base: Origin, r: Relay)
    requires Sound(r) && r.disk.file.Some?
    ensures Writable(r.disk.file.value)
  {
    hide SoundState, SoundDisk, Writable, Canonicalize, Encode, UsersAccepted;
    SoundFileLoads(base, r.disk, r.drawn);
  }

  /** A dirty start leaves the disk alone. */
  lemma DirtyStartDisk(base: Origin, r: Relay, b: Boot)
    requires r.disk.mark.Dirty? && (r.disk.file.Some? ==> Writable(r.disk.file.value))
    ensures Start(base, r, b).disk == r.disk
  {
    hide Writable, Cleanup, Loaded, Canonicalize, Encode, UsersAccepted, Blank, CreateUser, AwaitSetup;
  }

  /** The step on which both gaps turn: a start on a dirty guard leaves the disk alone, so a
      power failure after it may still bring back whatever one before it could. */
  lemma DirtyThenLost(base: Origin, r: Relay, b: Boot, x: Reading)
    requires Sound(r) && r.disk.mark.Dirty? && Allowed(r, Restart(b)) && x in r.disk.lapses
    requires r.disk.file.Some? ==> Writable(r.disk.file.value)
    ensures var m := Next(base, r, Restart(b));
            Sound(m) && m.drawn == r.drawn + {b.ownerId} && Allowed(m, LosePower(x)) && Sound(LostPower(m, x)) &&
            (m.disk.file.Some? ==> Writable(m.disk.file.value)) && (x.file.Some? ==> Writable(x.file.value))
  {
    var m := Next(base, r, Restart(b));
    assert m.disk == r.disk && m.drawn == r.drawn + {b.ownerId} by {
      hide Sound, Start, FileDurable, Writable;
      DirtyStartDisk(base, r, b);
      StartDrawn(base, r, b);
    }
    assert Allowed(m, LosePower(x));
    LostPowerParts(m, x, b);
    hide *;
    NextSound(base, r, Restart(b));
    LostPowerSound2(m, x);
    if x.file.Some? { SoundWritable(base, LostPower(m, x)); }
  }

  /** Any run after that power failure is a run from before the start. */
  lemma ReachesAfterLoss(base: Origin, r: Relay, b: Boot, x: Reading, ev: Event)
    requires Allowed(r, Restart(b)) && (r.disk.file.Some? ==> Writable(r.disk.file.value))
    requires var m := Next(base, r, Restart(b)); Allowed(m, LosePower(x)) && (m.disk.file.Some? ==> Writable(m.disk.file.value))
    requires var l := LostPower(Next(base, r, Restart(b)), x); Allowed(l, ev) && (l.disk.file.Some? ==> Writable(l.disk.file.value))
    ensures Reaches(base, r, [Restart(b), LosePower(x), ev], Next(base, LostPower(Next(base, r, Restart(b)), x), ev))
  {
    hide *;
    var m, l := Next(base, r, Restart(b)), LostPower(Next(base, r, Restart(b)), x);
    NextLosePower(base, m, x);
    ReachesOne(base, l, ev);
    ReachesMore(base, m, LosePower(x), [ev], Next(base, l, ev));
    ReachesMore(base, r, Restart(b), [LosePower(x)] + [ev], Next(base, l, ev));
    assert [Restart(b)] + ([LosePower(x)] + [ev]) == [Restart(b), LosePower(x), ev];
  }

  lemma LostPowerSound2(r: Relay, x: Reading)
    requires Sound(r) && Allowed(r, LosePower(x))
    ensures Sound(LostPower(r, x)) && LostPower(r, x).drawn == r.drawn
  {
    hide Sound, Findable;
    LostPowerSound(r, x);
  }

  lemma LostPowerParts(r: Relay, x: Reading, b: Boot)
    ensures var l := LostPower(r, x);
            l.disk == Disk(x.mark, x.file, {}) && l.drawn == r.drawn && (b.ownerId != "" && b.ownerId !in r.drawn ==> Allowed(l, Restart(b)))
  {
  }

  lemma NextLosePower(base: Origin, r: Relay, x: Reading)
    requires r.disk.file.Some? ==> Writable(r.disk.file.value)
    ensures Next(base, r, LosePower(x)) == LostPower(r, x)
  {
    hide Writable;
  }

  lemma StartDrawn(base: Origin, r: Relay, b: Boot)
    requires r.disk.file.Some? ==> Writable(r.disk.file.value)
    ensures var t := Start(base, r, b); t.drawn == r.drawn && t.committed == r.committed && t.lineage == r.lineage
  {
    hide Canonicalize, Encode, UsersAccepted, Writable, Cleanup, Loaded, Blank, Settle, FirstAccount;
    if r.disk.file.None? {
      FirstAccountDrawn(r.(up := true, cfg := b.cfg, fault := r.disk.mark.Dirty?, st := Blank(b)), r.(up := false), b);
    } else {
      var i := Canonicalize(base, Encode(base, r.disk.file.value));
      if i.Some? && UsersAccepted(i.value.users) {
        var s := Cleanup(Loaded(i.value, b), b.now);
        var begun := r.(up := true, cfg := b.cfg, fault := r.disk.mark.Dirty?, st := s);
        SettleDrawn(begun, Commit(s, s, false), b.first);
        FirstAccountDrawn(if begun.fault then begun else Settle(begun, Commit(s, s, false), b.first), r.(up := false), b);
      }
    }
  }

  lemma FirstAccountDrawn(r: Relay, down: Relay, b: Boot)
    requires r.drawn == down.drawn && r.committed == down.committed && r.lineage == down.lineage
    ensures var t := FirstAccount(r, down, b); t.drawn == r.drawn && t.committed == r.committed && t.lineage == r.lineage
  {
    var s := AwaitSetup(r.st, b.setupToken);
    FirstAccountCases(r, down, b);
    hide CreateUser, FirstAccount, Settle;
    if b.owner.Some? && CreateUser(s.reg, b.cfg.ownerUsername, b.owner.value, b.ownerId, true).Some? {
      var reg := CreateUser(s.reg, b.cfg.ownerUsername, b.owner.value, b.ownerId, true).value;
      SettleDrawn(r, Commit(s.(reg := reg), s, false), b.second);
    }
  }

  lemma CleanedKill(s: State, now: int)
    ensures Cleanup(s, now).switches == s.switches
  {
    hide CleanGrants, LiveSessions, LiveInvites, FreshClients;
  }

  /** A public start whose own save succeeds: it comes up on every file it accepts. */
  function PublicBoot(id: string): Boot {
    Boot(Config(true, false, false, ""), Public, 0, false, None, id, Saved, Saved)
  }

  /** There is always a name that was not drawn. */
  lemma {:induction false} FreshName(s: set<string>) returns (n: string)
    ensures n != "" && forall x :: x in s ==> |x| < |n|
  {
    if s == {} {
      n := "a";
    } else {
      var y :| y in s;
      n := FreshName(s - {y});
      assert forall x :: x in s ==> x == y || x in s - {y};
      if |n| <= |y| { n := y + "a"; }
    }
  }
}
