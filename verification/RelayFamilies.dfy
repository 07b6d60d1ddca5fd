/** Token families over whole runs: rotation stays intact, a replayed family ends, and one
    that was revoked never comes back. */
module RelayFamilies {
  import opened Wrappers
  import opened RelayState
  import opened RelayOps
  import opened RelayInvariant
  import opened RelayRequests
  import opened RelaySafety
  import opened RelayTokens
  import opened RelaySteps
  import opened RelayRuns
  import opened Resources
  import opened StateFile

  // ------------------------------------------------------- a family, once revoked

  /** Nothing of the family is left in memory, nor in any file a start may find. */
  ghost predicate ExtinctEverywhere(r: Relay, family: string) {
    Extinct(r.st.grants, family) && ExtinctOnDisk(r.disk, family)
  }

  ghost predicate ExtinctOnDisk(d: Disk, family: string) {
    forall f :: f in Files(d) && f.Some? ==> Extinct(ImageGrants(f.value), family)
  }

  lemma OutcomeExtinct(r: Relay, now: int, q: Request, family: string)
    requires Extinct(r.st.grants, family) && family in r.drawn && family != "" && Draws(q, r.drawn)
    ensures var e := Effects(r.st, r.cfg, r.fault, now, q);
            Extinct(Unsaved(e).grants, family) && (e.Commit? ==> Extinct(e.attempt.grants, family))
  {
    var e := Effects(r.st, r.cfg, r.fault, now, q);
    hide Extinct, Effects, Draws;
    StaysExtinct(r.st, r.cfg, r.fault, now, q, Unsaved(e), r.drawn, family);
    if e.Commit? {
      StaysExtinct(r.st, r.cfg, r.fault, now, q, e.attempt, r.drawn, family);
    }
  }

  lemma SettleExtinct(r: Relay, e: Effect, o: SaveOutcome, family: string)
    requires Extinct(Unsaved(e).grants, family) && (e.Commit? ==> Extinct(e.attempt.grants, family))
    ensures Extinct(Settle(r, e, o).st.grants, family)
    ensures ExtinctOnDisk(r.disk, family) ==> ExtinctOnDisk(Settle(r, e, o).disk, family)
    ensures e.Commit? && o.Saved? && (!r.fault || e.recovery) ==> ExtinctEverywhere(Settle(r, e, o), family)
  {
    hide Files, DiskAfter;
    if e.Commit? {
      var saved := ImageOf(if r.fault then Stopped(e.attempt) else e.attempt);
      ExtinctShrinks(ImageGrants(saved), e.attempt.grants, family);
      FilesAfter(r.disk, saved, o);
    }
    hide Extinct;
  }

  /** Within one process a revoked family never comes back, whether or not saves succeed. */
  lemma {:induction false} ExtinctInProcess(base: Origin, r: Relay, evs: seq<Event>, t: Relay, family: string)
    requires Extinct(r.st.grants, family) && family in r.drawn && family != ""
    requires Reaches(base, r, evs, t) && forall ev :: ev in evs ==> ev.Serve?
    ensures Extinct(t.st.grants, family)
    decreases |evs|
  {
    hide Extinct, Writable, Effects, Draws, WellFormed, Settle, Names;
    if evs != [] {
      var Serve(now, q, o) := evs[0];
      OutcomeExtinct(r, now, q, family);
      SettleExtinct(r, Effects(r.st, r.cfg, r.fault, now, q), o, family);
      ExtinctInProcess(base, Next(base, r, evs[0]), evs[1..], t, family);
    }
  }

  lemma LoadedExtinct(i: Image, b: Boot, now: int, family: string)
    requires UsersAccepted(i.users) && Extinct(ImageGrants(i), family)
    ensures Extinct(Cleanup(Loaded(i, b), now).grants, family)
  {
    hide Extinct, Cleanup, UsersAccepted, Loaded;
    LoadedParts(i, b);
    CleanedTokensShrink(Loaded(i, b), now);
    ExtinctShrinks(Cleanup(Loaded(i, b), now).grants, ImageGrants(i), family);
  }

  lemma FirstAccountExtinct(r: Relay, down: Relay, b: Boot, family: string)
    requires ExtinctEverywhere(r, family) && Extinct(down.st.grants, family)
    ensures ExtinctEverywhere(FirstAccount(r, down, b), family)
  {
    var s := AwaitSetup(r.st, b.setupToken);
    assert s.grants == r.st.grants;
    FirstAccountCases(r, down, b);
    hide Extinct, ExtinctOnDisk, CreateUser, Settle, AwaitSetup, FirstAccount;
    if b.owner.Some? && CreateUser(s.reg, b.cfg.ownerUsername, b.owner.value, b.ownerId, true).Some? {
      var reg := CreateUser(s.reg, b.cfg.ownerUsername, b.owner.value, b.ownerId, true).value;
      SettleExtinct(r, Commit(s.(reg := reg), s, false), b.second, family);
    }
  }

  lemma ReadExtinct(r: Relay, b: Boot, family: string)
    requires ExtinctEverywhere(r, family) && r.disk.file.Some? && UsersAccepted(r.disk.file.value.users)
    ensures ExtinctEverywhere(Read(r, b), family)
  {
    var i := r.disk.file.value;
    assert Extinct(ImageGrants(i), family) by { assert r.disk.file in Files(r.disk); }
    var s := Cleanup(Loaded(i, b), b.now);
    var begun := r.(up := true, cfg := b.cfg, fault := r.disk.mark.Dirty?, st := s);
    hide UsersAccepted, Cleanup, Loaded, Extinct, ExtinctOnDisk, Settle, ImageGrants;
    LoadedExtinct(i, b, b.now, family);
    SettleExtinct(begun, Commit(s, s, false), b.first, family);
  }

  lemma StartExtinct(base: Origin, r: Relay, b: Boot, family: string)
    requires Sound(r) && ExtinctEverywhere(r, family) && (r.disk.file.Some? ==> Writable(r.disk.file.value))
    ensures ExtinctEverywhere(Start(base, r, b), family)
  {
    assert Extinct(Blank(b).grants, family);
    hide SoundState, SoundDisk, Extinct, ExtinctOnDisk, Start, Read, FirstAccount, Writable, Blank, UsersAccepted;
    StartCases(base, r, b);
    if r.disk.file.None? {
      FirstAccountExtinct(r.(up := true, cfg := b.cfg, fault := r.disk.mark.Dirty?, st := Blank(b)), r.(up := false), b, family);
    } else {
      ReadExtinct(r, b, family);
      FirstAccountExtinct(Read(r, b), r.(up := false), b, family);
    }
  }

  lemma NextExtinct(base: Origin, r: Relay, ev: Event, family: string)
    requires Sound(r) && ExtinctEverywhere(r, family) && family in r.drawn && family != ""
    requires Allowed(r, ev) && (r.disk.file.Some? ==> Writable(r.disk.file.value))
    ensures ExtinctEverywhere(Next(base, r, ev), family) && family in Next(base, r, ev).drawn
  {
    hide Sound, Extinct, Writable, Effects, Draws, WellFormed, Settle, Names, Start, ImageGrants, Files, Findable, FileDurable;
    match ev {
      case Serve(now, q, o) =>
        OutcomeExtinct(r, now, q, family);
        SettleExtinct(r, Effects(r.st, r.cfg, r.fault, now, q), o, family);
      case Restart(b) =>
        StartExtinct(base, r, b, family);
        StartDrawn(base, r, b);
      case LosePower(x) => LostPowerFiles(r.disk, x);
    }
  }

  /** Once the revocation has reached the file, no restart brings the family back either. */
  lemma {:induction false} ExtinctForever(base: Origin, r: Relay, evs: seq<Event>, t: Relay, family: string)
    requires Sound(r) && ExtinctEverywhere(r, family) && family in r.drawn && family != "" && Reaches(base, r, evs, t)
    ensures ExtinctEverywhere(t, family)
    decreases |evs|
  {
    hide Sound, Next, Allowed, Writable, ExtinctEverywhere;
    if evs != [] {
      NextSound(base, r, evs[0]);
      NextExtinct(base, r, evs[0], family);
      ExtinctForever(base, Next(base, r, evs[0]), evs[1..], t, family);
    }
  }

  /** The step that presents a used token, seen from process and disk. */
  lemma ReplayStep(r: Relay, now: int, q: RefreshRequest, f: Fresh, o: SaveOutcome)
    requires Rotates(r.st.grants, r.drawn) && Replays(r.st.grants, q) && TokenLive(r.st.reg, r.st.grants.refreshUsed[q.key], now)
    requires r.st.grants.refreshUsed[q.key].family != ""
    ensures var family, n := r.st.grants.refreshUsed[q.key].family, ServeRequest(r, now, Rotate(q, f), o);
            family in n.drawn && Extinct(n.st.grants, family) && (o.Saved? && !r.fault ==> ExtinctEverywhere(n, family))
  {
    var family, e := r.st.grants.refreshUsed[q.key].family, Effects(r.st, r.cfg, r.fault, now, Rotate(q, f));
    assert family in r.drawn by { assert Known(r.st.grants.refreshUsed, r.drawn); }
    hide Rotates, Extinct, ExtinctOnDisk, LosesFamily, Effects, TokenLive, Settle, ImageGrants;
    ReplayIsSaved(r.st, r.cfg, r.fault, now, q, f, r.drawn);
    ReplayRevokes(r.st, r.cfg, r.fault, now, q, f, e.onFailure, r.drawn);
    ReplayRevokes(r.st, r.cfg, r.fault, now, q, f, e.attempt, r.drawn);
    SettleExtinct(r, e, o, family);
  }

  /** How much of the family a replay leaves in memory: nothing while the presented token has not
      expired, and what clean-up leaves afterwards. */
  lemma ReplayLeaves(r: Relay, now: int, q: RefreshRequest, f: Fresh, o: SaveOutcome)
    requires Rotates(r.st.grants, r.drawn) && Replays(r.st.grants, q)
    requires r.st.grants.refreshUsed[q.key].family != "" && FamilyShares(r.st.grants, r.st.grants.refreshUsed[q.key])
    ensures var used, n := r.st.grants.refreshUsed[q.key], ServeRequest(r, now, Rotate(q, f), o);
            Extinct(n.st.grants, used.family) <==> now < used.expires || Extinct(Cleanup(r.st, now).grants, used.family)
  {
    var used, e := r.st.grants.refreshUsed[q.key], Effects(r.st, r.cfg, r.fault, now, Rotate(q, f));
    assert Outcome(e, Unsaved(e)) && (e.Commit? ==> Outcome(e, e.attempt));
    hide Rotates, Extinct, FamilyShares, Effects, Cleanup, Replays, Outcome;
    ReplayExactly(r.st, r.cfg, r.fault, now, q, f, Unsaved(e), r.drawn);
    if e.Commit? {
      ReplayExactly(r.st, r.cfg, r.fault, now, q, f, e.attempt, r.drawn);
    }
    SettleGrants(r, e, o);
  }

  lemma SettleGrants(r: Relay, e: Effect, o: SaveOutcome)
    ensures var g := Settle(r, e, o).st.grants; g == Unsaved(e).grants || (e.Commit? && g == e.attempt.grants)
  {
    hide ImageOf, DiskAfter;
  }

  /** A replay ends a family exactly until the presented token's own expiry: in time, no token
      of the family exists in that process again and, if something was left to revoke and the
      revocation is saved, in no later process either; too late, the family is what clean-up leaves. */
  lemma ReplayIsFinal(base: Origin, r: Relay, now: int, q: RefreshRequest, f: Fresh, o: SaveOutcome, evs: seq<Event>, t: Relay)
    requires Sound(r) && Rotates(r.st.grants, r.drawn) && Replays(r.st.grants, q)
    requires r.st.grants.refreshUsed[q.key].family != "" && FamilyShares(r.st.grants, r.st.grants.refreshUsed[q.key])
    requires Reaches(base, r, [Serve(now, Rotate(q, f), o)] + evs, t)
    ensures var used := r.st.grants.refreshUsed[q.key];
            now < used.expires && (forall ev :: ev in evs ==> ev.Serve?) ==> Extinct(t.st.grants, used.family)
    ensures var used := r.st.grants.refreshUsed[q.key];
            now < used.expires && o.Saved? && !r.fault && !Extinct(Cleanup(r.st, now).grants, used.family) ==> Extinct(t.st.grants, used.family)
    ensures var used := r.st.grants.refreshUsed[q.key];
            used.expires <= now && evs == [] ==> (Extinct(t.st.grants, used.family) <==> Extinct(Cleanup(r.st, now).grants, used.family))
  {
    var used := r.st.grants.refreshUsed[q.key];
    var ev := Serve(now, Rotate(q, f), o);
    assert ([ev] + evs)[0] == ev && ([ev] + evs)[1..] == evs;
    assert Allowed(r, ev) && (r.disk.file.Some? ==> Writable(r.disk.file.value)) && Reaches(base, Next(base, r, ev), evs, t);
    ReplayLeaves(r, now, q, f, o) by { hide Sound, Reaches; }
    if now < used.expires {
      assert used.family in r.drawn by { hide Sound, Reaches, FamilyShares; }
      var left := !Extinct(Cleanup(r.st, now).grants, used.family);
      if left {
        assert TokenLive(r.st.reg, used, now) by { GoodFamily(r.st, now, used); }
        ReplayStep(r, now, q, f, o) by { hide Sound, Reaches, FamilyShares; }
      }
      hide Sound, Reaches, Extinct, Writable, TokenLive, ServeRequest, Replays, Draws, Rotates, FamilyShares, ExtinctOnDisk;
      var n := Next(base, r, ev);
      if forall ev :: ev in evs ==> ev.Serve? {
        ExtinctInProcess(base, n, evs, t, used.family);
      } else if o.Saved? && !r.fault && left {
        NextSound(base, r, ev);
        ExtinctForever(base, n, evs, t, used.family);
      }
    }
  }

  lemma GoodFamily(s: State, now: int, used: Token)
    requires FamilyShares(s.grants, used) && !Extinct(Cleanup(s, now).grants, used.family) && now < used.expires
    ensures TokenLive(s.reg, used, now)
  {
    hide Cleanup, Extinct, FamilyShares, ApprovedClient, Intact;
    if !(ApprovedClient(s.reg, used.client) && Intact(s.reg, used.user, used.resource)) {
      UselessFamily(s, now, used);
    }
  }

  lemma ReplayIsSaved(s: State, cfg: Config, fault: bool, now: int, q: RefreshRequest, f: Fresh, drawn: set<string>)
    requires Rotates(s.grants, drawn) && Replays(s.grants, q) && TokenLive(s.reg, s.grants.refreshUsed[q.key], now)
    ensures var e := Effects(s, cfg, fault, now, Rotate(q, f)); e.Commit? && !e.recovery
  {
    CleanedUsed(s, now, q.key);
    assert q.key !in Cleanup(s, now).grants.refresh by { CleanupShrinks(s.reg, s.grants, now); assert q.key !in s.grants.refresh; }
    hide Cleanup, RevokeFamily, TokenLive, Rotates;
  }

  // --------------------------------------------------------- rotation over runs

  /** Rotation is intact in memory and in every file a start may find. */
  ghost predicate RotatesEverywhere(r: Relay) {
    Rotates(r.st.grants, r.drawn) && RotatesOnDisk(r.disk, r.drawn)
  }

  ghost predicate RotatesOnDisk(d: Disk, drawn: set<string>) {
    forall f :: f in Files(d) && f.Some? ==> Rotates(ImageGrants(f.value), drawn)
  }

  lemma MoreRotates(d: Disk, drawn: set<string>, more: set<string>)
    requires RotatesOnDisk(d, drawn) && drawn <= more
    ensures RotatesOnDisk(d, more)
  {
    hide Rotates, Files;
    forall f | f in Files(d) && f.Some? ensures Rotates(ImageGrants(f.value), more) {
      FewerTokensRotate(ImageGrants(f.value), ImageGrants(f.value), drawn, more);
    }
  }

  lemma SettleRotates(r: Relay, e: Effect, o: SaveOutcome, more: set<string>)
    requires RotatesOnDisk(r.disk, r.drawn) && r.drawn <= more
    requires Rotates(Unsaved(e).grants, more) && (e.Commit? ==> Rotates(e.attempt.grants, more))
    ensures RotatesEverywhere(Settle(r, e, o).(drawn := more))
  {
    hide Files, DiskAfter;
    MoreRotates(r.disk, r.drawn, more) by { hide Rotates; }
    if e.Commit? {
      var saved := ImageOf(if r.fault then Stopped(e.attempt) else e.attempt);
      FewerTokensRotate(ImageGrants(saved), e.attempt.grants, more, more);
      FilesAfter(r.disk, saved, o);
    }
    hide Rotates;
  }

  lemma ServeRotates(r: Relay, now: int, q: Request, o: SaveOutcome)
    requires RotatesEverywhere(r) && Draws(q, r.drawn)
    ensures RotatesEverywhere(ServeRequest(r, now, q, o))
  {
    var e := Effects(r.st, r.cfg, r.fault, now, q);
    hide Rotates, RotatesOnDisk, Effects, Names, Draws, Settle, NewlyCommitted, NewLineage;
    RequestRotates(r.st, r.cfg, r.fault, now, q, Unsaved(e), r.drawn);
    if e.Commit? { RequestRotates(r.st, r.cfg, r.fault, now, q, e.attempt, r.drawn); }
    SettleRotates(r, e, o, r.drawn + Names(q));
  }

  lemma FirstAccountRotates(r: Relay, down: Relay, b: Boot)
    requires RotatesEverywhere(r) && Rotates(down.st.grants, r.drawn) && down.drawn == r.drawn
    ensures RotatesEverywhere(FirstAccount(r, down, b))
  {
    var s := AwaitSetup(r.st, b.setupToken);
    assert s.grants == r.st.grants;
    FirstAccountCases(r, down, b);
    hide Rotates, RotatesOnDisk, CreateUser, Settle, AwaitSetup, FirstAccount;
    if b.owner.Some? && CreateUser(s.reg, b.cfg.ownerUsername, b.owner.value, b.ownerId, true).Some? {
      var reg := CreateUser(s.reg, b.cfg.ownerUsername, b.owner.value, b.ownerId, true).value;
      SettleRotates(r, Commit(s.(reg := reg), s, false), b.second, r.drawn);
      SettleDrawn(r, Commit(s.(reg := reg), s, false), b.second);
    }
  }

  lemma ReadRotates(r: Relay, b: Boot)
    requires RotatesEverywhere(r) && r.disk.file.Some? && UsersAccepted(r.disk.file.value.users)
    ensures RotatesEverywhere(Read(r, b)) && Read(r, b).drawn == r.drawn
  {
    var i := r.disk.file.value;
    assert Rotates(ImageGrants(i), r.drawn) by { assert r.disk.file in Files(r.disk); }
    var s := Cleanup(Loaded(i, b), b.now);
    var begun := r.(up := true, cfg := b.cfg, fault := r.disk.mark.Dirty?, st := s);
    hide UsersAccepted, Cleanup, Loaded, Rotates, RotatesOnDisk, Settle, ImageGrants;
    LoadedParts(i, b);
    CleanedTokensShrink(Loaded(i, b), b.now);
    FewerTokensRotate(s.grants, ImageGrants(i), r.drawn, r.drawn);
    SettleRotates(begun, Commit(s, s, false), b.first, r.drawn);
    SettleDrawn(begun, Commit(s, s, false), b.first);
  }

  lemma StartRotates(base: Origin, r: Relay, b: Boot)
    requires SoundDisk(r.disk, r.drawn) && RotatesEverywhere(r) && (r.disk.file.Some? ==> Writable(r.disk.file.value))
    ensures RotatesEverywhere(Start(base, r, b))
  {
    assert Rotates(Blank(b).grants, r.drawn);
    hide SoundDisk, Rotates, RotatesOnDisk, Start, Read, FirstAccount, Writable, Blank, UsersAccepted;
    StartCases(base, r, b);
    if r.disk.file.None? {
      FirstAccountRotates(r.(up := true, cfg := b.cfg, fault := r.disk.mark.Dirty?, st := Blank(b)), r.(up := false), b);
    } else {
      ReadRotates(r, b);
      FirstAccountRotates(Read(r, b), r.(up := false), b);
    }
  }

  lemma NextRotates(base: Origin, r: Relay, ev: Event)
    requires Sound(r) && RotatesEverywhere(r) && Allowed(r, ev) && (r.disk.file.Some? ==> Writable(r.disk.file.value))
    ensures RotatesEverywhere(Next(base, r, ev))
  {
    hide SoundState, SoundDisk, Rotates, Writable, ServeRequest, Start, WellFormed, Draws, Files, Findable, FileDurable;
    match ev {
      case Serve(now, q, o) => ServeRotates(r, now, q, o);
      case Restart(b) =>
        StartRotates(base, r, b);
        StartDrawn(base, r, b);
        FewerTokensRotate(Start(base, r, b).st.grants, Start(base, r, b).st.grants, r.drawn, r.drawn + {b.ownerId});
        MoreRotates(Start(base, r, b).disk, r.drawn, r.drawn + {b.ownerId});
      case LosePower(x) => LostPowerFiles(r.disk, x);
    }
  }

  /** Over any run that begins with rotation intact, each family has at most one live refresh
      token and no token is both live and used, in memory and in every file a start may find. */
  lemma {:induction false} RunsRotate(base: Origin, r: Relay, evs: seq<Event>, t: Relay)
    requires Sound(r) && RotatesEverywhere(r) && Reaches(base, r, evs, t)
    ensures RotatesEverywhere(t)
    decreases |evs|
  {
    hide Sound, Next, Allowed, Writable, RotatesEverywhere;
    if evs != [] {
      NextSound(base, r, evs[0]);
      NextRotates(base, r, evs[0]);
      RunsRotate(base, Next(base, r, evs[0]), evs[1..], t);
    }
  }

  lemma UnbornRotates()
    ensures RotatesEverywhere(Unborn)
  {
  }
}
