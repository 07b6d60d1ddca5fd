/** The save transaction at the level of system calls, on a disk that may lose or tear
    whatever has not been synced: mark dirty, replace the JSON, mark clean. */
module StateGuard {
  import opened Wrappers
  import opened StateFile
  import opened RelayState
  import opened RelayRequests
  import opened RelayRuns
  import opened RelayFreeze
  import opened Resources

  const CLEAN := "clean\n"
  const DIRTY := "dirty\n"
  const MARK_SIZE := 6

  function MarkOf(text: string): Mark {
    if text == CLEAN then Clean else if text == DIRTY then Dirty else Torn
  }

  /** Guard contents since the last sync, oldest first: the first is durable, the last is
      what a read returns. */
  type Versions = seq<string>

  /** After a power failure each byte of the guard may come from any unsynced version. */
  ghost predicate MayRead(guard: Versions, text: string) {
    |text| == MARK_SIZE && forall p :: 0 <= p < MARK_SIZE ==> exists v :: v in guard && |v| == MARK_SIZE && v[p] == text[p]
  }

  /** Every version is a whole mark's length and ends in a newline. */
  ghost predicate Marks(guard: Versions) {
    |guard| > 0 && forall v :: v in guard ==> |v| == MARK_SIZE && v[5] == '\n'
  }

  /** A moment on the disk. `durable` is the last JSON state whose write became durable;
      `stage` says how far the running transaction is. */
  datatype Stage = Marking | Writing | Cleaning

  datatype Moment = Moment(guard: Versions, file: seq<Option<Image>>, durable: Option<Image>, stage: Stage)

  /** If power fails now and the next start finds a clean guard, the file is exactly the
      last state that became durable. */
  ghost predicate CleanMeansCurrent(m: Moment) {
    forall g, f :: MayRead(m.guard, g) && f in m.file && g == CLEAN ==> f == m.durable
  }

  /** If power fails now, the next start is frozen. */
  ghost predicate OnlyDirty(m: Moment) {
    forall g :: MayRead(m.guard, g) ==> g == DIRTY
  }

  ghost predicate Good(m: Moment) {
    Marks(m.guard) && |m.file| > 0 &&
    ((forall f :: f in m.file ==> f == m.durable) || forall v :: v in m.guard ==> v == DIRTY)
  }

  lemma AllDirty(guard: Versions)
    requires Marks(guard) && forall v :: v in guard ==> v == DIRTY
    ensures forall g :: MayRead(guard, g) ==> g == DIRTY
  {
    forall g | MayRead(guard, g) ensures g == DIRTY {
      assert forall p :: 0 <= p < MARK_SIZE ==> g[p] == DIRTY[p];
    }
  }

  /** Exactly when a start can only find the guard dirty: when every version a power failure
      may bring back, byte by byte, is the dirty mark. */
  lemma OnlyDirtyExactly(guard: Versions)
    requires Marks(guard)
    ensures (forall g :: MayRead(guard, g) ==> g == DIRTY) <==> forall v :: v in guard ==> v == DIRTY
  {
    if forall v :: v in guard ==> v == DIRTY {
      AllDirty(guard);
    } else {
      var v :| v in guard && v != DIRTY;
      LastIsReadable(guard, v);
    }
  }

  lemma GoodIsCurrent(m: Moment)
    requires Good(m)
    ensures CleanMeansCurrent(m)
  {
    if !(forall f :: f in m.file ==> f == m.durable) {
      AllDirty(m.guard);
    }
  }

  /** Bytes 0..n of the mark have reached the cached file. */
  function Overwritten(text: string, mark: string, n: nat): string
    requires |text| == |mark| == MARK_SIZE && n <= MARK_SIZE
  {
    mark[..n] + text[n..]
  }

  // ---------------------------------------------------------- as the runs see it

  function Last<T>(s: seq<T>): T
    requires |s| > 0
  {
    s[|s| - 1]
  }

  /** The disk of `RelayRuns` shows what a start finds now, and allows for everything it may
      find once power has failed. */
  ghost predicate Covers(d: Disk, guard: Versions, file: seq<Option<Image>>) {
    |guard| > 0 && |file| > 0 && d.mark == MarkOf(Last(guard)) && d.file == Last(file) &&
    forall g, f :: MayRead(guard, g) && f in file ==> Reading(MarkOf(g), f) in Findable(d)
  }

  /** A version is always among what may be read. */
  lemma LastIsReadable(guard: Versions, v: string)
    requires Marks(guard) && v in guard
    ensures MayRead(guard, v)
  {
  }

  /** A clean reading of a guard being overwritten with the dirty mark was possible before. */
  lemma CleanWasThere(guard: Versions, last: string, n: nat)
    requires Marks(guard) && last in guard && n <= MARK_SIZE && MayRead(guard + [Overwritten(last, DIRTY, n)], CLEAN)
    ensures MayRead(guard, CLEAN)
  {
    var w := Overwritten(last, DIRTY, n);
    forall p | 0 <= p < MARK_SIZE ensures exists v :: v in guard && |v| == MARK_SIZE && v[p] == CLEAN[p] {
      var v :| v in guard + [w] && |v| == MARK_SIZE && v[p] == CLEAN[p];
      if v !in guard {
        if p == 5 {
          assert last[5] == CLEAN[5];
        } else {
          assert CLEAN[p] != DIRTY[p];
          assert p >= n && w[p] == last[p];
        }
      }
    }
  }

  /** Overwriting anything with the dirty mark shows a clean one only while nothing is written. */
  lemma CleanBeforeWriting(last: string, n: nat)
    requires |last| == MARK_SIZE && n <= MARK_SIZE && Overwritten(last, DIRTY, n) == CLEAN
    ensures last == CLEAN
  {
    assert Overwritten(last, DIRTY, n)[0] == CLEAN[0] != DIRTY[0];
    assert n == 0 && Overwritten(last, DIRTY, 0) == last;
  }

  /** Failing while marking dirty is a `MarkFailed`. */
  lemma MarkingCovered(d: Disk, guard: Versions, file: seq<Option<Image>>, n: nat, i: Image)
    requires Marks(guard) && n <= MARK_SIZE && Covers(d, guard, file)
    ensures var w := Overwritten(Last(guard), DIRTY, n); Covers(DiskAfter(d, i, MarkFailed(MarkOf(w))), guard + [w], file)
  {
    var last, w := Last(guard), Overwritten(Last(guard), DIRTY, n);
    var e := DiskAfter(d, i, MarkFailed(MarkOf(w)));
    if w == CLEAN { CleanBeforeWriting(last, n); }
    forall g, f | MayRead(guard + [w], g) && f in file ensures Reading(MarkOf(g), f) in Findable(e) {
      LastIsReadable(guard, last);
      assert Reading(MarkOf(last), f) in Findable(d);
      if g == CLEAN {
        CleanWasThere(guard, last, n);
      }
    }
  }

  /** Failing between the two marks is a `WriteFailed`, with the file renamed into place or not. */
  lemma WritingCovered(d: Disk, guard: Versions, file: seq<Option<Image>>, i: Image)
    requires Marks(guard) && Covers(d, guard, file)
    ensures Covers(DiskAfter(d, i, WriteFailed(false)), [DIRTY], file)
    ensures Covers(DiskAfter(d, i, WriteFailed(true)), [DIRTY], file + [Some(i)])
  {
    AllDirty([DIRTY]);
    LastIsReadable(guard, Last(guard));
    assert forall f :: f in file ==> Reading(MarkOf(Last(guard)), f) in Findable(d);
    assert Last(file + [Some(i)]) == Some(i);
  }

  /** Once the JSON is durable, anything short of success is a `CleanFailed`. */
  lemma CleaningCovered(d: Disk, i: Image, w: Versions)
    requires |w| > 0
    ensures Covers(DiskAfter(d, i, CleanFailed(MarkOf(Last(w)))), w, [Some(i)])
  {
    forall g, f | MayRead(w, g) && f in [Some(i)] ensures Reading(MarkOf(g), f) in Findable(DiskAfter(d, i, CleanFailed(MarkOf(Last(w))))) {
      assert MarkOf(g).Clean? || MarkOf(g).Dirty? || MarkOf(g).Torn?;
    }
  }

  lemma SavedCovered(d: Disk, i: Image)
    ensures Covers(DiskAfter(d, i, Saved), [CLEAN], [Some(i)])
  {
    forall g | MayRead([CLEAN], g) ensures g == CLEAN {
      assert forall p :: 0 <= p < MARK_SIZE ==> g[p] == CLEAN[p];
    }
  }

  // -------------------------------------------------------- the transaction

  /** What goes wrong in one guard write: how many bytes get through, and whether the
      truncation and the sync succeed. */
  datatype GuardFaults = GuardFaults(written: nat, truncated: bool, synced: bool)

  /** Whether the JSON is prepared and renamed into place, and the directory synced. */
  datatype FileFaults = FileFaults(renamed: bool, synced: bool)

  predicate GuardDone(faults: GuardFaults) {
    faults.written >= MARK_SIZE && faults.truncated && faults.synced
  }

  function Torn1(m: Moment, text: string, faults: GuardFaults, stage: Stage): Moment
    requires Marks(m.guard) && |text| == MARK_SIZE
  {
    m.(guard := m.guard + [Overwritten(Last(m.guard), text, if faults.written < MARK_SIZE then faults.written else MARK_SIZE)], stage := stage)
  }

  /** Every moment of one guard write. */
  function GuardWrite(m: Moment, text: string, faults: GuardFaults, stage: Stage, after: Stage): (trace: seq<Moment>)
    requires Marks(m.guard) && |text| == MARK_SIZE
    ensures |trace| > 0 && (GuardDone(faults) ==> trace[|trace| - 1].guard == [text])
  {
    [Torn1(m, text, faults, stage)] + if GuardDone(faults) then [m.(guard := [text], stage := after)] else []
  }

  /** Every moment of replacing the JSON: the rename is atomic, and durable once the directory is synced. */
  function FileWrite(m: Moment, i: Image, faults: FileFaults): (trace: seq<Moment>)
    ensures |trace| > 0 && trace[|trace| - 1].guard == m.guard
  {
    if !faults.renamed then [m]
    else [m.(file := m.file + [Some(i)])] + if faults.synced then [m.(file := [Some(i)], durable := Some(i))] else []
  }

  /** Every moment of `saveStateTransactionUnlocked`. */
  function Transaction(m: Moment, i: Image, a: GuardFaults, w: FileFaults, b: GuardFaults): (trace: seq<Moment>)
    requires Marks(m.guard)
    ensures |trace| > 0
  {
    var t1 := GuardWrite(m, DIRTY, a, Marking, Writing);
    if !GuardDone(a) then t1
    else
      var t2 := FileWrite(Last(t1), i, w);
      if !w.renamed || !w.synced then t1 + t2 else t1 + t2 + GuardWrite(Last(t2), CLEAN, b, Cleaning, Cleaning)
  }

  predicate Succeeds(a: GuardFaults, w: FileFaults, b: GuardFaults) {
    GuardDone(a) && w.renamed && w.synced && GuardDone(b)
  }

  /** What must hold whenever power may fail. */
  ghost predicate Safe(m: Moment) {
    Good(m) && CleanMeansCurrent(m) && (m.stage.Writing? ==> OnlyDirty(m))
  }

  lemma SafeMoment(m: Moment)
    requires Good(m) && (m.stage.Writing? ==> m.guard == [DIRTY])
    ensures Safe(m)
  {
    GoodIsCurrent(m);
    AllDirty([DIRTY]);
  }

  lemma GuardWriteGood(m: Moment, text: string, faults: GuardFaults, stage: Stage, after: Stage)
    requires Good(m) && (text == DIRTY || (text == CLEAN && m.file == [m.durable]))
    ensures forall k :: k in GuardWrite(m, text, faults, stage, after) ==> Good(k)
  {
    var t := Torn1(m, text, faults, stage);
    var n := if faults.written < MARK_SIZE then faults.written else MARK_SIZE;
    var last := Last(m.guard);
    assert last in m.guard;
    assert t.guard == m.guard + [Overwritten(last, text, n)] && Overwritten(last, text, n)[5] == '\n';
    assert t == Torn1(m, text, faults, stage) && t.file == m.file && t.durable == m.durable;
    if !(forall f :: f in m.file ==> f == m.durable) {
      assert text == DIRTY && last == DIRTY;
      assert Overwritten(DIRTY, DIRTY, n) == DIRTY;
    }
    hide Overwritten;
  }

  /** Crash safety: whenever power fails during the transaction, a clean guard at the next
      start means the file is exactly the last state that became durable, and from the
      durable dirty mark until the clean mark begins every start is frozen. */
  lemma TransactionSafe(m: Moment, i: Image, a: GuardFaults, w: FileFaults, b: GuardFaults)
    requires Good(m)
    ensures forall k :: k in Transaction(m, i, a, w, b) ==> Safe(k)
  {
    var t1 := GuardWrite(m, DIRTY, a, Marking, Writing);
    GuardWriteGood(m, DIRTY, a, Marking, Writing);
    forall k | k in t1 ensures Safe(k) { SafeMoment(k); }
    if GuardDone(a) {
      var m1 := Last(t1);
      var t2 := FileWrite(m1, i, w);
      forall k | k in t2 ensures Safe(k) { SafeMoment(k); }
      if w.renamed && w.synced {
        GuardWriteGood(Last(t2), CLEAN, b, Cleaning, Cleaning);
        forall k | k in GuardWrite(Last(t2), CLEAN, b, Cleaning, Cleaning) ensures Safe(k) { SafeMoment(k); }
      }
    }
  }

  /** How the runs see the way the transaction went. */
  function OutcomeOf(m: Moment, i: Image, a: GuardFaults, w: FileFaults, b: GuardFaults): SaveOutcome
    requires Marks(m.guard)
  {
    var guard := Last(Transaction(m, i, a, w, b)).guard;
    if !GuardDone(a) then MarkFailed(if guard == [] then Torn else MarkOf(Last(guard)))
    else if !w.renamed || !w.synced then WriteFailed(w.renamed)
    else if !GuardDone(b) then CleanFailed(if guard == [] then Torn else MarkOf(Last(guard)))
    else Saved
  }

  /** What a start finds at the moment, now or once power has failed, is what one outcome of a
      save in `RelayRuns` allows. */
  ghost predicate Explained(d: Disk, i: Image, k: Moment) {
    exists o :: Covers(DiskAfter(d, i, o), k.guard, k.file)
  }

  lemma MarkingExplained(d: Disk, m: Moment, i: Image, a: GuardFaults)
    requires Good(m) && Covers(d, m.guard, m.file)
    ensures forall k :: k in GuardWrite(m, DIRTY, a, Marking, Writing) ==> Explained(d, i, k)
  {
    hide MayRead, Covers, Good, DiskAfter;
    GoodMarks(m);
    MarkingCovered(d, m.guard, m.file, if a.written < MARK_SIZE then a.written else MARK_SIZE, i);
    WritingCovered(d, m.guard, m.file, i);
  }

  lemma CleaningExplained(d: Disk, i: Image, k: Moment)
    requires |k.guard| > 0 && k.file == [Some(i)]
    ensures Explained(d, i, k)
  {
    hide MayRead, Covers, DiskAfter;
    CleaningCovered(d, i, k.guard);
  }

  /** Wherever the process is stopped during the transaction, and whether or not power fails
      then or later, what a start finds is what one outcome of a save in `RelayRuns` allows. */
  lemma TransactionExplained(d: Disk, m: Moment, i: Image, a: GuardFaults, w: FileFaults, b: GuardFaults)
    requires Good(m) && Covers(d, m.guard, m.file)
    ensures forall k :: k in Transaction(m, i, a, w, b) ==> exists o :: Covers(DiskAfter(d, i, o), k.guard, k.file)
  {
    hide MayRead, Covers, Good, DiskAfter;
    GoodMarks(m);
    var t1 := GuardWrite(m, DIRTY, a, Marking, Writing);
    forall k | k in Transaction(m, i, a, w, b) ensures Explained(d, i, k) {
      if k in t1 {
        MarkingExplained(d, m, i, a);
      } else if k.file == [Some(i)] && |k.guard| > 0 {
        CleaningExplained(d, i, k);
      } else {
        WritingCovered(d, m.guard, m.file, i);
      }
    }
  }

  /** And where it ends, that outcome is the one the faults say. */
  lemma EndExplained(d: Disk, m: Moment, i: Image, a: GuardFaults, w: FileFaults, b: GuardFaults)
    requires Good(m) && Covers(d, m.guard, m.file)
    ensures Marks(m.guard)
    ensures var end := Last(Transaction(m, i, a, w, b)); Covers(DiskAfter(d, i, OutcomeOf(m, i, a, w, b)), end.guard, end.file)
    ensures OutcomeOf(m, i, a, w, b).Saved? == Succeeds(a, w, b)
  {
    hide MayRead, Covers, Good, DiskAfter, MarkOf, Overwritten;
    GoodMarks(m);
    var end := Last(Transaction(m, i, a, w, b));
    if !GuardDone(a) {
      MarkingCovered(d, m.guard, m.file, if a.written < MARK_SIZE then a.written else MARK_SIZE, i);
    } else if !w.renamed || !w.synced {
      WritingCovered(d, m.guard, m.file, i);
    } else if !GuardDone(b) {
      CleaningCovered(d, i, end.guard);
    } else {
      SavedCovered(d, i);
    }
  }

  lemma GoodMarks(m: Moment)
    requires Good(m)
    ensures Marks(m.guard) && |m.file| > 0
  {
  }

  /** A transaction in which nothing fails ends clean, with exactly the new state durable. */
  lemma TransactionSaves(m: Moment, i: Image, a: GuardFaults, w: FileFaults, b: GuardFaults)
    requires Good(m)
    ensures var end := Last(Transaction(m, i, a, w, b));
            Succeeds(a, w, b) <==> end.guard == [CLEAN] && end.stage.Cleaning?
    ensures var end := Last(Transaction(m, i, a, w, b));
            end.stage.Cleaning? ==> end.file == [Some(i)] && end.durable == Some(i)
  {
  }

  // ------------------------------------------------------------- the disk itself

  /** The state directory as one process uses it. The ghost fields record the disk as the runs
      see it, and every moment at which power could have failed. */
  class StateDisk {
    var guard: Versions
    var file: seq<Option<Image>>
    ghost var durable: Option<Image>
    ghost var stage: Stage
    ghost var disk: Disk
    ghost var trace: seq<Moment>

    ghost function Now(): (m: Moment)
      reads this
    {
      Moment(guard, file, durable, stage)
    }

    /** Every moment so far was safe, and the runs see the disk for what it is. */
    ghost predicate Valid()
      reads this
    {
      Good(Now()) && Covers(disk, guard, file) && forall m :: m in trace ==> Safe(m)
    }

    /** A process on whatever an earlier one left, synced or not. */
    constructor (guard: Versions, file: seq<Option<Image>>, ghost durable: Option<Image>, ghost disk: Disk)
      requires Good(Moment(guard, file, durable, Cleaning)) && Covers(disk, guard, file)
      ensures Valid() && Now() == Moment(guard, file, durable, Cleaning) && this.disk == disk && trace == []
    {
      this.guard := guard;
      this.file := file;
      this.durable := durable;
      stage := Cleaning;
      this.disk := disk;
      trace := [];
    }

    /** `writeStateGuard`: write, truncate, sync. */
    method WriteGuard(text: string, faults: GuardFaults, ghost during: Stage, ghost after: Stage) returns (ok: bool)
      requires Marks(guard) && (text == CLEAN || text == DIRTY)
      modifies this
      ensures disk == old(disk)
      ensures ok == GuardDone(faults)
      ensures trace == old(trace) + GuardWrite(old(Now()), text, faults, during, after)
      ensures Now() == Last(trace)
    {
      var n := if faults.written < MARK_SIZE then faults.written else MARK_SIZE;
      guard := guard + [Overwritten(guard[|guard| - 1], text, n)];
      stage := during;
      trace := trace + [Now()];
      if n < MARK_SIZE {
        return false;
      }
      if !faults.truncated {
        return false;
      }
      if !faults.synced {
        return false;
      }
      guard := [text];
      stage := after;
      trace := trace + [Now()];
      return true;
    }

    /** `saveLockedUnlocked`, from the temporary file to the synced directory. */
    method WriteFile(i: Image, faults: FileFaults) returns (ok: bool)
      modifies this
      ensures disk == old(disk)
      ensures ok == (faults.renamed && faults.synced)
      ensures trace == old(trace) + FileWrite(old(Now()), i, faults)
      ensures Now() == Last(trace)
    {
      if !faults.renamed {
        trace := trace + [Now()];
        return false;
      }
      file := file + [Some(i)];
      trace := trace + [Now()];
      if !faults.synced {
        return false;
      }
      file := [Some(i)];
      durable := Some(i);
      trace := trace + [Now()];
      return true;
    }

    /** `saveStateTransactionUnlocked` */
    method Transact(i: Image, a: GuardFaults, w: FileFaults, b: GuardFaults) returns (ok: bool)
      requires Marks(guard)
      modifies this
      ensures disk == old(disk)
      ensures ok == Succeeds(a, w, b)
      ensures trace == old(trace) + Transaction(old(Now()), i, a, w, b) && Now() == Last(trace)
    {
      hide GuardWrite, FileWrite;
      ok := WriteGuard(DIRTY, a, Marking, Writing);
      if !ok {
        return;
      }
      ok := WriteFile(i, w);
      if !ok {
        return;
      }
      ok := WriteGuard(CLEAN, b, Cleaning, Cleaning);
    }

    /** `saveLocked`: whatever fails and wherever power is lost, the next start finds a clean
        guard only beside the last durable state, and what the runs make of it is exact. */
    method Save(i: Image, a: GuardFaults, w: FileFaults, b: GuardFaults) returns (ok: bool, ghost o: SaveOutcome)
      requires Valid()
      modifies this
      ensures Valid() && disk == DiskAfter(old(disk), i, o)
      ensures ok == Succeeds(a, w, b) == o.Saved?
      ensures ok ==> guard == [CLEAN] && file == [Some(i)] && durable == Some(i)
      ensures trace == old(trace) + Transaction(old(Now()), i, a, w, b)
    {
      ghost var m := Now();
      GoodMarks(m);
      o := OutcomeOf(m, i, a, w, b);
      ok := Transact(i, a, w, b);
      hide Good, Safe, Covers, Transaction, Marks, DiskAfter, OutcomeOf;
      TransactionSafe(m, i, a, w, b);
      EndExplained(disk, m, i, a, w, b);
      TransactionSaves(m, i, a, w, b);
      LastSafe(m, i, a, w, b);
      disk := DiskAfter(disk, i, o);
    }
  }

  lemma LastSafe(m: Moment, i: Image, a: GuardFaults, w: FileFaults, b: GuardFaults)
    requires Good(m)
    ensures Last(Transaction(m, i, a, w, b)) in Transaction(m, i, a, w, b) && Good(Last(Transaction(m, i, a, w, b)))
  {
    GoodMarks(m);
    hide Good, GuardWrite, FileWrite;
    TransactionSafe(m, i, a, w, b);
    assert Safe(Last(Transaction(m, i, a, w, b)));
  }

  // --------------------------------------------------------------------- the gap

  /** A guard all of whose versions are dirty is one whose mark holds. */
  lemma DirtyGuardHolds(d: Disk, guard: Versions, file: seq<Option<Image>>)
    requires Marks(guard) && (forall v :: v in guard ==> v == DIRTY) && Covers(d, guard, file)
    ensures exists e :: Covers(e, guard, file) && e.mark == d.mark && e.file == d.file && e.lapses <= d.lapses && MarkHolds(e)
  {
    AllDirty(guard);
    assert Last(guard) in guard;
    var e := d.(lapses := set x | x in d.lapses && x.mark.Dirty?);
    assert Covers(e, guard, file) && MarkHolds(e);
  }

  /** The one gap. When everything of the dirty mark but its sync succeeds, a start finds it,
      and a power failure after that start may still bring back the clean mark beside the
      file as it was. */
  lemma UnsyncedMarkCanVanish(d: Disk, m: Moment, i: Image, w: FileFaults, b: GuardFaults)
    requires Good(m) && m.guard == [CLEAN] && Covers(d, m.guard, m.file)
    ensures var k := Last(Transaction(m, i, GuardFaults(MARK_SIZE, true, false), w, b));
            k.guard == [CLEAN, DIRTY] && k.file == m.file && MayRead(k.guard, DIRTY) && MayRead(k.guard, CLEAN) &&
            OutcomeOf(m, i, GuardFaults(MARK_SIZE, true, false), w, b) == MarkFailed(Dirty)
    ensures var e := DiskAfter(d, i, MarkFailed(Dirty));
            Covers(e, [CLEAN, DIRTY], m.file) && e.mark.Dirty? && forall f :: f in m.file ==> Reading(Clean, f) in e.lapses
  {
    assert Overwritten(CLEAN, DIRTY, MARK_SIZE) == DIRTY;
    LastIsReadable([CLEAN, DIRTY], DIRTY);
    LastIsReadable([CLEAN, DIRTY], CLEAN);
    LastIsReadable([CLEAN], CLEAN);
    MarkingCovered(d, [CLEAN], m.file, MARK_SIZE, i);
    assert [CLEAN] + [DIRTY] == [CLEAN, DIRTY];
  }

  /** What it costs: a process whose save ends that way is followed by one that serves nobody
      and, if power fails under it, by one that serves a credential again, with no release between. */
  lemma UnsyncedMarkReopens(base: Origin, r: Relay, m: Moment, i: Image, now: int, w: FileFaults, g: GuardFaults,
                            a: Boot, b: Boot, key: string, resource: Resource, kind: Kind)
    requires Sound(r) && r.up && !r.fault && Good(m) && m.guard == [CLEAN] && m.file == [Some(i)] && Covers(r.disk, m.guard, m.file)
    requires Allowed(r, Restart(a)) && b.ownerId != "" && b.ownerId !in r.drawn + {a.ownerId} && Works(i, b, key, resource, kind)
    ensures var o := OutcomeOf(m, ImageOf(r.st), GuardFaults(MARK_SIZE, true, false), w, g);
            exists t :: Reaches(base, r, [Serve(now, Audit, o), Restart(a), LosePower(Reading(Clean, Some(i))), Restart(b)], t) &&
                        Unreleased(base, r, [Serve(now, Audit, o), Restart(a), LosePower(Reading(Clean, Some(i))), Restart(b)]) && !Closed(t)
  {
    UnsyncedMarkCanVanish(r.disk, m, ImageOf(r.st), w, g);
    assert r.disk.mark.Clean? && r.disk.file == Some(i);
    hide *;
    FailedMarkReopens(base, r, i, now, a, b, key, resource, kind);
  }

  // -------------------------------------------------------------- the first mark

  /** What `openStateGuard` makes of the guard's contents: an empty or missing guard is given a
      clean mark, and contents that are no mark are refused. */
  function Opened(text: string): Mark {
    if text == "" then Clean else MarkOf(text)
  }

  /** While the first mark is being written, `n` bytes of it so far, a power failure may leave any
      shorter guard, or none, with zeros for bytes that were not written out. */
  ghost predicate FirstMayRead(n: nat, text: string) {
    n <= MARK_SIZE && |text| <= n && forall p :: 0 <= p < |text| ==> text[p] == CLEAN[p] || text[p] == '\0'
  }

  /** Wherever the first start is stopped in it, the next start finds a clean guard or refuses to
      run, whatever the state file is: the runs may begin from a disk that says so. */
  lemma FirstMarkExplained(file: Option<Image>, n: nat, text: string)
    requires FirstMayRead(n, text)
    ensures Reading(Opened(text), file) in Findable(Disk(Clean, file, {Reading(Torn, file)}))
    ensures Opened(text).Clean? <==> text == "" || text == CLEAN
  {
    assert |text| > 0 ==> text[0] != DIRTY[0];
  }

  /** Such a first disk is a sound beginning for a run. */
  lemma FirstDiskIsSound()
    ensures Sound(Unborn.(disk := Disk(Clean, None, {Reading(Torn, None)})))
  {
    UnbornIsSound();
    hide SoundState, SoundImage;
    assert Files(Disk(Clean, None, {Reading(Torn, None)})) == {None};
  }
}
