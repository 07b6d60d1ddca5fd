/** A task manager and its emergency kill switch, as steps of concurrent calls: slots
    are never lost, and a kill switch that stays on reaches every process. */
module Tasks {
  import opened Wrappers

  /** How far a `Start` call is. A call holds a slot from `Slotted` until its waiter takes
      the slot over at `Launched`, or until it gives up. */
  datatype Stage =
    | Entered
    | Slotted
    | Ready
    | Spawned(pid: nat)
    | Verified(pid: nat)
    | Recorded(pid: nat)
    | Launched(pid: nat)
    | Returned

  /** A call, and whether its context has been cancelled. */
  datatype Call = Call(stage: Stage, cancelled: bool)

  datatype Process = Process(signalled: bool, exited: bool)

  /** A look at the kill-switch file, from what it has seen to the `StopAll` it may begin: what
      it saw has not been reported yet; it is about to take the list of tasks; it has yet to
      signal the rest of that list. */
  datatype Stop = Seen(on: bool) | Begun | Running(remaining: set<nat>)

  datatype System = System(file: bool, latched: bool, limit: nat, slots: nat, calls: map<nat, Call>, tasks: set<nat>,
                           waiters: set<nat>, processes: map<nat, Process>, stops: map<nat, Stop>)

  datatype Step =
    | TouchFile(on: bool)
    | Enter(call: nat)
    | Cancel(call: nat)
    | TakeSlot(call: nat)
    | PassCheck(call: nat)
    | Fail(call: nat)
    | Spawn(call: nat, pid: nat)
    | Verify(call: nat)
    | Record(call: nat)
    | Launch(call: nat)
    | FinalCheck(call: nat)
    | Exit(pid: nat)
    | Reap(pid: nat)
    | Look(stop: nat)
    | Latch(stop: nat)
    | List(stop: nat)
    | EndSession(stop: nat)
    | Signal(stop: nat, pid: nat)

  predicate Holds(stage: Stage) {
    stage.Slotted? || stage.Ready? || stage.Spawned? || stage.Verified? || stage.Recorded?
  }

  predicate At(w: System, c: nat) {
    c in w.calls
  }

  /** What `checkContext` decides. When it sees the file it also reports it, as a `Look` that is latched does. */
  predicate Stopped(w: System, c: nat)
    requires At(w, c)
  {
    w.calls[c].cancelled || w.file
  }

  predicate Enabled(w: System, step: Step) {
    match step
    case TouchFile(_) => true
    case Enter(c) => c !in w.calls && !w.latched
    case Cancel(c) => At(w, c)
    case TakeSlot(c) => At(w, c) && w.calls[c].stage.Entered?
    case PassCheck(c) => At(w, c) && w.calls[c].stage.Slotted?
    case Fail(c) => At(w, c) && (w.calls[c].stage.Entered? || w.calls[c].stage.Slotted? || w.calls[c].stage.Ready?)
    case Spawn(c, pid) => At(w, c) && w.calls[c].stage.Ready? && pid !in w.processes
    case Verify(c) => At(w, c) && w.calls[c].stage.Spawned?
    case Record(c) => At(w, c) && w.calls[c].stage.Verified?
    case Launch(c) => At(w, c) && w.calls[c].stage.Recorded?
    case FinalCheck(c) => At(w, c) && w.calls[c].stage.Launched?
    case Exit(pid) => pid in w.processes && !w.processes[pid].exited
    case Reap(pid) => pid in w.waiters && pid in w.processes && w.processes[pid].exited
    case Look(k) => k !in w.stops
    case Latch(k) => k in w.stops && w.stops[k].Seen?
    case List(k) => k in w.stops && w.stops[k].Begun?
    case EndSession(k) => k !in w.stops
    case Signal(k, pid) => k in w.stops && pid in Left(w.stops[k])
  }

  /** The processes the stop has yet to signal. */
  function Left(stop: Stop): set<nat> {
    if stop.Running? then stop.remaining else {}
  }

  function Go(w: System, c: nat, stage: Stage): System
    requires At(w, c)
  {
    w.(calls := w.calls[c := w.calls[c].(stage := stage)])
  }

  function Kill(w: System, pid: nat): System {
    if pid in w.processes then w.(processes := w.processes[pid := w.processes[pid].(signalled := true)]) else w
  }

  function Release(w: System): System {
    w.(slots := if w.slots == 0 then 0 else w.slots - 1)
  }

  function Next(w: System, step: Step): System
    requires Enabled(w, step)
  {
    match step
    case TouchFile(on) => w.(file := on)
    case Enter(c) => w.(calls := w.calls[c := Call(Entered, false)])
    case Cancel(c) => w.(calls := w.calls[c := w.calls[c].(cancelled := true)])
    case TakeSlot(c) =>
      if Stopped(w, c) || w.slots >= w.limit then Go(w, c, Returned) else Go(w, c, Slotted).(slots := w.slots + 1)
    case PassCheck(c) => if Stopped(w, c) then Release(Go(w, c, Returned)) else Go(w, c, Ready)
    case Fail(c) => if w.calls[c].stage.Entered? then Go(w, c, Returned) else Release(Go(w, c, Returned))
    case Spawn(c, pid) => Go(w, c, Spawned(pid)).(processes := w.processes[pid := Process(false, false)])
    case Verify(c) =>
      var pid := w.calls[c].stage.pid;
      if Stopped(w, c) then Release(Kill(Go(w, c, Returned), pid)) else Go(w, c, Verified(pid))
    case Record(c) => Go(w, c, Recorded(w.calls[c].stage.pid)).(tasks := w.tasks + {w.calls[c].stage.pid})
    case Launch(c) => Go(w, c, Launched(w.calls[c].stage.pid)).(waiters := w.waiters + {w.calls[c].stage.pid})
    case FinalCheck(c) => if Stopped(w, c) then Kill(Go(w, c, Returned), w.calls[c].stage.pid) else Go(w, c, Returned)
    case Exit(pid) => w.(processes := w.processes[pid := w.processes[pid].(exited := true)])
    case Reap(pid) => Release(w.(waiters := w.waiters - {pid}, tasks := w.tasks - {pid}))
    case Look(k) => w.(stops := w.stops[k := Seen(w.file)])
    case Latch(k) =>
      if w.stops[k].on == w.latched then w.(stops := w.stops[k := Running({})])
      else w.(latched := w.stops[k].on, stops := w.stops[k := if w.stops[k].on then Begun else Running({})])
    case List(k) => w.(stops := w.stops[k := Running(w.tasks)])
    case EndSession(k) => w.(stops := w.stops[k := Begun])
    case Signal(k, pid) => Kill(w, pid).(stops := w.stops[k := Running(Left(w.stops[k]) - {pid})])
  }

  // -------------------------------------------------------------------- slots

  function Holders(w: System): set<nat> {
    set c | c in w.calls && Holds(w.calls[c].stage)
  }

  predicate HasPid(stage: Stage) {
    stage.Spawned? || stage.Verified? || stage.Recorded? || stage.Launched?
  }

  predicate Has(w: System, c: nat, pid: nat) {
    c in w.calls && HasPid(w.calls[c].stage) && w.calls[c].stage.pid == pid
  }

  /** No two calls have the same process, and a process whose slot its call still holds has no waiter. */
  ghost predicate Distinct(w: System) {
    (forall c, pid :: Has(w, c, pid) ==> pid in w.processes && (Holds(w.calls[c].stage) ==> pid !in w.waiters)) &&
    (forall c, d, pid :: Has(w, c, pid) && Has(w, d, pid) ==> c == d) && w.waiters <= w.processes.Keys
  }

  /** Used slots are exactly the calls holding one and those tasks that are not yet reaped. */
  ghost predicate SlotsCounted(w: System) {
    w.slots == |Holders(w)| + |w.waiters| <= w.limit
  }

  lemma HadBefore(w: System, step: Step, c: nat, pid: nat)
    requires Enabled(w, step) && Has(Next(w, step), c, pid)
    ensures step == Spawn(c, pid) ||
            (Has(w, c, pid) && (Holds(Next(w, step).calls[c].stage) ==> Holds(w.calls[c].stage) && step != Launch(c)))
  {
  }

  lemma WaitersBefore(w: System, step: Step, pid: nat)
    requires Enabled(w, step) && pid in Next(w, step).waiters && pid !in w.waiters
    ensures step.Launch? && Has(w, step.call, pid)
  {
  }

  lemma ProcessesStay(w: System, step: Step)
    requires Enabled(w, step)
    ensures w.processes.Keys <= Next(w, step).processes.Keys
  {
  }

  lemma StepDistinct(w: System, step: Step)
    requires Distinct(w) && Enabled(w, step)
    ensures Distinct(Next(w, step))
  {
    var n := Next(w, step);
    ProcessesStay(w, step);
    forall c, pid | Has(n, c, pid) ensures pid in n.processes && (Holds(n.calls[c].stage) ==> pid !in n.waiters) {
      HadBefore(w, step, c, pid);
      if pid in n.waiters && pid !in w.waiters {
        WaitersBefore(w, step, pid);
      }
    }
    forall c, d, pid | Has(n, c, pid) && Has(n, d, pid) ensures c == d {
      HadBefore(w, step, c, pid);
      HadBefore(w, step, d, pid);
    }
    forall pid | pid in n.waiters ensures pid in n.processes {
      if pid !in w.waiters {
        WaitersBefore(w, step, pid);
      }
    }
  }

  /** How a step changes the number of slots, the calls that hold one, and the waiters. */
  lemma StepCounts(w: System, step: Step)
    requires Distinct(w) && Enabled(w, step)
    ensures var n := Next(w, step);
            n.limit == w.limit &&
            if step.TakeSlot? && Holds(n.calls[step.call].stage) then
              n.slots == w.slots + 1 <= w.limit && Holders(n) == Holders(w) + {step.call} && step.call !in Holders(w) && n.waiters == w.waiters
            else if Gives(w, step) then
              n.slots == Less(w.slots) && Holders(n) == Holders(w) - {step.call} && step.call in Holders(w) && n.waiters == w.waiters
            else if step.Launch? then
              n.slots == w.slots && Holders(n) == Holders(w) - {step.call} && step.call in Holders(w) &&
              n.waiters == w.waiters + {w.calls[step.call].stage.pid} && w.calls[step.call].stage.pid !in w.waiters
            else if step.Reap? then
              n.slots == Less(w.slots) && Holders(n) == Holders(w) && n.waiters == w.waiters - {step.pid}
            else n.slots == w.slots && Holders(n) == Holders(w) && n.waiters == w.waiters
  {
    if step.Launch? {
      assert Has(w, step.call, w.calls[step.call].stage.pid);
    }
    hide Distinct;
    StepHolders(w, step);
    hide Holders;
    if step.TakeSlot? || step.PassCheck? || step.Verify? || step.Fail? {
      SlotCounts(w, step);
    } else {
      OtherCounts(w, step);
    }
    hide Next, Enabled;
  }

  lemma SlotCounts(w: System, step: Step)
    requires Enabled(w, step) && (step.TakeSlot? || step.PassCheck? || step.Verify? || step.Fail?)
    ensures var n := Next(w, step);
            n.limit == w.limit && n.waiters == w.waiters && step.call in n.calls &&
            if step.TakeSlot? && Holds(n.calls[step.call].stage) then n.slots == w.slots + 1 <= w.limit && !Holds(w.calls[step.call].stage)
            else if Gives(w, step) then n.slots == Less(w.slots) && Holds(w.calls[step.call].stage) && !Holds(n.calls[step.call].stage)
            else n.slots == w.slots && Holds(n.calls[step.call].stage) == Holds(w.calls[step.call].stage)
  {
  }

  lemma OtherCounts(w: System, step: Step)
    requires Enabled(w, step) && !step.TakeSlot? && !step.PassCheck? && !step.Verify? && !step.Fail?
    ensures var n := Next(w, step);
            n.limit == w.limit && !Gives(w, step) && n.slots == (if step.Reap? then Less(w.slots) else w.slots) &&
            (CallOf(step).Some? && !step.Launch? ==>
               (CallOf(step).value in n.calls &&
                Holds(n.calls[CallOf(step).value].stage) == (CallOf(step).value in w.calls && Holds(w.calls[CallOf(step).value].stage)))) &&
            if step.Launch? then
              Holds(w.calls[step.call].stage) && !Holds(n.calls[step.call].stage) && n.waiters == w.waiters + {w.calls[step.call].stage.pid}
            else if step.Reap? then n.waiters == w.waiters - {step.pid}
            else n.waiters == w.waiters
  {
  }

  function Less(n: nat): nat {
    if n == 0 then 0 else n - 1
  }

  /** Whether the step has to do with a call's stage, and which call. */
  function CallOf(step: Step): Option<nat> {
    match step
    case Enter(c) => Some(c)
    case TakeSlot(c) => Some(c)
    case PassCheck(c) => Some(c)
    case Fail(c) => Some(c)
    case Spawn(c, _) => Some(c)
    case Verify(c) => Some(c)
    case Record(c) => Some(c)
    case Launch(c) => Some(c)
    case FinalCheck(c) => Some(c)
    case _ => None
  }

  /** A step that has to do with a call replaces that call only. */
  lemma OwnCallOnly(w: System, step: Step)
    requires Enabled(w, step) && CallOf(step).Some?
    ensures var c := CallOf(step).value; c in Next(w, step).calls && Next(w, step).calls == w.calls[c := Next(w, step).calls[c]]
  {
  }

  /** A step changes the stage of its own call only. */
  lemma StagesStay(w: System, step: Step, c: nat)
    requires Enabled(w, step) && CallOf(step) != Some(c)
    ensures c in Next(w, step).calls <==> c in w.calls
    ensures c in w.calls ==> Next(w, step).calls[c].stage == w.calls[c].stage
  {
    if CallOf(step).Some? {
      OwnCallOnly(w, step);
      hide Next, Enabled, CallOf;
    }
  }

  lemma StepHolders(w: System, step: Step)
    requires Enabled(w, step)
    ensures var n := Next(w, step);
            match CallOf(step)
            case None => Holders(n) == Holders(w)
            case Some(c) => c in n.calls && Holders(n) == if Holds(n.calls[c].stage) then Holders(w) + {c} else Holders(w) - {c}
  {
    var n := Next(w, step);
    assert CallOf(step).Some? ==> CallOf(step).value in n.calls;
    forall c: nat | CallOf(step) != Some(c) ensures c in Holders(n) <==> c in Holders(w) {
      StagesStay(w, step, c);
      hide Next, Enabled;
    }
    hide Next, Enabled;
  }

  /** The step is a call giving up its slot. */
  predicate Gives(w: System, step: Step)
    requires Enabled(w, step)
  {
    (step.PassCheck? && Stopped(w, step.call)) || (step.Verify? && Stopped(w, step.call)) ||
    (step.Fail? && !w.calls[step.call].stage.Entered?)
  }

  /** No step loses a slot or uses one too many. */
  lemma StepSlots(w: System, step: Step)
    requires Distinct(w) && SlotsCounted(w) && Enabled(w, step)
    ensures SlotsCounted(Next(w, step))
  {
    StepCounts(w, step);
    hide Holders, Next, Distinct;
  }

  // -------------------------------------------------------------------- killing

  predicate Live(w: System, pid: nat) {
    pid in w.processes && !w.processes[pid].signalled && !w.processes[pid].exited
  }

  /** Some call has started the process and will still check the kill switch. */
  ghost predicate InHand(w: System, pid: nat) {
    exists c :: Has(w, c, pid)
  }

  /** Every process that is neither signalled nor gone is in some call's hands or listed as a running task. */
  ghost predicate Accounted(w: System) {
    forall pid :: Live(w, pid) ==> InHand(w, pid) || pid in w.tasks
  }

  /** A process is on the list before its call lets go of it. */
  ghost predicate Listed(w: System) {
    forall c, pid :: Has(w, c, pid) && (w.calls[c].stage.Recorded? || w.calls[c].stage.Launched?) && Live(w, pid) ==> pid in w.tasks
  }

  ghost predicate Sound(w: System) {
    Distinct(w) && SlotsCounted(w) && Accounted(w) && Listed(w)
  }

  lemma LiveBefore(w: System, step: Step, pid: nat)
    requires Enabled(w, step) && Live(Next(w, step), pid)
    ensures Live(w, pid) || (step.Spawn? && step.pid == pid)
  {
  }

  /** A call lets go of a live process only at its last check, and only if the kill switch is off and its context live. */
  lemma StillInHand(w: System, step: Step, c: nat, pid: nat)
    requires Enabled(w, step) && Has(w, c, pid) && Live(Next(w, step), pid)
    ensures Has(Next(w, step), c, pid) || (step == FinalCheck(c) && w.calls[c].stage.Launched? && !w.file)
  {
  }

  lemma StillListed(w: System, step: Step, pid: nat)
    requires Enabled(w, step) && pid in w.tasks && Live(Next(w, step), pid)
    ensures pid in Next(w, step).tasks
  {
  }

  lemma StepAccounted(w: System, step: Step)
    requires Accounted(w) && Listed(w) && Enabled(w, step)
    ensures Accounted(Next(w, step))
  {
    var n := Next(w, step);
    forall pid | Live(n, pid) ensures InHand(n, pid) || pid in n.tasks {
      LiveBefore(w, step, pid);
      if step.Spawn? && step.pid == pid {
        assert Has(n, step.call, pid);
      } else if pid in w.tasks {
        StillListed(w, step, pid);
      } else {
        var c :| Has(w, c, pid);
        StillInHand(w, step, c, pid);
      }
    }
  }

  lemma RecordedBefore(w: System, step: Step, c: nat, pid: nat)
    requires Enabled(w, step) && Has(Next(w, step), c, pid)
    requires Next(w, step).calls[c].stage.Recorded? || Next(w, step).calls[c].stage.Launched?
    ensures Has(w, c, pid) && (w.calls[c].stage.Recorded? || w.calls[c].stage.Launched? || pid in Next(w, step).tasks)
  {
    if CallOf(step) == Some(c) {
      assert step.Record? || step.Launch?;
    } else {
      StagesStay(w, step, c);
      hide Next, Enabled;
    }
  }

  lemma StepListed(w: System, step: Step)
    requires Distinct(w) && Listed(w) && Enabled(w, step)
    ensures Listed(Next(w, step))
  {
    var n := Next(w, step);
    forall c, pid | Has(n, c, pid) && (n.calls[c].stage.Recorded? || n.calls[c].stage.Launched?) && Live(n, pid) ensures pid in n.tasks {
      RecordedBefore(w, step, c, pid);
      LiveBefore(w, step, pid);
      if pid in w.tasks {
        StillListed(w, step, pid);
      }
    }
  }

  lemma StepSound(w: System, step: Step)
    requires Sound(w) && Enabled(w, step)
    ensures Sound(Next(w, step))
  {
    StepDistinct(w, step);
    StepSlots(w, step);
    StepAccounted(w, step);
    StepListed(w, step);
  }

  ghost predicate Runs(w: System, steps: seq<Step>, t: System)
    decreases |steps|
  {
    if steps == [] then w == t else Enabled(w, steps[0]) && Runs(Next(w, steps[0]), steps[1..], t)
  }

  ghost predicate Initial(w: System) {
    w.calls == map[] && w.tasks == {} && w.waiters == {} && w.processes == map[] && w.stops == map[] && w.slots == 0 && !w.latched
  }

  lemma InitialIsSound(w: System)
    requires Initial(w)
    ensures Sound(w)
  {
    assert Holders(w) == {};
  }

  /** Slots over any run: those in use are exactly the calls holding one and those tasks not
      yet reaped, and never more than the limit. */
  lemma {:induction false} RunsAreSound(w: System, steps: seq<Step>, t: System)
    requires Sound(w) && Runs(w, steps, t)
    ensures Sound(t) && t.limit == w.limit && t.slots == |Holders(t)| + |t.waiters| <= t.limit
    decreases |steps|
  {
    hide Sound, Next, Enabled;
    if steps != [] {
      StepSound(w, steps[0]);
      StepLimit(w, steps[0]);
      RunsAreSound(Next(w, steps[0]), steps[1..], t);
    } else {
      assert SlotsCounted(t) by { SoundCounts(t); }
    }
  }

  lemma SoundCounts(w: System)
    requires Sound(w)
    ensures SlotsCounted(w)
  {
  }

  lemma StepLimit(w: System, step: Step)
    requires Enabled(w, step)
    ensures Next(w, step).limit == w.limit
  {
  }

  /** The kill switch stays on from here to the end of the steps. */
  predicate StaysOn(steps: seq<Step>) {
    forall k :: 0 <= k < |steps| ==> steps[k] != TouchFile(false)
  }

  /** With the kill switch on, what the running stop has not yet reached is in some call's hands. */
  ghost predicate Closing(w: System, k: nat) {
    w.file && k in w.stops && forall pid :: Live(w, pid) ==> InHand(w, pid) || pid in Left(w.stops[k])
  }

  lemma StopsStay(w: System, step: Step, k: nat, pid: nat)
    requires Enabled(w, step) && k in w.stops && pid in Left(w.stops[k]) && Live(Next(w, step), pid)
    ensures k in Next(w, step).stops && pid in Next(w, step).stops[k].remaining
  {
  }

  lemma StepClosing(w: System, step: Step, k: nat)
    requires Closing(w, k) && Enabled(w, step) && step != TouchFile(false)
    ensures Closing(Next(w, step), k)
  {
    var n := Next(w, step);
    assert n.file && k in n.stops;
    forall pid | Live(n, pid) ensures InHand(n, pid) || pid in Left(n.stops[k]) {
      LiveBefore(w, step, pid);
      if step.Spawn? && step.pid == pid {
        assert Has(n, step.call, pid);
      } else if pid in Left(w.stops[k]) {
        StopsStay(w, step, k, pid);
      } else {
        var c :| Has(w, c, pid);
        StillInHand(w, step, c, pid);
      }
    }
  }

  lemma {:induction false} StaysClosing(w: System, steps: seq<Step>, t: System, k: nat)
    requires Closing(w, k) && Runs(w, steps, t) && StaysOn(steps)
    ensures Closing(t, k)
    decreases |steps|
  {
    hide Closing, Next, Enabled;
    if steps != [] {
      StepClosing(w, steps[0], k);
      StaysClosing(Next(w, steps[0]), steps[1..], t, k);
    }
  }

  /** A stop begun while the kill switch is on starts with everything that is not in some call's hands. */
  lemma BeginsClosing(w: System, begin: Step)
    requires Accounted(w) && w.file && begin.List? && Enabled(w, begin)
    ensures Closing(Next(w, begin), begin.stop)
  {
    var n := Next(w, begin);
    forall pid | Live(n, pid) ensures InHand(n, pid) || pid in Left(n.stops[begin.stop]) {
      assert Live(w, pid);
      if pid !in w.tasks {
        var c :| Has(w, c, pid);
        assert Has(n, c, pid);
      }
    }
  }

  lemma NotInHand(w: System, pid: nat)
    requires forall c :: c in w.calls ==> w.calls[c].stage.Returned?
    ensures !InHand(w, pid)
  {
  }

  /** The kill switch is complete: if the file is there and stays, then once a `StopAll`
      that took its list after the file appeared has run and every `Start` has returned, every
      process ever started has been signalled or is gone, whatever the interleaving. */
  lemma KillIsComplete(w: System, begin: Step, steps: seq<Step>, t: System)
    requires Sound(w) && w.file && begin.List? && Enabled(w, begin)
    requires Runs(Next(w, begin), steps, t) && StaysOn(steps)
    requires begin.stop in t.stops ==> Left(t.stops[begin.stop]) == {}
    requires forall c :: c in t.calls ==> t.calls[c].stage.Returned?
    ensures forall pid :: pid in t.processes ==> t.processes[pid].signalled || t.processes[pid].exited
  {
    assert Accounted(w) by { hide Distinct, SlotsCounted, Listed; }
    hide Sound, Runs, Accounted;
    BeginsClosing(w, begin);
    StaysClosing(Next(w, begin), steps, t, begin.stop);
    forall pid | pid in t.processes ensures t.processes[pid].signalled || t.processes[pid].exited {
      NotInHand(t, pid);
    }
  }

  /** When the file appears after the switch was off, the first look that reports it begins such
      a stop, whatever has happened since it looked. */
  lemma FirstLookStops(w: System, k: nat)
    requires !w.latched && k in w.stops && w.stops[k] == Seen(true)
    ensures Enabled(w, Latch(k)) && Next(w, Latch(k)).latched && Enabled(Next(w, Latch(k)), List(k))
    ensures Next(Next(w, Latch(k)), List(k)).stops[k] == Running(w.tasks)
  {
  }

  // ---------------------------------------------------------- exactly how far

  /** Something already under way will reach the process: its own call, or a running stop. */
  ghost predicate Reached(w: System, pid: nat) {
    InHand(w, pid) || exists k :: k in w.stops && pid in Left(w.stops[k])
  }

  /** A look that will begin a stop, or let a later one do so: it is about to take its list, or
      to report that the file was not there. */
  predicate Pending(stop: Stop) {
    stop.Begun? || stop == Seen(false)
  }

  /** A stop is about to begin, or the next look begins one, or everything that runs will be
      reached without one. */
  ghost predicate Guarded(w: System) {
    !w.latched || (exists k :: k in w.stops && Pending(w.stops[k])) || forall pid :: Live(w, pid) ==> Reached(w, pid)
  }

  lemma StepReached(w: System, step: Step, pid: nat)
    requires w.file && Enabled(w, step) && step != TouchFile(false) && Live(Next(w, step), pid) && Live(w, pid) && Reached(w, pid)
    ensures Reached(Next(w, step), pid)
  {
    if k :| k in w.stops && pid in Left(w.stops[k]) {
      StopsStay(w, step, k, pid);
    } else {
      var c :| Has(w, c, pid);
      StillInHand(w, step, c, pid);
    }
  }

  /** A pending look stays one until it does what it is about to do. */
  lemma StillPending(w: System, step: Step, k: nat)
    requires Enabled(w, step) && k in w.stops && Pending(w.stops[k])
    ensures (k in Next(w, step).stops && Pending(Next(w, step).stops[k])) || step == List(k) || (step == Latch(k) && !Next(w, step).latched)
  {
  }

  lemma StepGuarded(w: System, step: Step)
    requires Sound(w) && w.file && Guarded(w) && Enabled(w, step) && step != TouchFile(false)
    ensures Next(w, step).file && Guarded(Next(w, step))
  {
    assert Accounted(w) by { hide Distinct, SlotsCounted, Listed, Guarded; }
    hide Sound, Accounted;
    var n := Next(w, step);
    if !w.latched {
      assert !n.latched || (step.Latch? && n.stops[step.stop].Begun?);
    } else if k :| k in w.stops && Pending(w.stops[k]) {
      StillPending(w, step, k);
      if step == List(k) {
        BeginsClosing(w, step);
      }
    } else {
      forall pid | Live(n, pid) ensures Reached(n, pid) {
        LiveBefore(w, step, pid);
        if step.Spawn? && step.pid == pid {
          assert Has(n, step.call, pid);
        } else {
          StepReached(w, step, pid);
        }
      }
    }
  }

  lemma {:induction false} StaysGuarded(w: System, steps: seq<Step>, t: System)
    requires Sound(w) && w.file && Guarded(w) && Runs(w, steps, t) && StaysOn(steps)
    ensures t.file && Guarded(t)
    decreases |steps|
  {
    hide Sound, Guarded, Next, Enabled;
    if steps != [] {
      StepGuarded(w, steps[0]);
      StepSound(w, steps[0]);
      StaysGuarded(Next(w, steps[0]), steps[1..], t);
    }
  }

  /** Nothing is under way any more: every `Start` has returned, every stop has run, and the file has been seen and reported. */
  predicate Quiet(t: System) {
    t.latched && (forall c :: c in t.calls ==> t.calls[c].stage.Returned?) &&
    forall k :: k in t.stops ==> Left(t.stops[k]) == {} && !Pending(t.stops[k])
  }

  /** From a guarded state with the file there to stay, everything is signalled or gone once nothing is under way. */
  lemma GuardedIsComplete(w: System, steps: seq<Step>, t: System)
    requires Sound(w) && w.file && Guarded(w) && Runs(w, steps, t) && StaysOn(steps) && Quiet(t)
    ensures forall pid :: pid in t.processes ==> t.processes[pid].signalled || t.processes[pid].exited
  {
    StaysGuarded(w, steps, t);
    hide Sound, Runs, Guarded, Reached;
    forall pid | pid in t.processes ensures t.processes[pid].signalled || t.processes[pid].exited {
      QuietReachesNone(t, pid);
      if Live(t, pid) {
        LiveIsReached(t, pid);
      }
    }
  }

  lemma QuietReachesNone(t: System, pid: nat)
    requires Quiet(t)
    ensures !Reached(t, pid)
  {
    NotInHand(t, pid);
  }

  lemma LiveIsReached(t: System, pid: nat)
    requires Guarded(t) && t.latched && (forall k :: k in t.stops ==> !Pending(t.stops[k])) && Live(t, pid)
    ensures Reached(t, pid)
  {
  }

  /** Nothing will reach the process, and no look will begin a stop. */
  ghost predicate Lost(w: System, pid: nat) {
    w.file && w.latched && (forall k :: k in w.stops ==> !Pending(w.stops[k])) &&
    pid in w.processes && !w.processes[pid].signalled && !Reached(w, pid)
  }

  lemma StepLost(w: System, step: Step, pid: nat)
    requires Lost(w, pid) && Enabled(w, step) && step != TouchFile(false) && !step.EndSession?
    ensures Lost(Next(w, step), pid)
  {
    var n := Next(w, step);
    assert !InHand(w, pid);
    forall c | Has(n, c, pid) ensures false {
      HadBefore(w, step, c, pid);
    }
    assert forall c :: Has(w, c, w.calls[c].stage.pid) <== c in w.calls && HasPid(w.calls[c].stage);
    assert n.file && n.latched && pid in n.processes;
    if k :| k in n.stops && pid in Left(n.stops[k]) {
      assert k in w.stops && pid in Left(w.stops[k]);
    }
    assert !n.processes[pid].signalled by {
      if step.Verify? || step.FinalCheck? { assert Has(w, step.call, w.calls[step.call].stage.pid); }
    }
  }

  /** No step but the end of the session ever signals the process, as long as the file stays. */
  ghost predicate Forgotten(w: System, pid: nat) {
    forall steps, t :: Runs(w, steps, t) && StaysOn(steps) && NoEnd(steps) ==> pid in t.processes && !t.processes[pid].signalled
  }

  predicate NoEnd(steps: seq<Step>) {
    forall k :: 0 <= k < |steps| ==> !steps[k].EndSession?
  }

  lemma {:induction false} StaysLost(w: System, steps: seq<Step>, t: System, pid: nat)
    requires Lost(w, pid) && Runs(w, steps, t) && StaysOn(steps) && NoEnd(steps)
    ensures Lost(t, pid)
    decreases |steps|
  {
    hide Lost, Next, Enabled;
    if steps != [] {
      StepLost(w, steps[0], pid);
      StaysLost(Next(w, steps[0]), steps[1..], t, pid);
    }
  }

  /** The kill switch does its work exactly from a guarded state: from any other one, some
      process that runs is forgotten; from a guarded one, none is. */
  lemma KillExactly(w: System)
    requires Sound(w) && w.file
    ensures Guarded(w) <==> !exists pid :: Live(w, pid) && Forgotten(w, pid)
  {
    hide Sound, Reached, Forgotten, InHand;
    if Guarded(w) {
      forall pid | Live(w, pid) ensures !Forgotten(w, pid) {
        NotForgotten(w, pid);
      }
    } else {
      var pid :| Live(w, pid) && !Reached(w, pid);
      LostIsForgotten(w, pid);
    }
  }

  lemma LostIsForgotten(w: System, pid: nat)
    requires Lost(w, pid)
    ensures Forgotten(w, pid)
  {
    hide Lost, Runs, StaysOn, NoEnd;
    forall steps, t | Runs(w, steps, t) && StaysOn(steps) && NoEnd(steps) ensures pid in t.processes && !t.processes[pid].signalled {
      StaysLost(w, steps, t, pid);
      LostRuns(t, pid);
    }
  }

  lemma LostRuns(w: System, pid: nat)
    requires Lost(w, pid)
    ensures pid in w.processes && !w.processes[pid].signalled
  {
  }

  lemma RunsOne(w: System, step: Step)
    requires Enabled(w, step)
    ensures Runs(w, [step], Next(w, step))
  {
    hide Enabled, Next;
    assert [step][1..] == [] && Runs(Next(w, step), [], Next(w, step));
  }

  lemma RunsMore(w: System, step: Step, steps: seq<Step>, t: System)
    requires Enabled(w, step) && Runs(Next(w, step), steps, t)
    ensures Runs(w, [step] + steps, t)
  {
    hide Enabled, Next;
    assert ([step] + steps)[1..] == steps;
  }

  /** A run that signals the process, with the file there all the time. */
  lemma NotForgotten(w: System, pid: nat)
    requires Sound(w) && w.file && Guarded(w) && Live(w, pid)
    ensures !Forgotten(w, pid)
  {
    if c :| Has(w, c, pid) {
      CallSignals(w, c, pid);
    } else if k :| k in w.stops && pid in Left(w.stops[k]) {
      StopSignals(w, k, pid);
    } else {
      assert pid in w.tasks by { assert Accounted(w); assert !InHand(w, pid); }
      assert !Reached(w, pid);
      if !w.latched {
        LookSignals(w, pid);
      } else {
        var k :| k in w.stops && Pending(w.stops[k]);
        PendingSignals(w, k, pid);
      }
    }
  }

  lemma ListSignals(w: System, k: nat, pid: nat)
    requires k in w.stops && w.stops[k].Begun? && pid in w.tasks && pid in w.processes
    ensures !Forgotten(w, pid)
  {
    StopSignals(Next(w, List(k)), k, pid);
    if Forgotten(w, pid) {
      ForgottenLater(w, List(k), pid) by { hide Forgotten; }
    }
  }

  lemma LookSignals(w: System, pid: nat)
    requires w.file && !w.latched && pid in w.tasks && pid in w.processes
    ensures !Forgotten(w, pid)
  {
    var k := Unused(w.stops.Keys);
    assert Enabled(w, Look(k));
    var a := Next(w, Look(k));
    assert Enabled(a, Latch(k));
    ListSignals(Next(a, Latch(k)), k, pid) by { hide Forgotten; }
    if Forgotten(w, pid) {
      ForgottenLater(w, Look(k), pid) by { hide Forgotten; }
      ForgottenLater(a, Latch(k), pid) by { hide Forgotten; }
    }
  }

  lemma PendingSignals(w: System, k: nat, pid: nat)
    requires w.file && w.latched && k in w.stops && Pending(w.stops[k]) && pid in w.tasks && pid in w.processes
    ensures !Forgotten(w, pid)
  {
    if w.stops[k].Begun? {
      ListSignals(w, k, pid);
    } else {
      LookSignals(Next(w, Latch(k)), pid);
      if Forgotten(w, pid) {
        ForgottenLater(w, Latch(k), pid) by { hide Forgotten; }
      }
    }
  }

  lemma {:induction false} Unused(s: set<nat>) returns (k: nat)
    ensures forall x :: x in s ==> x < k
  {
    if s == {} {
      k := 0;
    } else {
      var y :| y in s;
      var j := Unused(s - {y});
      k := if y < j then j else y + 1;
      assert forall x :: x in s ==> x == y || x in s - {y};
    }
  }

  lemma ForgottenLater(w: System, step: Step, pid: nat)
    requires Enabled(w, step) && step != TouchFile(false) && !step.EndSession? && Forgotten(w, pid)
    ensures Forgotten(Next(w, step), pid)
  {
    hide Enabled, Next;
    forall steps, t | Runs(Next(w, step), steps, t) && StaysOn(steps) && NoEnd(steps) ensures pid in t.processes && !t.processes[pid].signalled {
      RunsMore(w, step, steps, t);
      assert Runs(w, [step] + steps, t) && StaysOn([step] + steps) && NoEnd([step] + steps);
    }
  }

  lemma StopSignals(w: System, k: nat, pid: nat)
    requires k in w.stops && pid in Left(w.stops[k]) && pid in w.processes
    ensures !Forgotten(w, pid)
  {
    var step := Signal(k, pid);
    RunsOne(w, step);
    assert Next(w, step).processes[pid].signalled;
    hide Next, Enabled;
    assert Runs(w, [step], Next(w, step)) && StaysOn([step]) && NoEnd([step]);
  }

  lemma CallSignals(w: System, c: nat, pid: nat)
    requires w.file && Has(w, c, pid) && pid in w.processes
    ensures !Forgotten(w, pid)
    decreases match w.calls[c].stage case Verified(_) => 3 case Recorded(_) => 2 case _ => 1
  {
    var stage := w.calls[c].stage;
    if stage.Spawned? || stage.Launched? {
      var step := if stage.Spawned? then Verify(c) else FinalCheck(c);
      RunsOne(w, step);
      assert Next(w, step).processes[pid].signalled;
      hide Next, Enabled;
      assert Runs(w, [step], Next(w, step)) && StaysOn([step]) && NoEnd([step]);
    } else {
      var step := if stage.Verified? then Record(c) else Launch(c);
      var n := Next(w, step);
      assert n.file && Has(n, c, pid) && pid in n.processes;
      if Forgotten(w, pid) {
        ForgottenLater(w, step, pid) by { hide Forgotten; }
      }
      CallSignals(n, c, pid);
    }
  }

  /** States that are not guarded do come about: the latch is a level, not an edge, so if the
      file goes and comes back between two looks, nobody begins a stop for the second time,
      and a call that slipped through in between leaves a process nobody will reach. */
  lemma StaleLatch(w: System, c: nat, pid: nat, k: nat)
    requires w.file && w.latched && At(w, c) && w.calls[c] == Call(Ready, false) && pid !in w.processes && k !in w.stops
    ensures exists t :: Runs(w, [TouchFile(false), Spawn(c, pid), Verify(c), Record(c), Launch(c), FinalCheck(c), TouchFile(true)], t) &&
                        Stranded(w, t, c, pid, k)
  {
    var a := Next(w, TouchFile(false));
    var b := Next(a, Spawn(c, pid));
    assert Enabled(a, Spawn(c, pid)) && Slipping(w, b, c, pid, Spawned(pid));
    hide Slipping, Stranded, Next, Enabled;
    Slips(w, b, c, pid);
    var d := Next(b, Verify(c));
    var e := Next(d, Record(c));
    var f := Next(e, Launch(c));
    var g := Next(f, FinalCheck(c));
    Comes(w, g, c, pid, k);
    var t := Next(g, TouchFile(true));
    LetRun(w, c, pid, a, b, d, e, f, g, t);
  }

  /** A `Start` that gets as far as its last check before the process starts, and a file that appears and is seen. */
  const FileSeen: seq<Step> := [Enter(0), TakeSlot(0), PassCheck(0), TouchFile(true), Look(0), Latch(0), List(0)]

  /** The file goes, the process is started and let go, and the file comes back. */
  const SlippedThrough: seq<Step> :=
    [TouchFile(false), Spawn(0, 0), Verify(0), Record(0), Launch(0), FinalCheck(0), TouchFile(true)]

  /** From the very beginning, with nothing left under way at the end. */
  lemma StaleLatchFromTheStart(w: System)
    requires Initial(w) && !w.file && w.limit > 0
    ensures exists t :: Runs(w, FileSeen + SlippedThrough, t) && Sound(t) && t.file && Live(t, 0) && Quiet(t) && !Guarded(t)
  {
    hide *;
    var m := ReadyAndSeen(w);
    var t := Slipped(m);
    RunsJoin(w, FileSeen, m, SlippedThrough, t);
    InitialIsSound(w);
    RunsAreSound(w, FileSeen + SlippedThrough, t);
  }

  lemma Slipped(m: System) returns (t: System)
    requires m.file && m.latched && m.calls == map[0 := Call(Ready, false)] && m.processes == map[] && m.stops == map[0 := Running({})]
    ensures Runs(m, SlippedThrough, t) && t.file && Live(t, 0) && Quiet(t) && !Guarded(t)
  {
    hide Runs, Stranded, Next, Enabled, Live, Quiet, Guarded;
    ReadyIsAt(m);
    StaleLatch(m, 0, 0, 1);
    t :| Runs(m, SlippedThrough, t) && Stranded(m, t, 0, 0, 1);
    OnlyCalls(m, SlippedThrough, t);
    StrandedIsUnguarded(m, t);
  }

  lemma ReadyIsAt(m: System)
    requires m.calls == map[0 := Call(Ready, false)]
    ensures At(m, 0)
  {
  }

  lemma StrandedIsUnguarded(m: System, t: System)
    requires Stranded(m, t, 0, 0, 1) && m.stops == map[0 := Running({})] && t.calls.Keys == {0}
    ensures t.file && Live(t, 0) && Quiet(t) && !Guarded(t)
  {
    assert !Reached(t, 0);
  }

  lemma ReadyAndSeen(w: System) returns (m: System)
    requires Initial(w) && !w.file && w.limit > 0
    ensures Runs(w, FileSeen, m)
    ensures m.file && m.latched && m.calls == map[0 := Call(Ready, false)] && m.processes == map[] && m.stops == map[0 := Running({})]
  {
    var a, b, c := GetsReady(w);
    var d := Next(c, TouchFile(true));
    var e, f := Next(d, Look(0)), Next(Next(d, Look(0)), Latch(0));
    m := Next(f, List(0));
    hide Next;
    RunsSeven(w, FileSeen, a, b, c, d, e, f, m);
  }

  lemma GetsReady(w: System) returns (a: System, b: System, c: System)
    requires Initial(w) && !w.file && w.limit > 0
    ensures Enabled(w, Enter(0)) && a == Next(w, Enter(0)) && Enabled(a, TakeSlot(0)) && b == Next(a, TakeSlot(0))
    ensures Enabled(b, PassCheck(0)) && c == Next(b, PassCheck(0))
    ensures c.calls == map[0 := Call(Ready, false)] && !c.latched && c.tasks == {} && c.processes == map[] && c.stops == map[]
  {
    a := Next(w, Enter(0));
    b := Next(a, TakeSlot(0));
    c := Next(b, PassCheck(0));
  }

  /** Steps that enter no call add none. */
  lemma {:induction false} OnlyCalls(w: System, steps: seq<Step>, t: System)
    requires Runs(w, steps, t) && forall k :: 0 <= k < |steps| ==> !steps[k].Enter?
    ensures t.calls.Keys == w.calls.Keys
    decreases |steps|
  {
    hide Enabled, Next;
    if steps != [] {
      NoNewCall(w, steps[0]);
      OnlyCalls(Next(w, steps[0]), steps[1..], t);
    }
  }

  lemma NoNewCall(w: System, step: Step)
    requires Enabled(w, step) && !step.Enter?
    ensures Next(w, step).calls.Keys == w.calls.Keys
  {
    if CallOf(step).Some? {
      OwnCallOnly(w, step);
      assert At(w, CallOf(step).value);
      hide Next, Enabled, CallOf;
    }
  }

  lemma {:induction false} RunsJoin(w: System, first: seq<Step>, m: System, more: seq<Step>, t: System)
    requires Runs(w, first, m) && Runs(m, more, t)
    ensures Runs(w, first + more, t)
    decreases |first|
  {
    hide Enabled, Next;
    if first == [] {
      assert first + more == more;
    } else {
      RunsJoin(Next(w, first[0]), first[1..], m, more, t);
      assert (first + more)[1..] == first[1..] + more;
    }
  }

  /** The call is past the point where it would have noticed, on its way through. */
  predicate Slipping(w: System, x: System, c: nat, pid: nat, stage: Stage) {
    !x.file && x.latched && At(x, c) && x.calls[c] == Call(stage, false) && x.stops == w.stops && Live(x, pid)
  }

  lemma Slips(w: System, b: System, c: nat, pid: nat)
    requires Slipping(w, b, c, pid, Spawned(pid))
    ensures Enabled(b, Verify(c))
    ensures var d := Next(b, Verify(c)); Enabled(d, Record(c))
    ensures var e := Next(Next(b, Verify(c)), Record(c)); Enabled(e, Launch(c))
    ensures var f := Next(Next(Next(b, Verify(c)), Record(c)), Launch(c));
            Enabled(f, FinalCheck(c)) && Slipping(w, Next(f, FinalCheck(c)), c, pid, Returned)
  {
    var d := Next(b, Verify(c));
    assert Slipping(w, d, c, pid, Verified(pid));
    var e := Next(d, Record(c));
    assert Slipping(w, e, c, pid, Recorded(pid));
    var f := Next(e, Launch(c));
    assert Slipping(w, f, c, pid, Launched(pid));
  }

  lemma Comes(w: System, g: System, c: nat, pid: nat, k: nat)
    requires Slipping(w, g, c, pid, Returned)
    ensures Enabled(g, TouchFile(true)) && Stranded(w, Next(g, TouchFile(true)), c, pid, k)
  {
  }

  /** The file is there, the process runs unsignalled, its call has returned, no stop has begun, and a look begins none. */
  predicate Stranded(w: System, t: System, c: nat, pid: nat, k: nat) {
    t.file && Live(t, pid) && At(t, c) && t.calls[c].stage.Returned? && t.stops == w.stops &&
    (k !in w.stops ==> Next(Next(t, Look(k)), Latch(k)) == t.(stops := t.stops[k := Running({})]))
  }

  lemma LetRun(w: System, c: nat, pid: nat, a: System, b: System, d: System, e: System, f: System, g: System, t: System)
    requires Enabled(w, TouchFile(false)) && a == Next(w, TouchFile(false)) && Enabled(a, Spawn(c, pid)) && b == Next(a, Spawn(c, pid)) && Enabled(b, Verify(c))
    requires d == Next(b, Verify(c)) && Enabled(d, Record(c)) && e == Next(d, Record(c)) && Enabled(e, Launch(c)) && f == Next(e, Launch(c))
    requires Enabled(f, FinalCheck(c)) && g == Next(f, FinalCheck(c)) && Enabled(g, TouchFile(true)) && t == Next(g, TouchFile(true))
    ensures Runs(w, [TouchFile(false), Spawn(c, pid), Verify(c), Record(c), Launch(c), FinalCheck(c), TouchFile(true)], t)
  {
    hide Next;
    RunsSeven(w, [TouchFile(false), Spawn(c, pid), Verify(c), Record(c), Launch(c), FinalCheck(c), TouchFile(true)], a, b, d, e, f, g, t);
  }

  lemma RunsSeven(w: System, steps: seq<Step>, a: System, b: System, c: System, d: System, e: System, f: System, t: System)
    requires |steps| == 7
    requires Enabled(w, steps[0]) && a == Next(w, steps[0]) && Enabled(a, steps[1]) && b == Next(a, steps[1])
    requires Enabled(b, steps[2]) && c == Next(b, steps[2]) && Enabled(c, steps[3]) && d == Next(c, steps[3])
    requires Enabled(d, steps[4]) && e == Next(d, steps[4]) && Enabled(e, steps[5]) && f == Next(e, steps[5])
    requires Enabled(f, steps[6]) && t == Next(f, steps[6])
    ensures Runs(w, steps, t)
  {
    hide Enabled, Next;
    assert steps[1..][1..][1..][1..][1..][1..][1..] == [];
    assert Runs(t, [], t);
    assert Runs(f, steps[1..][1..][1..][1..][1..][1..], t);
    assert Runs(e, steps[1..][1..][1..][1..][1..], t);
    assert Runs(d, steps[1..][1..][1..][1..], t);
    assert Runs(c, steps[1..][1..][1..], t);
    assert Runs(b, steps[1..][1..], t);
    assert Runs(a, steps[1..], t);
  }

  // ------------------------------------------------------------ starts do succeed

  /** The steps of a `Start` that meets nothing in its way. */
  function Starting(c: nat, pid: nat): seq<Step> {
    [Enter(c), TakeSlot(c), PassCheck(c), Spawn(c, pid), Verify(c), Record(c), Launch(c), FinalCheck(c)]
  }

  /** While the kill switch is off, unlatched and a slot is free, a `Start` gets its process: it runs,
      is listed and waited for, and holds one slot more, which its end gives back. */
  lemma StartSucceeds(w: System, c: nat, pid: nat)
    requires !w.file && !w.latched && w.slots < w.limit && c !in w.calls && pid !in w.processes
    ensures exists t :: Runs(w, Starting(c, pid), t) && Started(w, t, c, pid)
  {
    var m := GetsSpawned(w, c, pid);
    var t := GetsLaunched(w, m, c, pid);
    RunsJoin(w, [Enter(c), TakeSlot(c), PassCheck(c), Spawn(c, pid)], m, [Verify(c), Record(c), Launch(c), FinalCheck(c)], t);
    assert [Enter(c), TakeSlot(c), PassCheck(c), Spawn(c, pid)] + [Verify(c), Record(c), Launch(c), FinalCheck(c)] == Starting(c, pid);
  }

  predicate Started(w: System, t: System, c: nat, pid: nat) {
    At(t, c) && t.calls[c].stage.Returned? && Live(t, pid) && t.tasks == w.tasks + {pid} && t.waiters == w.waiters + {pid} && t.slots == w.slots + 1
  }

  lemma RunsFour(w: System, steps: seq<Step>, a: System, b: System, c: System, t: System)
    requires |steps| == 4
    requires Enabled(w, steps[0]) && a == Next(w, steps[0]) && Enabled(a, steps[1]) && b == Next(a, steps[1])
    requires Enabled(b, steps[2]) && c == Next(b, steps[2]) && Enabled(c, steps[3]) && t == Next(c, steps[3])
    ensures Runs(w, steps, t)
  {
    hide Enabled, Next;
    assert steps[1..][1..][1..][1..] == [];
    assert Runs(t, [], t);
    assert Runs(c, steps[1..][1..][1..], t);
    assert Runs(b, steps[1..][1..], t);
    assert Runs(a, steps[1..], t);
  }

  /** On the way: the call is at this stage with the process running, everything else as it was. */
  predicate OnTheWay(w: System, x: System, c: nat, pid: nat, stage: Stage) {
    !x.file && At(x, c) && x.calls[c] == Call(stage, false) && Live(x, pid) && x.slots == w.slots + 1
  }

  lemma GetsSpawned(w: System, c: nat, pid: nat) returns (m: System)
    requires !w.file && !w.latched && w.slots < w.limit && c !in w.calls && pid !in w.processes
    ensures Runs(w, [Enter(c), TakeSlot(c), PassCheck(c), Spawn(c, pid)], m) && OnTheWay(w, m, c, pid, Spawned(pid))
    ensures m.tasks == w.tasks && m.waiters == w.waiters
  {
    var a := Next(w, Enter(c));
    var b := Next(a, TakeSlot(c));
    var d := Next(b, PassCheck(c));
    m := Next(d, Spawn(c, pid));
    assert Enabled(w, Enter(c)) && Enabled(a, TakeSlot(c)) && Enabled(b, PassCheck(c)) && Enabled(d, Spawn(c, pid));
    hide Enabled, Next;
    RunsFour(w, [Enter(c), TakeSlot(c), PassCheck(c), Spawn(c, pid)], a, b, d, m);
  }

  lemma GetsLaunched(w: System, m: System, c: nat, pid: nat) returns (t: System)
    requires OnTheWay(w, m, c, pid, Spawned(pid)) && m.tasks == w.tasks && m.waiters == w.waiters
    ensures Runs(m, [Verify(c), Record(c), Launch(c), FinalCheck(c)], t) && Started(w, t, c, pid)
  {
    var a := Next(m, Verify(c));
    var b := Next(a, Record(c));
    var d := Next(b, Launch(c));
    t := Next(d, FinalCheck(c));
    assert Enabled(m, Verify(c)) && Enabled(a, Record(c)) && Enabled(b, Launch(c)) && Enabled(d, FinalCheck(c));
    hide Enabled, Next;
    RunsFour(m, [Verify(c), Record(c), Launch(c), FinalCheck(c)], a, b, d, t);
  }

  // --------------------------------------------------------- cancelled calls

  /** The call is cancelled, and its process, if it has one by now, is in its hands or signalled. */
  ghost predicate Cancelled(w: System, c: nat, pid: nat) {
    At(w, c) && w.calls[c].cancelled && pid in w.processes && (Has(w, c, pid) || w.processes[pid].signalled)
  }

  lemma StepCancelled(w: System, step: Step, c: nat, pid: nat)
    requires Cancelled(w, c, pid) && Enabled(w, step)
    ensures Cancelled(Next(w, step), c, pid)
  {
    ProcessesStay(w, step);
    CancelStays(w, step, c);
    if w.processes[pid].signalled { SignalStays(w, step, pid); }
    if Has(w, c, pid) { LeavesSignalled(w, step, c, pid); }
    hide Enabled, Next;
  }

  lemma CancelStays(w: System, step: Step, c: nat)
    requires At(w, c) && w.calls[c].cancelled && Enabled(w, step)
    ensures At(Next(w, step), c) && Next(w, step).calls[c].cancelled
  {
  }

  lemma SignalStays(w: System, step: Step, pid: nat)
    requires pid in w.processes && w.processes[pid].signalled && Enabled(w, step)
    ensures pid in Next(w, step).processes && Next(w, step).processes[pid].signalled
  {
  }

  lemma LeavesSignalled(w: System, step: Step, c: nat, pid: nat)
    requires Has(w, c, pid) && w.calls[c].cancelled && pid in w.processes && Enabled(w, step)
    ensures Has(Next(w, step), c, pid) || (pid in Next(w, step).processes && Next(w, step).processes[pid].signalled)
  {
    if CallOf(step) != Some(c) {
      StagesStay(w, step, c);
      hide Enabled, Next, CallOf;
    }
  }

  /** A call that is cancelled while it has its process in its hands has signalled it once it returns,
      whatever happens meanwhile. */
  lemma {:induction false} CancelledIsKilled(w: System, steps: seq<Step>, t: System, c: nat, pid: nat)
    requires Cancelled(w, c, pid) && Runs(w, steps, t)
    ensures Cancelled(t, c, pid) && (At(t, c) && t.calls[c].stage.Returned? ==> t.processes[pid].signalled)
    decreases |steps|
  {
    hide Enabled, Next;
    if steps != [] {
      StepCancelled(w, steps[0], c, pid);
      hide Cancelled;
      CancelledIsKilled(Next(w, steps[0]), steps[1..], t, c, pid);
    }
  }

  /** One cancelled before its check starts none. */
  lemma CancelledStartsNone(w: System, c: nat)
    requires At(w, c) && w.calls[c].cancelled && (w.calls[c].stage.Entered? || w.calls[c].stage.Slotted?)
    ensures w.calls[c].stage.Entered? ==> Enabled(w, TakeSlot(c)) && Next(w, TakeSlot(c)).calls[c].stage.Returned? && Next(w, TakeSlot(c)).processes == w.processes
    ensures w.calls[c].stage.Slotted? ==> Enabled(w, PassCheck(c)) && Next(w, PassCheck(c)).calls[c].stage.Returned? && Next(w, PassCheck(c)).processes == w.processes
  {
  }
}
