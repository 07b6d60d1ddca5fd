/** The WebSocket broker's tables, as steps of concurrent calls and connections: who is
    connected for a device, which calls wait on which connection, and whose answer a
    call returns. */
module Broker {
  import opened Wrappers

  datatype Response = Response(id: string, result: string, error: string)

  datatype Answer = Got(response: Response) | Refused(reason: string)

  /** How far a `Call` is. From `Waiting` to `Leaving` its request is in its peer's table;
      from `Slotted` to `Closing` it holds a slot. */
  datatype Stage =
    | Chosen
    | Slotted
    | Waiting
    | Leaving(result: Answer)
    | Closing(result: Answer)
    | Finished(result: Answer)

  datatype Call = Call(peer: nat, stage: Stage, id: string, inbox: Option<Response>)

  /** Of the read loop. One that has not started yet may have a connection to close first: the
      one it has replaced. */
  datatype Loop = Starting(replaced: Option<nat>) | Running | Ended | Gone

  /** A connection. `held` is a response its read loop has looked up and not yet delivered. */
  datatype Peer = Peer(device: string, pending: map<string, nat>, done: bool, loop: Loop, held: Option<(nat, Response)>)

  /** `latest` and `read` record history: the last connection registered for a device, and
      every response read from a connection. */
  datatype Table = Table(peers: map<string, nat>, conns: map<nat, Peer>, calls: map<nat, Call>, slots: nat, drawn: set<string>,
                         latest: map<string, nat>, read: set<(nat, Response)>)

  const MAX_SLOTS := 32

  datatype Step =
    | Look(call: nat, device: string)
    | TakeSlot(call: nat)
    | Post(call: nat, id: string)
    | Abandon(call: nat, reason: string)
    | Collect(call: nat)
    | Unpost(call: nat)
    | FreeSlot(call: nat)
    | Register(peer: nat, device: string)
    | CloseOld(peer: nat)
    | StartLoop(peer: nat)
    | Close(peer: nat)
    | Read(peer: nat, response: Response)
    | Deliver(peer: nat)
    | EndLoop(peer: nat)
    | Remove(peer: nat)

  predicate Holding(stage: Stage) {
    stage.Slotted? || stage.Waiting? || stage.Leaving? || stage.Closing?
  }

  predicate Posted(stage: Stage) {
    stage.Waiting? || stage.Leaving?
  }

  predicate Enabled(w: Table, step: Step) {
    match step
    case Look(c, device) => c !in w.calls && device in w.peers
    case TakeSlot(c) => c in w.calls && w.calls[c].stage.Chosen? && w.slots < MAX_SLOTS
    case Post(c, id) => c in w.calls && w.calls[c].stage.Slotted? && w.calls[c].peer in w.conns && id !in w.drawn
    case Abandon(c, _) => c in w.calls && (w.calls[c].stage.Chosen? || w.calls[c].stage.Slotted? || w.calls[c].stage.Waiting?)
    case Collect(c) => c in w.calls && w.calls[c].stage.Waiting? && w.calls[c].inbox.Some?
    case Unpost(c) => c in w.calls && w.calls[c].stage.Leaving? && w.calls[c].peer in w.conns
    case FreeSlot(c) => c in w.calls && w.calls[c].stage.Closing?
    case Register(p, _) => p !in w.conns
    case CloseOld(p) => p in w.conns && w.conns[p].loop.Starting? && w.conns[p].loop.replaced.Some? && w.conns[p].loop.replaced.value in w.conns
    case StartLoop(p) => p in w.conns && w.conns[p].loop == Starting(None)
    case Close(p) => p in w.conns
    case Read(p, _) => p in w.conns && w.conns[p].loop.Running? && w.conns[p].held.None?
    case Deliver(p) => p in w.conns && w.conns[p].held.Some? && w.conns[p].held.value.0 in w.calls
    case EndLoop(p) => p in w.conns && w.conns[p].loop.Running? && w.conns[p].held.None?
    case Remove(p) => p in w.conns && w.conns[p].loop.Ended?
  }

  function Move(w: Table, c: nat, stage: Stage): Table
    requires c in w.calls
  {
    w.(calls := w.calls[c := w.calls[c].(stage := stage)])
  }

  function Change(w: Table, p: nat, peer: Peer): Table {
    w.(conns := w.conns[p := peer])
  }

  function Entry(w: Table, device: string): Option<nat> {
    if device in w.peers then Some(w.peers[device]) else None
  }

  function Next(w: Table, step: Step): Table
    requires Enabled(w, step)
  {
    match step
    case Look(c, device) => w.(calls := w.calls[c := Call(w.peers[device], Chosen, "", None)])
    case TakeSlot(c) => Move(w, c, Slotted).(slots := w.slots + 1)
    case Post(c, id) =>
      var p := w.calls[c].peer;
      Change(w.(calls := w.calls[c := w.calls[c].(stage := Waiting, id := id)]), p, w.conns[p].(pending := w.conns[p].pending[id := c]))
        .(drawn := w.drawn + {id})
    case Abandon(c, reason) =>
      if w.calls[c].stage.Chosen? then Move(w, c, Finished(Refused(reason)))
      else if w.calls[c].stage.Slotted? then Move(w, c, Closing(Refused(reason)))
      else Move(w, c, Leaving(Refused(reason)))
    case Collect(c) =>
      var r := w.calls[c].inbox.value;
      Move(w, c, Leaving(if r.error != "" then Refused(r.error) else Got(r)))
    case Unpost(c) =>
      var p := w.calls[c].peer;
      Change(Move(w, c, Closing(w.calls[c].stage.result)), p, w.conns[p].(pending := w.conns[p].pending - {w.calls[c].id}))
    case FreeSlot(c) => Move(w, c, Finished(w.calls[c].stage.result)).(slots := if w.slots == 0 then 0 else w.slots - 1)
    case Register(p, device) =>
      Change(w, p, Peer(device, map[], false, Starting(Entry(w, device)), None))
        .(peers := w.peers[device := p], latest := w.latest[device := p])
    case CloseOld(p) =>
      var q := w.conns[p].loop.replaced.value;
      var n := Change(w, q, w.conns[q].(done := true));
      Change(n, p, n.conns[p].(loop := Starting(None)))
    case StartLoop(p) => Change(w, p, w.conns[p].(loop := Running))
    case Close(p) => Change(w, p, w.conns[p].(done := true))
    case Read(p, r) =>
      var q := w.conns[p];
      Change(w, p, q.(held := if r.id in q.pending then Some((q.pending[r.id], r)) else None)).(read := w.read + {(p, r)})
    case Deliver(p) =>
      var c, r := w.conns[p].held.value.0, w.conns[p].held.value.1;
      Change(w.(calls := w.calls[c := w.calls[c].(inbox := if w.calls[c].inbox.None? then Some(r) else w.calls[c].inbox)]), p, w.conns[p].(held := None))
    case EndLoop(p) => Change(w, p, w.conns[p].(done := true, loop := Ended))
    case Remove(p) =>
      var d := w.conns[p].device;
      Change(w, p, w.conns[p].(loop := Gone)).(peers := if d in w.peers && w.peers[d] == p then w.peers - {d} else w.peers)
  }

  // ------------------------------------------------------------ pending tables

  predicate InFlight(w: Table, p: nat, id: string, c: nat) {
    c in w.calls && w.calls[c].peer == p && Posted(w.calls[c].stage) && w.calls[c].id == id
  }

  /** Each connection's table holds exactly the calls in flight on it, under their own IDs. */
  ghost predicate PendingExact(w: Table) {
    (forall p, id :: p in w.conns && id in w.conns[p].pending ==> InFlight(w, p, id, w.conns[p].pending[id])) &&
    (forall p, id, c :: InFlight(w, p, id, c) ==> p in w.conns && id in w.conns[p].pending && w.conns[p].pending[id] == c && id in w.drawn) &&
    (forall c :: c in w.calls ==> w.calls[c].peer in w.conns) &&
    (forall d :: d in w.peers ==> w.peers[d] in w.conns)
  }

  lemma ConnsStay(w: Table, step: Step)
    requires Enabled(w, step)
    ensures w.conns.Keys <= Next(w, step).conns.Keys
  {
  }

  /** Where a table entry comes from. */
  lemma EntryBefore(w: Table, step: Step, p: nat, id: string)
    requires Enabled(w, step) && p in Next(w, step).conns && id in Next(w, step).conns[p].pending
    ensures var c := Next(w, step).conns[p].pending[id];
            (p in w.conns && id in w.conns[p].pending && w.conns[p].pending[id] == c &&
             !(step.Unpost? && w.calls[step.call].peer == p && w.calls[step.call].id == id)) ||
            (step == Post(c, id) && w.calls[c].peer == p)
  {
  }

  /** Where a call in flight comes from. */
  lemma FlightBefore(w: Table, step: Step, p: nat, id: string, c: nat)
    requires Enabled(w, step) && InFlight(Next(w, step), p, id, c)
    ensures (InFlight(w, p, id, c) && !(step.Unpost? && step.call == c)) || (step == Post(c, id) && w.calls[c].peer == p)
  {
  }

  lemma FlightAfter(w: Table, step: Step, p: nat, id: string, c: nat)
    requires Enabled(w, step) && InFlight(w, p, id, c) && !(step.Unpost? && step.call == c)
    ensures InFlight(Next(w, step), p, id, c)
  {
  }

  lemma EntryAfter(w: Table, step: Step, p: nat, id: string)
    requires Enabled(w, step) && p in w.conns && id in w.conns[p].pending && id in w.drawn
    requires !(step.Unpost? && w.calls[step.call].peer == p && w.calls[step.call].id == id)
    ensures p in Next(w, step).conns && id in Next(w, step).conns[p].pending && Next(w, step).conns[p].pending[id] == w.conns[p].pending[id]
    ensures w.drawn <= Next(w, step).drawn
  {
  }

  lemma StepPending(w: Table, step: Step)
    requires PendingExact(w) && Enabled(w, step)
    ensures PendingExact(Next(w, step))
  {
    var n := Next(w, step);
    forall p, id | p in n.conns && id in n.conns[p].pending ensures InFlight(n, p, id, n.conns[p].pending[id]) {
      EntryBefore(w, step, p, id);
      var c := n.conns[p].pending[id];
      if !(step == Post(c, id) && w.calls[c].peer == p) {
        assert InFlight(w, p, id, c);
        FlightAfter(w, step, p, id, c);
      }
    }
    forall p, id, c | InFlight(n, p, id, c)
      ensures p in n.conns && id in n.conns[p].pending && n.conns[p].pending[id] == c && id in n.drawn
    {
      FlightBefore(w, step, p, id, c);
      if !(step == Post(c, id) && w.calls[c].peer == p) {
        if step.Unpost? && w.calls[step.call].peer == p && w.calls[step.call].id == id {
          assert InFlight(w, p, id, step.call);
        }
        EntryAfter(w, step, p, id);
      }
    }
    CallsHavePeers(w, step);
  }

  lemma CallsHavePeers(w: Table, step: Step)
    requires Enabled(w, step) && (forall c :: c in w.calls ==> w.calls[c].peer in w.conns) && (forall d :: d in w.peers ==> w.peers[d] in w.conns)
    ensures var n := Next(w, step);
            (forall c :: c in n.calls ==> n.calls[c].peer in n.conns) && (forall d :: d in n.peers ==> n.peers[d] in n.conns)
  {
    ConnsStay(w, step);
  }

  // -------------------------------------------------------------------- slots

  function Holders(w: Table): set<nat> {
    set c | c in w.calls && Holding(w.calls[c].stage)
  }

  ghost predicate SlotsExact(w: Table) {
    w.slots == |Holders(w)| <= MAX_SLOTS
  }

  lemma StepHolders(w: Table, step: Step)
    requires Enabled(w, step)
    ensures var n := Next(w, step);
            if step.TakeSlot? then Holders(n) == Holders(w) + {step.call} && step.call !in Holders(w) && n.slots == w.slots + 1 <= MAX_SLOTS
            else if step.FreeSlot? then
              Holders(n) == Holders(w) - {step.call} && step.call in Holders(w) && n.slots == if w.slots == 0 then 0 else w.slots - 1
            else Holders(n) == Holders(w) && n.slots == w.slots
  {
  }

  lemma StepSlots(w: Table, step: Step)
    requires SlotsExact(w) && Enabled(w, step)
    ensures SlotsExact(Next(w, step))
  {
    StepHolders(w, step);
    hide Holders, Next;
  }

  // ------------------------------------------------------------------- answers

  predicate Own(w: Table, c: nat, r: Response)
    requires c in w.calls
  {
    r.id == w.calls[c].id && (w.calls[c].peer, r) in w.read
  }

  predicate AnswerOf(stage: Stage, r: Response) {
    (stage.Leaving? || stage.Closing? || stage.Finished?) && stage.result == Got(r)
  }

  /** What a read loop holds is for the call it looked up; what a call has received or
      returns carries its own ID and was read from the connection it was sent to. */
  ghost predicate AnswersOwn(w: Table) {
    (forall p :: p in w.conns && w.conns[p].held.Some? ==> HeldOwn(w, p)) &&
    (forall c :: c in w.calls && w.calls[c].inbox.Some? ==> Own(w, c, w.calls[c].inbox.value)) &&
    (forall c, r :: c in w.calls && AnswerOf(w.calls[c].stage, r) ==> Own(w, c, r))
  }

  predicate HeldOwn(w: Table, p: nat)
    requires p in w.conns && w.conns[p].held.Some?
  {
    var (c, r) := w.conns[p].held.value;
    c in w.calls && w.calls[c].peer == p && !(w.calls[c].stage.Chosen? || w.calls[c].stage.Slotted?) && Own(w, c, r)
  }

  /** A call that has not posted its request has received nothing. */
  ghost predicate QuietBefore(w: Table) {
    forall c :: c in w.calls && (w.calls[c].stage.Chosen? || w.calls[c].stage.Slotted?) ==> w.calls[c].inbox.None?
  }

  lemma CallsStay(w: Table, step: Step, c: nat, r: Response)
    requires Enabled(w, step) && c in w.calls && Own(w, c, r) && !(step.Post? && step.call == c)
    ensures c in Next(w, step).calls && Own(Next(w, step), c, r) && Next(w, step).calls[c].peer == w.calls[c].peer
    ensures !(w.calls[c].stage.Chosen? || w.calls[c].stage.Slotted?) ==>
              !(Next(w, step).calls[c].stage.Chosen? || Next(w, step).calls[c].stage.Slotted?)
  {
  }

  lemma HeldBefore(w: Table, step: Step, p: nat)
    requires Enabled(w, step) && p in Next(w, step).conns && Next(w, step).conns[p].held.Some?
    ensures (p in w.conns && Next(w, step).conns[p].held == w.conns[p].held) ||
            (step.Read? && step.peer == p && step.response.id in w.conns[p].pending &&
             Next(w, step).conns[p].held.value == (w.conns[p].pending[step.response.id], step.response))
  {
  }

  lemma InboxBefore(w: Table, step: Step, c: nat)
    requires Enabled(w, step) && c in Next(w, step).calls && Next(w, step).calls[c].inbox.Some?
    ensures (c in w.calls && Next(w, step).calls[c].inbox == w.calls[c].inbox) ||
            (step.Deliver? && w.conns[step.peer].held.value == (c, Next(w, step).calls[c].inbox.value))
  {
  }

  lemma AnswerBefore(w: Table, step: Step, c: nat, r: Response)
    requires Enabled(w, step) && c in Next(w, step).calls && AnswerOf(Next(w, step).calls[c].stage, r)
    ensures c in w.calls && (AnswerOf(w.calls[c].stage, r) || (step == Collect(c) && w.calls[c].inbox == Some(r)))
    ensures !(step.Post? && step.call == c)
  {
  }

  lemma StepAnswers(w: Table, step: Step)
    requires PendingExact(w) && AnswersOwn(w) && QuietBefore(w) && Enabled(w, step)
    ensures AnswersOwn(Next(w, step))
  {
    var n := Next(w, step);
    forall p | p in n.conns && n.conns[p].held.Some? ensures HeldOwn(n, p) {
      HeldBefore(w, step, p);
      var (c, r) := n.conns[p].held.value;
      if p in w.conns && n.conns[p].held == w.conns[p].held {
        assert HeldOwn(w, p);
        CallsStay(w, step, c, r);
      } else {
        assert InFlight(w, p, r.id, c);
        assert n.calls == w.calls && (p, r) in n.read;
      }
    }
    forall c | c in n.calls && n.calls[c].inbox.Some? ensures Own(n, c, n.calls[c].inbox.value) {
      InboxBefore(w, step, c);
      if c in w.calls && n.calls[c].inbox == w.calls[c].inbox {
        CallsStay(w, step, c, n.calls[c].inbox.value);
      } else {
        assert HeldOwn(w, step.peer);
        CallsStay(w, step, c, n.calls[c].inbox.value);
      }
    }
    forall c, r | c in n.calls && AnswerOf(n.calls[c].stage, r) ensures Own(n, c, r) {
      AnswerBefore(w, step, c, r);
      CallsStay(w, step, c, r);
    }
  }

  lemma StepQuiet(w: Table, step: Step)
    requires AnswersOwn(w) && QuietBefore(w) && Enabled(w, step)
    ensures QuietBefore(Next(w, step))
  {
    var n := Next(w, step);
    if step.Deliver? {
      assert HeldOwn(w, step.peer);
    }
    forall c | c in n.calls && (n.calls[c].stage.Chosen? || n.calls[c].stage.Slotted?) ensures n.calls[c].inbox.None? {
      if n.calls[c].inbox.Some? {
        InboxBefore(w, step, c);
      }
    }
  }

  // --------------------------------------------------------------- connections

  /** A device's entry is its most recently registered connection, and is missing only
      when that connection's read loop has ended and removed it. */
  ghost predicate Current(w: Table) {
    (forall d :: d in w.peers ==> d in w.latest && w.peers[d] == w.latest[d]) &&
    (forall d :: d in w.latest ==> LatestOk(w, d)) &&
    (forall p :: p in w.conns && w.conns[p].loop.Ended? ==> w.conns[p].done)
  }

  predicate LatestOk(w: Table, d: string)
    requires d in w.latest
  {
    var p := w.latest[d];
    p in w.conns && w.conns[p].device == d && (d !in w.peers ==> w.conns[p].loop.Gone? && w.conns[p].done)
  }

  lemma DevicesStay(w: Table, step: Step, p: nat)
    requires Enabled(w, step) && p in w.conns
    ensures p in Next(w, step).conns && Next(w, step).conns[p].device == w.conns[p].device
    ensures w.conns[p].done ==> Next(w, step).conns[p].done
    ensures w.conns[p].loop.Gone? ==> Next(w, step).conns[p].loop.Gone?
  {
  }

  lemma LatestBefore(w: Table, step: Step, d: string)
    requires Enabled(w, step) && d in Next(w, step).latest
    ensures (d in w.latest && Next(w, step).latest[d] == w.latest[d] &&
             (d !in Next(w, step).peers ==> d !in w.peers || (step.Remove? && w.conns[step.peer].device == d && w.peers[d] == step.peer))) ||
            (step.Register? && step.device == d && Next(w, step).latest[d] == step.peer && d in Next(w, step).peers)
  {
  }

  lemma StepCurrent(w: Table, step: Step)
    requires Current(w) && Enabled(w, step)
    ensures Current(Next(w, step))
  {
    var n := Next(w, step);
    forall d | d in n.latest ensures LatestOk(n, d) {
      LatestBefore(w, step, d);
      if d in w.latest && n.latest[d] == w.latest[d] {
        assert LatestOk(w, d);
        DevicesStay(w, step, w.latest[d]);
      }
    }
  }

  /** The connection `p` is still open although `q` has replaced it: `q` is about to close it. */
  predicate ToClose(w: Table, p: nat, q: nat) {
    q in w.conns && w.conns[q].loop == Starting(Some(p))
  }

  /** A connection that is open is the device's latest, or the one after it is about to close it. */
  ghost predicate ReplacedClosed(w: Table) {
    forall p :: p in w.conns && !w.conns[p].done ==>
      w.conns[p].device in w.latest && (w.latest[w.conns[p].device] == p || exists q :: ToClose(w, p, q))
  }

  lemma OpenBefore(w: Table, step: Step, p: nat)
    requires Enabled(w, step) && p in Next(w, step).conns && !Next(w, step).conns[p].done
    ensures (p in w.conns && !w.conns[p].done && !(step.CloseOld? && w.conns[step.peer].loop.replaced == Some(p)) &&
             Next(w, step).conns[p].device == w.conns[p].device) ||
            step == Register(p, Next(w, step).conns[p].device)
    ensures w.latest.Keys <= Next(w, step).latest.Keys
    ensures step.Register? ==> ToClose(Next(w, step), p, step.peer) == (Entry(w, step.device) == Some(p))
    ensures !step.Register? ==> Next(w, step).latest == w.latest
  {
  }

  lemma ToCloseAfter(w: Table, step: Step, p: nat, q: nat)
    requires Enabled(w, step) && ToClose(w, p, q) && !(step.CloseOld? && step.peer == q)
    ensures ToClose(Next(w, step), p, q)
  {
  }

  lemma StepReplaced(w: Table, step: Step)
    requires Current(w) && ReplacedClosed(w) && Enabled(w, step)
    ensures ReplacedClosed(Next(w, step))
  {
    var n := Next(w, step);
    forall p | p in n.conns && !n.conns[p].done
      ensures n.conns[p].device in n.latest && (n.latest[n.conns[p].device] == p || exists q :: ToClose(n, p, q))
    {
      OpenBefore(w, step, p);
      if p in w.conns && !w.conns[p].done {
        var d := w.conns[p].device;
        if w.latest[d] == p {
          assert LatestOk(w, d);
          LatestKept(w, step, p);
        } else {
          var q :| ToClose(w, p, q);
          ToCloseAfter(w, step, p, q);
        }
      }
    }
  }

  /** An open connection that was the latest still is, unless another has just taken its place. */
  lemma LatestKept(w: Table, step: Step, p: nat)
    requires Current(w) && Enabled(w, step) && p in w.conns && !w.conns[p].done
    requires w.conns[p].device in w.latest && w.latest[w.conns[p].device] == p
    ensures var d, n := w.conns[p].device, Next(w, step); d in n.latest && (n.latest[d] == p || ToClose(n, p, n.latest[d]))
  {
    assert LatestOk(w, w.conns[p].device);
  }

  // --------------------------------------------------------------------- runs

  ghost predicate Sound(w: Table) {
    PendingExact(w) && SlotsExact(w) && AnswersOwn(w) && QuietBefore(w) && Current(w) && ReplacedClosed(w)
  }

  lemma StepSound(w: Table, step: Step)
    requires Sound(w) && Enabled(w, step)
    ensures Sound(Next(w, step))
  {
    StepPending(w, step);
    StepSlots(w, step);
    StepAnswers(w, step);
    StepQuiet(w, step);
    StepCurrent(w, step);
    StepReplaced(w, step);
  }

  const Empty := Table(map[], map[], map[], 0, {}, map[], {})

  lemma EmptyIsSound()
    ensures Sound(Empty)
  {
    assert Holders(Empty) == {};
  }

  ghost predicate Runs(w: Table, steps: seq<Step>, t: Table)
    decreases |steps|
  {
    if steps == [] then w == t else Enabled(w, steps[0]) && Runs(Next(w, steps[0]), steps[1..], t)
  }

  lemma {:induction false} RunsAreSound(w: Table, steps: seq<Step>, t: Table)
    requires Sound(w) && Runs(w, steps, t)
    ensures Sound(t)
    decreases |steps|
  {
    hide Sound, Next, Enabled;
    if steps != [] {
      StepSound(w, steps[0]);
      RunsAreSound(Next(w, steps[0]), steps[1..], t);
    }
  }

  /** Over any run of the broker: a connection's table is exactly the calls in flight on
      it, used slots are exactly the calls holding one and at most 32, a device's entry is its
      latest connection or, once that one's read loop has ended, nothing, and any other
      connection of the device is closed, or the one that replaced it is about to close it. */
  lemma BrokerIsExact(steps: seq<Step>, t: Table)
    requires Runs(Empty, steps, t)
    ensures forall p, id, c :: p in t.conns ==> (id in t.conns[p].pending && t.conns[p].pending[id] == c <==> InFlight(t, p, id, c))
    ensures t.slots == |Holders(t)| <= 32
    ensures forall d :: d in t.peers ==> d in t.latest && t.peers[d] == t.latest[d]
    ensures forall d :: d in t.latest && d !in t.peers ==> t.latest[d] in t.conns && t.conns[t.latest[d]].loop.Gone?
    ensures forall p :: p in t.conns && !t.conns[p].done ==>
              t.conns[p].device in t.latest && (t.latest[t.conns[p].device] == p || exists q :: ToClose(t, p, q))
  {
    EmptyIsSound();
    RunsAreSound(Empty, steps, t) by { hide Sound; }
    hide Runs, AnswersOwn, QuietBefore;
    forall d | d in t.latest && d !in t.peers ensures t.latest[d] in t.conns && t.conns[t.latest[d]].loop.Gone? {
      assert LatestOk(t, d);
    }
  }

  /** A call returns a result only from a response that carries its own ID and was read
      from the connection its request was sent to. */
  lemma AnswersAreOwn(steps: seq<Step>, t: Table, c: nat, r: Response)
    requires Runs(Empty, steps, t) && c in t.calls && t.calls[c].stage == Finished(Got(r))
    ensures r.id == t.calls[c].id && (t.calls[c].peer, r) in t.read && r.error == ""
  {
    EmptyIsSound();
    RunsAreSound(Empty, steps, t) by { hide Sound; }
    CleanRuns(Empty, steps, t) by { hide Sound; }
    hide Runs, PendingExact, SlotsExact, QuietBefore, Current;
    assert AnswerOf(t.calls[c].stage, r);
  }

  /** A result is never an error in disguise. */
  ghost predicate Clean(w: Table) {
    forall c, r :: c in w.calls && AnswerOf(w.calls[c].stage, r) ==> r.error == ""
  }

  lemma StepClean(w: Table, step: Step)
    requires Clean(w) && Enabled(w, step)
    ensures Clean(Next(w, step))
  {
  }

  lemma {:induction false} CleanRuns(w: Table, steps: seq<Step>, t: Table)
    requires Clean(w) && Runs(w, steps, t)
    ensures Clean(t)
    decreases |steps|
  {
    hide Clean, Next, Enabled;
    if steps != [] {
      StepClean(w, steps[0]);
      CleanRuns(Next(w, steps[0]), steps[1..], t);
    }
  }

  // ---------------------------------------------------------- calls do return

  /** What a response makes of a call. */
  predicate AnswersWith(stage: Stage, r: Response) {
    stage.Finished? && if r.error == "" then stage.result == Got(r) else stage.result == Refused(r.error)
  }

  lemma RunsOne(w: Table, step: Step)
    requires Enabled(w, step)
    ensures Runs(w, [step], Next(w, step))
  {
    hide Enabled, Next;
    assert [step][1..] == [] && Runs(Next(w, step), [], Next(w, step));
  }

  lemma RunsMore(w: Table, step: Step, steps: seq<Step>, t: Table)
    requires Enabled(w, step) && Runs(Next(w, step), steps, t)
    ensures Runs(w, [step] + steps, t)
  {
    hide Enabled, Next;
    assert ([step] + steps)[1..] == steps;
  }

  /** The steps by which a call takes what is in its inbox and leaves. */
  function Returning(c: nat): seq<Step> {
    [Collect(c), Unpost(c), FreeSlot(c)]
  }

  lemma CollectReturns(w: Table, c: nat, r: Response) returns (t: Table)
    requires c in w.calls && w.calls[c].stage.Waiting? && w.calls[c].inbox == Some(r) && w.calls[c].peer in w.conns
    ensures Runs(w, Returning(c), t) && c in t.calls && AnswersWith(t.calls[c].stage, r) && t.slots == (if w.slots == 0 then 0 else w.slots - 1)
    ensures t.peers == w.peers
    ensures t.conns == w.conns[w.calls[c].peer := w.conns[w.calls[c].peer].(pending := w.conns[w.calls[c].peer].pending - {w.calls[c].id})]
  {
    var a := Next(w, Collect(c));
    var b := Next(a, Unpost(c));
    t := Next(b, FreeSlot(c));
    assert Enabled(a, Unpost(c)) && Enabled(b, FreeSlot(c));
    hide Enabled, Next;
    RunsOne(b, FreeSlot(c));
    RunsMore(a, Unpost(c), [FreeSlot(c)], t);
    RunsMore(w, Collect(c), [Unpost(c)] + [FreeSlot(c)], t);
    assert [Collect(c)] + ([Unpost(c)] + [FreeSlot(c)]) == Returning(c);
  }

  /** In every reachable state: a waiting call whose response has been read from its connection and
      is held for it is given it, leaves, and returns exactly that response, or exactly its error. */
  lemma HeldIsReturned(steps: seq<Step>, w: Table, c: nat, r: Response)
    requires Runs(Empty, steps, w) && c in w.calls && w.calls[c].stage.Waiting? && w.calls[c].inbox.None?
    requires w.calls[c].peer in w.conns && w.conns[w.calls[c].peer].held == Some((c, r))
    ensures exists t :: Runs(w, [Deliver(w.calls[c].peer)] + Returning(c), t) && c in t.calls && AnswersWith(t.calls[c].stage, r)
  {
    var d := Deliver(w.calls[c].peer);
    var n := Next(w, d);
    assert Enabled(w, d) && n.calls[c] == w.calls[c].(inbox := Some(r)) && n.calls[c].peer in n.conns by { hide Runs; }
    hide Enabled, Next;
    var t := CollectReturns(n, c, r);
    RunsMore(w, d, Returning(c), t);
  }

  /** A whole call: the device is connected and its read loop runs, a slot is free, and the device
      answers the request it was sent; the call returns the answer and everything is as before. */
  lemma CallReturns(steps: seq<Step>, w: Table, c: nat, device: string, id: string, r: Response)
    requires Runs(Empty, steps, w) && c !in w.calls && device in w.peers && w.slots < MAX_SLOTS && id !in w.drawn && r.id == id
    requires w.peers[device] in w.conns && w.conns[w.peers[device]].loop.Running? && w.conns[w.peers[device]].held.None?
    ensures var p := w.peers[device];
            exists t :: Runs(w, [Look(c, device), TakeSlot(c), Post(c, id), Read(p, r), Deliver(p)] + Returning(c), t) &&
                        c in t.calls && AnswersWith(t.calls[c].stage, r) && t.slots == w.slots && t.conns == w.conns && t.peers == w.peers
  {
    var p := w.peers[device];
    FreshIsUnposted(steps, w, p, id);
    hide Runs, Sound;
    hide Enabled, Next, Returning;
    var b := Posts(w, c, device, id);
    var e := Delivers(b, c, p, r);
    var t := CollectReturns(e, c, r);
    assert w.conns[p].pending[id := c] - {id} == w.conns[p].pending;
    RunsJoin(w, [Look(c, device), TakeSlot(c), Post(c, id)], b, [Read(p, r), Deliver(p)], e);
    RunsJoin(w, [Look(c, device), TakeSlot(c), Post(c, id)] + [Read(p, r), Deliver(p)], e, Returning(c), t);
    assert [Look(c, device), TakeSlot(c), Post(c, id)] + [Read(p, r), Deliver(p)] == [Look(c, device), TakeSlot(c), Post(c, id), Read(p, r), Deliver(p)];
  }

  /** A response to a waiting call is read, looked up and put in its inbox. */
  lemma Delivers(b: Table, c: nat, p: nat, r: Response) returns (e: Table)
    requires c in b.calls && b.calls[c].inbox.None? && p in b.conns && b.conns[p].loop.Running? && b.conns[p].held.None?
    requires r.id in b.conns[p].pending && b.conns[p].pending[r.id] == c
    ensures Runs(b, [Read(p, r), Deliver(p)], e) && e.calls == b.calls[c := b.calls[c].(inbox := Some(r))]
    ensures e.conns == b.conns && e.peers == b.peers && e.slots == b.slots
  {
    var d := Next(b, Read(p, r));
    e := Next(d, Deliver(p));
    assert Enabled(b, Read(p, r)) && Enabled(d, Deliver(p)) && d.conns[p := b.conns[p]] == b.conns;
    assert e.conns == b.conns;
    hide Enabled, Next;
    RunsOne(d, Deliver(p));
    RunsMore(b, Read(p, r), [Deliver(p)], e);
    assert [Read(p, r)] + [Deliver(p)] == [Read(p, r), Deliver(p)];
  }

  lemma FreshIsUnposted(steps: seq<Step>, w: Table, p: nat, id: string)
    requires Runs(Empty, steps, w) && p in w.conns && id !in w.drawn
    ensures id !in w.conns[p].pending
  {
    EmptyIsSound();
    RunsAreSound(Empty, steps, w) by { hide Sound; }
    hide Runs, SlotsExact, AnswersOwn, QuietBefore, Current, ReplacedClosed;
    PostedIsDrawn(w, p);
  }

  lemma PostedIsDrawn(w: Table, p: nat)
    requires PendingExact(w) && p in w.conns
    ensures w.conns[p].pending.Keys <= w.drawn
  {
    forall id | id in w.conns[p].pending ensures id in w.drawn {
      assert InFlight(w, p, id, w.conns[p].pending[id]);
    }
  }

  lemma Posts(w: Table, c: nat, device: string, id: string) returns (b: Table)
    requires c !in w.calls && device in w.peers && w.peers[device] in w.conns && w.slots < MAX_SLOTS && id !in w.drawn
    ensures var p := w.peers[device];
            Runs(w, [Look(c, device), TakeSlot(c), Post(c, id)], b) && b.calls == w.calls[c := Call(p, Waiting, id, None)] &&
            b.slots == w.slots + 1 && b.peers == w.peers && b.conns == w.conns[p := w.conns[p].(pending := w.conns[p].pending[id := c])]
  {
    var x := Next(w, Look(c, device));
    var y := Next(x, TakeSlot(c));
    b := Next(y, Post(c, id));
    assert Enabled(w, Look(c, device)) && Enabled(x, TakeSlot(c)) && Enabled(y, Post(c, id));
    assert b.calls == w.calls[c := Call(w.peers[device], Waiting, id, None)];
    hide Enabled, Next;
    RunsOne(y, Post(c, id));
    RunsMore(x, TakeSlot(c), [Post(c, id)], b);
    RunsMore(w, Look(c, device), [TakeSlot(c)] + [Post(c, id)], b);
    assert [Look(c, device)] + ([TakeSlot(c)] + [Post(c, id)]) == [Look(c, device), TakeSlot(c), Post(c, id)];
  }

  lemma {:induction false} RunsJoin(w: Table, first: seq<Step>, m: Table, more: seq<Step>, t: Table)
    requires Runs(w, first, m) && Runs(m, more, t)
    ensures Runs(w, first + more, t)
    decreases |first|
  {
    hide Enabled, Next;
    if first == [] {
      assert first + more == more;
    } else {
      RunsJoin(Next(w, first[0]), first[1..], m, more, t);
      assert (first + more)[1..] == first[1..] + more;
    }
  }
}
