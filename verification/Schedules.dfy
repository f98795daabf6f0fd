// What holds of the two pools, the two lanes and the sessions over every run of every
// connection's opening, receives, sends, departure and cancellations.

module Schedules {
  import opened Basics
  import opened Staging
  import opened Outbox
  import opened Buffers
  import opened Pipes
  import opened PipeLaws
  import opened PipeRuns
  import opened PipeSlots
  import opened Waiters
  import opened Policies
  import Openings

  // An endpoint: what its connections share, every connection by its slot in the driver's
  // table, and which of those slots are in use. What a pipe says of the free send slots
  // counts only while it is being called. speaks: the role speaks first. opening: one that
  // was opened and not committed to, kept for the next caller.
  datatype World = World(
    stock: Stock,
    peers: seq<Pipe>,
    live: set<nat>,
    speaks: bool,
    sessions: nat,
    opening: Option<Openings.Opening>)

  datatype Action =
    | Attempting(i: nat, lent: bool, fails: bool, ending: Ending)  // a receive
    | ReadingOut                                          // a kept chunk has been read
    | Calling(i: nat, a: Pipes.Action)                    // a send call or a completion
    | Registering(kind: Resource, id: Id, commits: bool)  // after a refusal
    | TakingReady
    | Cancelling(target: Id)
    | Offering(i: nat, hello: Option<seq<byte>>, commits: bool)  // an opening is asked for
    | Reconfiguring
    | Leaving(i: nat)                                     // a connection goes

  predicate IsLive(w: World, i: nat) {
    i < |w.peers| && i in w.live
  }

  predicate IsVacant(w: World, i: nat) {
    i < |w.peers| && i !in w.live
  }

  function At(w: World, i: nat): Pipe
    requires i < |w.peers|
  {
    w.peers[i].(free := w.stock.send)
  }

  function Needs(w: World, i: nat, lent: bool): bool
    requires i < |w.peers|
  {
    NeedsSlot(w.peers[i].handshaking, lent, w.peers[i].buffer.Some?)
  }

  function Receive(w: World, i: nat, lent: bool, fails: bool, ending: Ending): World
    requires i < |w.peers|
  {
    var (s, p) := Attempt(w.stock, At(w, i), lent, fails, ending);
    w.(stock := s, peers := w.peers[i := p])
  }

  /** Only completions report a released slot to the driver, which then wakes a waiter. */
  predicate Reports(a: Pipes.Action) {
    a.AfterSending? || a.Settling?
  }

  /** The stock after a send call took its pipe from `p` to `q`. */
  function Charge(s: Stock, p: Pipe, a: Pipes.Action, q: Pipe): Stock {
    var lent := s.tally.lent + if p.buffer.None? && q.buffer.Some? then 1 else 0;
    var t := s.(send := q.free, tally := s.tally.(lent := lent));
    if Reports(a) && p.buffer.Some? && q.buffer.None? then
      t.(waiting := Wake(s.waiting, HandshakeEgress))
    else t
  }

  function Call(ws: nat -> Writer, w: World, i: nat, a: Pipes.Action): World
    requires i < |w.peers|
  {
    var q := Pipes.Step(ws(i), At(w, i), a);
    w.(stock := Charge(w.stock, At(w, i), a, q), peers := w.peers[i := q])
  }

  function DeskOf(w: World): Openings.Desk {
    Openings.Desk(w.sessions, w.stock.send, w.opening)
  }

  /** Send slots that went from one desk to the next are in somebody's hands, and those
      that came back woke nobody. */
  function WithDesk(w: World, d: Openings.Desk): World {
    var t := w.stock.tally;
    var lent := t.lent + if w.stock.send > d.send then w.stock.send - d.send else 0;
    var unlent := t.unlent + if d.send > w.stock.send then d.send - w.stock.send else 0;
    w.(stock := w.stock.(send := d.send, tally := t.(lent := lent, unlent := unlent)),
       sessions := d.sessions, opening := d.kept)
  }

  /** Runtime::open. The caller commits only if it has a slot of the table to put the
      connection in, and otherwise the opening is kept. */
  function Offer(w: World, i: nat, hello: Option<seq<byte>>, commits: bool): World {
    var native := if hello.Some? then Some(Openings.Hello(hello.value)) else None;
    var (d, o) := Openings.Offer(DeskOf(w), w.speaks, native, commits && IsVacant(w, i));
    if o.Committed? && IsVacant(w, i) then
      WithDesk(w, d).(peers := w.peers[i := Openings.PipeOf(o.o)], live := w.live + {i})
    else
      WithDesk(w, d)
  }

  // A slot of the table that nobody has.
  const VACATED: Pipe := Pipe(Outgoing([], [], [], 0), false, None, 0, false, true)

  /** A connection that goes gives back its session and reports the slot it held. */
  function Leave(w: World, i: nat): World
    requires i < |w.peers|
  {
    w.(stock := if w.peers[i].buffer.Some? then ReturnSend(w.stock) else w.stock,
       peers := w.peers[i := VACATED], live := w.live - {i}, sessions := w.sessions + 1)
  }

  function Queued(w: World, a: Waiters.Action): World {
    w.(stock := w.stock.(waiting := Waiters.Step(w.stock.waiting, a)))
  }

  function Step(ws: nat -> Writer, w: World, a: Action): World {
    match a
    case Attempting(i, lent, fails, ending) => if IsLive(w, i) then Receive(w, i, lent, fails, ending) else w
    case ReadingOut => if w.stock.tally.kept == 0 then w else w.(stock := ReleaseChunk(w.stock))
    case Calling(i, c) => if IsLive(w, i) && !c.Receiving? && !c.Elsewhere? then Call(ws, w, i, c) else w
    case Registering(kind, id, commits) => Queued(w, Entering(kind, id, commits))
    case TakingReady => if Servable(w.stock).Some? then Queued(w, Popping(Servable(w.stock).value)) else w
    case Cancelling(target) => Queued(w, Waiters.Action.Cancelling(target))
    case Offering(i, hello, commits) => Offer(w, i, hello, commits)
    case Reconfiguring => if w.speaks then w else WithDesk(w, Openings.Forget(DeskOf(w)))
    case Leaving(i) => if IsLive(w, i) then Leave(w, i) else w
  }

  function Run(ws: nat -> Writer, w: World, actions: seq<Action>): World
    decreases |actions|
  {
    if actions == [] then w else Run(ws, Step(ws, w, actions[0]), actions[1..])
  }

  /** An endpoint that has just been bound. */
  function Bound(recv: nat, send: nat, cap: nat, speaks: bool, sessions: nat): World {
    World(Stock(recv, send, Fresh(cap), Tally(0, 0, 0, 0, 0)), seq(cap, _ => VACATED), {}, speaks, sessions, None)
  }

  // ----- conservation -----

  function Holders(peers: seq<Pipe>): nat {
    if peers == [] then 0 else SlotIn(peers[0]) + Holders(peers[1..])
  }

  lemma {:induction false} HoldersUpdate(peers: seq<Pipe>, i: nat, p: Pipe)
    requires i < |peers|
    ensures Holders(peers[i := p]) == Holders(peers) + SlotIn(p) - SlotIn(peers[i])
  {
    if i == 0 {
      assert peers[0 := p][1..] == peers[1..];
    } else {
      assert peers[i := p][1..] == peers[1..][i - 1 := p];
      HoldersUpdate(peers[1..], i - 1, p);
    }
  }

  lemma {:induction false} NoHolders(peers: seq<Pipe>)
    requires forall i :: 0 <= i < |peers| ==> peers[i].buffer.None?
    ensures Holders(peers) == 0
  {
    if peers != [] { NoHolders(peers[1..]); }
  }

  /** What every connection keeps to, whoever calls it. */
  ghost predicate Tidy(p: Pipe) {
    HoldsForSending(p) && Tight(p.out) && HoldsNothingBack(p)
  }

  /** Send slots in somebody's hands. */
  function Held(w: World): nat {
    Holders(w.peers) + Openings.SlotOf(w.opening)
  }

  /** Every receive slot is free or in a chunk, every send slot free, some connection's or
      the kept opening's. Every receive slot ever taken has woken the receive lane once, or
      is in a chunk, or came back with a dropped transaction; every send slot ever held has
      woken the egress lane once, or is still held, or came back with a dropped transaction
      or a forgotten opening. */
  ghost predicate Conserved(w: World, recv: nat, send: nat) {
    && Balanced(w.stock, Held(w), recv, send)
    && Orderly(w.stock.waiting)
    && (forall i :: 0 <= i < |w.peers| ==> Fits(w, i))
    && (w.opening.Some? ==> Openings.Ready(w.opening.value))
  }

  /** A slot of the table that nobody has holds nothing. */
  ghost predicate Fits(w: World, i: nat)
    requires i < |w.peers|
  {
    Tidy(w.peers[i]) && (i !in w.live ==> w.peers[i].buffer.None?)
  }

  predicate Balanced(s: Stock, holders: nat, recv: nat, send: nat) {
    && s.recv + s.tally.kept == recv
    && s.send + holders == send
    && s.tally.taken == s.waiting.recvWakes + s.tally.kept + s.tally.dropped
    && s.tally.lent == s.waiting.egressWakes + holders + s.tally.unlent
  }

  lemma DischargeKeepsOrder(s: Stock, recv: bool, send: bool)
    requires Orderly(s.waiting)
    ensures Orderly(Discharge(s, recv, send).waiting)
  {
    WakeKeepsOrder(s.waiting, Recv);
    WakeKeepsOrder(s.waiting, HandshakeEgress);
    WakeKeepsOrder(Wake(s.waiting, Recv), HandshakeEgress);
  }

  lemma EndKeepsOrder(t: Stock, b: Pipe, loaned: bool, ending: Ending)
    requires Orderly(t.waiting)
    ensures Orderly(Conclude(t, b, loaned, ending).0.waiting)
  {
    var q := Conclude(t, b, loaned, ending).1;
    var send := loaned && b.buffer.Some? && q.buffer.None?;
    match ending
    case Read(_, _, keeps) => DischargeKeepsOrder(t, !keeps, send);
    case Unread => DischargeKeepsOrder(t, true, send);
    case Dropped =>
  }

  lemma AttemptKeepsOrder(s: Stock, p: Pipe, lent: bool, fails: bool, ending: Ending)
    requires Orderly(s.waiting)
    ensures Orderly(Attempt(s, p, lent, fails, ending).0.waiting)
  {
    var (t, verdict) := Admit(s, NeedsSlot(p.handshaking, lent, p.buffer.Some?), fails);
    if verdict.Admitted? {
      EndKeepsOrder(t, Lent(p, lent), p.handshaking && lent, ending);
    } else {
      WakeKeepsOrder(s.waiting, Recv);
    }
  }

  /** An admitted receive is the pipe's own receive step, and one that is not read leaves
      the pipe as it was. */
  lemma AttemptIsStep(w: Writer, s: Stock, p: Pipe, lent: bool, fails: bool, ending: Ending)
    requires p.free == s.send && HoldsForSending(p)
    ensures var q := Attempt(s, p, lent, fails, ending).1;
            match Admit(s, NeedsSlot(p.handshaking, lent, p.buffer.Some?), fails).1
            case Blocked(_) => q == p
            case Failed => q == p.(failed := true)
            case Admitted =>
              if ending.Read? then q == Pipes.Step(w, p, Pipes.Action.Receiving(ending.rounds, lent, ending.fails))
              else q == p
  {
  }

  function Rest(lane: seq<Credit>): seq<Credit> {
    if lane == [] then [] else lane[1..]
  }

  /** What an admitted receive does to the receive pool and to the lanes. Its slot comes back
      unless it is kept in a chunk; each slot that comes back is told of to whoever has waited
      longest for it; and a transaction that is dropped tells nobody. */
  lemma AdmittedTells(s: Stock, p: Pipe, lent: bool, ending: Ending)
    requires p.free == s.send && s.recv > 0 && (p.handshaking && lent && p.buffer.None? ==> s.send > 0)
    ensures var (t, q) := Attempt(s, p, lent, false, ending);
            var kept := ending.Read? && ending.keeps;
            var told := !kept && !ending.Dropped?;
            var returned := p.handshaking && lent && q.buffer.None? && !ending.Dropped?;
            && t.recv == s.recv - (if kept then 1 else 0)
            && t.tally.kept == s.tally.kept + (if kept then 1 else 0)
            && t.waiting.recv == (if told then Rest(s.waiting.recv) else s.waiting.recv)
            && t.waiting.egress == (if returned then Rest(s.waiting.egress) else s.waiting.egress)
  {
    var b := Lent(p, lent);
    var t := Admit(s, NeedsSlot(p.handshaking, lent, p.buffer.Some?), false).0;
    var q := Conclude(t, b, p.handshaking && lent, ending).1;
    WakeRetries(s.waiting, Recv);
    WakeRetries(s.waiting, HandshakeEgress);
    WakeRetries(Wake(s.waiting, Recv), HandshakeEgress);
  }

  lemma AttemptStaysTidy(w: Writer, s: Stock, p: Pipe, lent: bool, fails: bool, ending: Ending)
    requires p.free == s.send && Tidy(p)
    ensures Tidy(Attempt(s, p, lent, fails, ending).1)
  {
    AttemptIsStep(w, s, p, lent, fails, ending);
    if ending.Read? { StepStaysTidy(w, p, Pipes.Action.Receiving(ending.rounds, lent, ending.fails)); }
  }

  lemma StepStaysTidy(w: Writer, p: Pipe, a: Pipes.Action)
    requires Tidy(p)
    ensures Tidy(Pipes.Step(w, p, a))
  {
    NothingStranded(w, p, a);
    StepHoldsNothingBack(w, p, a);
    StepEvolves(w, p, a);
    BeforeIsTight(p, a);
  }

  lemma BeforeIsTight(p: Pipe, a: Pipes.Action)
    requires Tight(p.out)
    ensures Tight(PipeLaws.Before(p, a).out)
  {
  }

  /** While a transaction is open, one receive slot is out on its account. */
  predicate BalancedOpen(t: Stock, holders: nat, recv: nat, send: nat) {
    && t.recv + 1 + t.tally.kept == recv
    && t.send + holders == send
    && t.tally.taken == t.waiting.recvWakes + t.tally.kept + t.tally.dropped + 1
    && t.tally.lent == t.waiting.egressWakes + holders + t.tally.unlent
  }

  lemma DischargeBalances(t: Stock, keeps: bool, send: bool, holders: nat, all: nat, recv: nat)
    requires BalancedOpen(t, holders + if send then 1 else 0, recv, all)
    ensures Balanced(Discharge(t, !keeps, send), holders, recv, all)
  {
  }

  lemma EndBalances(t: Stock, b: Pipe, loaned: bool, ending: Ending, others: nat, recv: nat, send: nat)
    requires b.free == t.send && BalancedOpen(t, others + SlotIn(b), recv, send)
    ensures var (u, q) := Conclude(t, b, loaned, ending);
            Balanced(u, others + SlotIn(q), recv, send) && q.free == u.send
  {
    var q := Conclude(t, b, loaned, ending).1;
    var back := loaned && b.buffer.Some? && q.buffer.None?;
    match ending
    case Read(_, _, keeps) => DischargeBalances(t, keeps, back, others + SlotIn(q), send, recv);
    case Unread => DischargeBalances(t, false, back, others + SlotIn(q), send, recv);
    case Dropped =>
  }

  lemma AttemptBalances(s: Stock, p: Pipe, lent: bool, fails: bool, ending: Ending, others: nat, recv: nat, send: nat)
    requires p.free == s.send && Balanced(s, others + SlotIn(p), recv, send)
    ensures var (t, q) := Attempt(s, p, lent, fails, ending);
            Balanced(t, others + SlotIn(q), recv, send) && q.free == t.send
  {
    var (t, verdict) := Admit(s, NeedsSlot(p.handshaking, lent, p.buffer.Some?), fails);
    if verdict.Admitted? {
      EndBalances(t, Lent(p, lent), p.handshaking && lent, ending, others, recv, send);
    }
  }

  lemma CallBalances(w: Writer, s: Stock, p: Pipe, a: Pipes.Action, others: nat, recv: nat, send: nat)
    requires p.free == s.send && HoldsForSending(p) && Balanced(s, others + SlotIn(p), recv, send)
    requires !a.Receiving? && !a.Elsewhere?
    ensures var q := Pipes.Step(w, p, a);
            Balanced(Charge(s, p, a, q), others + SlotIn(q), recv, send)
  {
    CallKeepsSlots(w, p, a);
  }

  /** `q` comes in place of one connection, or goes, or stays. */
  lemma Reseated(w: World, v: World, i: nat, q: Pipe, recv: nat, send: nat)
    requires i < |w.peers| && Conserved(w, recv, send)
    requires v.peers == w.peers[i := q] && Tidy(q) && (i in v.live || q.buffer.None?)
    requires v.live - {i} == w.live - {i} && Orderly(v.stock.waiting)
    requires v.opening.Some? ==> Openings.Ready(v.opening.value)
    requires Holders(w.peers) >= SlotIn(w.peers[i]) ==>
      Balanced(v.stock, Holders(w.peers) - SlotIn(w.peers[i]) + SlotIn(q) + Openings.SlotOf(v.opening), recv, send)
    ensures Conserved(v, recv, send)
  {
    HoldersUpdate(w.peers, i, q);
    Counted(w.peers, i);
    forall j | 0 <= j < |v.peers|
      ensures Fits(v, j)
    {
      assert Fits(w, j) && (j != i ==> (j in v.live - {i} <==> j in w.live - {i}));
    }
  }

  lemma {:induction false} Counted(peers: seq<Pipe>, i: nat)
    requires i < |peers|
    ensures Holders(peers) >= SlotIn(peers[i])
  {
    if i > 0 { Counted(peers[1..], i - 1); }
  }

  lemma AtIsTidy(w: World, i: nat)
    requires i < |w.peers| && Fits(w, i)
    ensures Tidy(At(w, i)) && SlotIn(At(w, i)) == SlotIn(w.peers[i])
  {
  }

  lemma ReceiveConserves(w: World, i: nat, lent: bool, fails: bool, ending: Ending, wr: Writer,
                         recv: nat, send: nat)
    requires IsLive(w, i) && Conserved(w, recv, send)
    ensures Conserved(Receive(w, i, lent, fails, ending), recv, send)
  {
    var (s, q) := Attempt(w.stock, At(w, i), lent, fails, ending);
    AtIsTidy(w, i);
    Counted(w.peers, i);
    AttemptKeepsOrder(w.stock, At(w, i), lent, fails, ending);
    AttemptStaysTidy(wr, w.stock, At(w, i), lent, fails, ending);
    AttemptBalances(w.stock, At(w, i), lent, fails, ending, Held(w) - SlotIn(w.peers[i]), recv, send);
    Reseated(w, Receive(w, i, lent, fails, ending), i, q, recv, send);
  }

  lemma CallConserves(ws: nat -> Writer, w: World, i: nat, a: Pipes.Action, recv: nat, send: nat)
    requires IsLive(w, i) && Conserved(w, recv, send) && !a.Receiving? && !a.Elsewhere?
    ensures Conserved(Call(ws, w, i, a), recv, send)
  {
    var q := Pipes.Step(ws(i), At(w, i), a);
    AtIsTidy(w, i);
    Counted(w.peers, i);
    WakeKeepsOrder(w.stock.waiting, HandshakeEgress);
    StepStaysTidy(ws(i), At(w, i), a);
    CallBalances(ws(i), w.stock, At(w, i), a, Held(w) - SlotIn(w.peers[i]), recv, send);
    Reseated(w, Call(ws, w, i, a), i, q, recv, send);
  }

  /** The send slots of two desks, and those of an opening handed over. */
  lemma WithDeskBalances(w: World, d: Openings.Desk, given: nat, recv: nat, send: nat)
    requires Balanced(w.stock, Held(w), recv, send)
    requires d.send + Openings.SlotOf(d.kept) + given == w.stock.send + Openings.SlotOf(w.opening)
    requires d.send <= w.stock.send || given == 0
    ensures Balanced(WithDesk(w, d).stock, Held(WithDesk(w, d)) + given, recv, send)
  {
  }

  lemma Seated(w: World, m: World, i: nat, o: Openings.Opening, recv: nat, send: nat)
    requires Conserved(w, recv, send) && IsVacant(w, i) && Openings.Ready(o)
    requires m.peers == w.peers && m.live == w.live && Orderly(m.stock.waiting)
    requires m.opening.Some? ==> Openings.Ready(m.opening.value)
    requires Balanced(m.stock, Held(m) + Openings.SlotOf(Some(o)), recv, send)
    ensures Conserved(m.(peers := w.peers[i := Openings.PipeOf(o)], live := w.live + {i}), recv, send)
  {
    assert Fits(w, i) && SlotIn(w.peers[i]) == 0;
    Reseated(w, m.(peers := w.peers[i := Openings.PipeOf(o)], live := w.live + {i}), i, Openings.PipeOf(o), recv, send);
  }

  lemma OfferConserves(w: World, i: nat, hello: Option<seq<byte>>, commits: bool, recv: nat, send: nat)
    requires Conserved(w, recv, send)
    ensures Conserved(Offer(w, i, hello, commits), recv, send)
  {
    var native := if hello.Some? then Some(Openings.Hello(hello.value)) else None;
    var takes := commits && IsVacant(w, i);
    var (d, o) := Openings.Offer(DeskOf(w), w.speaks, native, takes);
    var m := WithDesk(w, d);
    Openings.OfferMoves(DeskOf(w), w.speaks, native, takes);
    Openings.OfferIsReady(DeskOf(w), w.speaks, hello, takes);
    if o.Committed? {
      WithDeskBalances(w, d, Openings.SlotOf(Some(o.o)), recv, send);
      Seated(w, m, i, o.o, recv, send);
    } else {
      WithDeskBalances(w, d, 0, recv, send);
      SameSeats(w, m, recv, send);
    }
  }

  lemma SameSeats(w: World, m: World, recv: nat, send: nat)
    requires Conserved(w, recv, send)
    requires m.peers == w.peers && m.live == w.live && Orderly(m.stock.waiting)
    requires m.opening.Some? ==> Openings.Ready(m.opening.value)
    requires Balanced(m.stock, Held(m), recv, send)
    ensures Conserved(m, recv, send)
  {
    forall j | 0 <= j < |m.peers|
      ensures Fits(m, j)
    {
      assert Fits(w, j);
    }
  }

  lemma ForgetConserves(w: World, recv: nat, send: nat)
    requires Conserved(w, recv, send)
    ensures Conserved(WithDesk(w, Openings.Forget(DeskOf(w))), recv, send)
  {
    var d := Openings.Forget(DeskOf(w));
    WithDeskBalances(w, d, 0, recv, send);
    SameSeats(w, WithDesk(w, d), recv, send);
  }

  lemma SlotComesBack(s: Stock, p: Pipe, held: nat, recv: nat, send: nat) returns (t: Stock)
    requires Balanced(s, held, recv, send) && held >= SlotIn(p) && Orderly(s.waiting)
    ensures t == if p.buffer.Some? then ReturnSend(s) else s
    ensures Balanced(t, held - SlotIn(p), recv, send) && Orderly(t.waiting)
  {
    WakeKeepsOrder(s.waiting, HandshakeEgress);
    t := if p.buffer.Some? then ReturnSend(s) else s;
  }

  lemma LeaveConserves(w: World, i: nat, recv: nat, send: nat)
    requires IsLive(w, i) && Conserved(w, recv, send)
    ensures Conserved(Leave(w, i), recv, send)
  {
    Counted(w.peers, i);
    var s := SlotComesBack(w.stock, w.peers[i], Held(w), recv, send);
    Reseated(w, Leave(w, i), i, VACATED, recv, send);
  }

  lemma QueuedConserves(w: World, a: Waiters.Action, recv: nat, send: nat)
    requires Conserved(w, recv, send) && !a.Waking?
    ensures Conserved(Queued(w, a), recv, send)
  {
    StepKeepsOrder(w.stock.waiting, a);
    SameSeats(w, Queued(w, a), recv, send);
  }

  lemma ReadingOutConserves(w: World, recv: nat, send: nat)
    requires Conserved(w, recv, send) && w.stock.tally.kept > 0
    ensures Conserved(w.(stock := ReleaseChunk(w.stock)), recv, send)
  {
    WakeKeepsOrder(w.stock.waiting, Recv);
    SameSeats(w, w.(stock := ReleaseChunk(w.stock)), recv, send);
  }

  lemma SeatStepConserves(ws: nat -> Writer, w: World, a: Action, recv: nat, send: nat)
    requires Conserved(w, recv, send) && (a.Attempting? || a.Leaving?)
    ensures Conserved(Step(ws, w, a), recv, send)
  {
    if !IsLive(w, a.i) {
      assert Step(ws, w, a) == w;
    } else if a.Leaving? {
      assert Step(ws, w, a) == Leave(w, a.i);
      LeaveConserves(w, a.i, recv, send);
    } else {
      assert Step(ws, w, a) == Receive(w, a.i, a.lent, a.fails, a.ending);
      ReceiveConserves(w, a.i, a.lent, a.fails, a.ending, ws(a.i), recv, send);
    }
  }

  lemma CallStepConserves(ws: nat -> Writer, w: World, i: nat, a: Pipes.Action, recv: nat, send: nat)
    requires Conserved(w, recv, send)
    ensures Conserved(Step(ws, w, Calling(i, a)), recv, send)
  {
    if IsLive(w, i) && !a.Receiving? && !a.Elsewhere? {
      assert Step(ws, w, Calling(i, a)) == Call(ws, w, i, a);
      CallConserves(ws, w, i, a, recv, send);
    } else {
      assert Step(ws, w, Calling(i, a)) == w;
    }
  }

  lemma StepConserves(ws: nat -> Writer, w: World, a: Action, recv: nat, send: nat)
    requires Conserved(w, recv, send)
    ensures Conserved(Step(ws, w, a), recv, send)
  {
    match a
    case ReadingOut => if w.stock.tally.kept > 0 { ReadingOutConserves(w, recv, send); }
    case Registering(kind, id, commits) => QueuedConserves(w, Entering(kind, id, commits), recv, send);
    case TakingReady =>
      if Servable(w.stock).Some? { QueuedConserves(w, Popping(Servable(w.stock).value), recv, send); }
    case Cancelling(target) => QueuedConserves(w, Waiters.Action.Cancelling(target), recv, send);
    case Offering(i, hello, commits) => OfferConserves(w, i, hello, commits, recv, send);
    case Reconfiguring => if !w.speaks { ForgetConserves(w, recv, send); }
    case Calling(i, c) => CallStepConserves(ws, w, i, c, recv, send);
    case _ => SeatStepConserves(ws, w, a, recv, send);
  }

  lemma {:induction false} EveryRunConserves(ws: nat -> Writer, w: World, actions: seq<Action>, recv: nat, send: nat)
    requires Conserved(w, recv, send)
    ensures Conserved(Run(ws, w, actions), recv, send)
    decreases |actions|
  {
    if actions != [] {
      StepConserves(ws, w, actions[0], recv, send);
      EveryRunConserves(ws, Step(ws, w, actions[0]), actions[1..], recv, send);
    }
  }

  lemma BoundConserves(recv: nat, send: nat, cap: nat, speaks: bool, sessions: nat)
    ensures Conserved(Bound(recv, send, cap, speaks, sessions), recv, send)
  {
    NoHolders(Bound(recv, send, cap, speaks, sessions).peers);
    assert Credits([]) == [] && All(Fresh(cap)) == [];
  }

  /** Sessions out are the slots of the table in use and the kept opening. */
  ghost predicate SessionsBalance(w: World, sessions: nat) {
    w.sessions + |w.live| + Openings.One(w.opening) == sessions
  }

  lemma OfferKeepsSessions(w: World, i: nat, hello: Option<seq<byte>>, commits: bool, sessions: nat)
    requires SessionsBalance(w, sessions)
    ensures SessionsBalance(Offer(w, i, hello, commits), sessions)
  {
    var native := if hello.Some? then Some(Openings.Hello(hello.value)) else None;
    Openings.OfferMoves(DeskOf(w), w.speaks, native, commits && IsVacant(w, i));
  }

  lemma StepKeepsSessions(ws: nat -> Writer, w: World, a: Action, sessions: nat)
    requires SessionsBalance(w, sessions)
    ensures SessionsBalance(Step(ws, w, a), sessions)
  {
    var v := Step(ws, w, a);
    if a.Offering? {
      assert v == Offer(w, a.i, a.hello, a.commits);
      OfferKeepsSessions(w, a.i, a.hello, a.commits, sessions);
    } else if a.Leaving? {
      assert v == if IsLive(w, a.i) then Leave(w, a.i) else w;
    } else if a.Reconfiguring? {
      assert v == if w.speaks then w else WithDesk(w, Openings.Forget(DeskOf(w)));
    } else {
      assert v.sessions == w.sessions && v.live == w.live && v.opening == w.opening;
    }
  }

  lemma {:induction false} EveryRunKeepsSessions(ws: nat -> Writer, w: World, actions: seq<Action>, sessions: nat)
    requires SessionsBalance(w, sessions)
    ensures SessionsBalance(Run(ws, w, actions), sessions)
    decreases |actions|
  {
    if actions != [] {
      StepKeepsSessions(ws, w, actions[0], sessions);
      EveryRunKeepsSessions(ws, Step(ws, w, actions[0]), actions[1..], sessions);
    }
  }

  predicate LaneFree(s: Stock, kind: Resource) {
    s.recv != 0 && (kind.HandshakeEgress? ==> s.send != 0)
  }

  /** A refused receive keeps nothing: both pools are as before, the connection too unless
      it failed, and the only waiter that moves is the one told of the slot that went back.
      And it is refused only for a lane that is not free. */
  lemma RefusedKeepsNothing(s: Stock, p: Pipe, lent: bool, fails: bool, ending: Ending)
    requires !Admit(s, NeedsSlot(p.handshaking, lent, p.buffer.Some?), fails).1.Admitted?
    ensures var verdict := Admit(s, NeedsSlot(p.handshaking, lent, p.buffer.Some?), fails).1;
            var (t, q) := Attempt(s, p, lent, fails, ending);
            && t.recv == s.recv && t.send == s.send && t.tally.kept == s.tally.kept
            && q == (if verdict.Failed? then p.(failed := true) else p)
            && t.waiting.egress == s.waiting.egress
            && t.waiting.recv ==
               (if s.recv > 0 && verdict == Blocked(HandshakeEgress) then Rest(s.waiting.recv) else s.waiting.recv)
            && (verdict.Blocked? ==> !LaneFree(s, verdict.kind))
  {
    WakeRetries(s.waiting, Recv);
  }

  // ----- no lost wakeups -----

  /** Over every run, wherever earlier wakes went and whatever was cancelled: while anyone
      waits, someone is reported ready, or else a chunk still has to be read or some
      connection holds a send slot, and either of these will wake someone when it is over;
      or the kept opening holds one. Someone is reported exactly if someone waits in a free
      lane, and that one has waited longest there. */
  lemma NoLostWakeups(ws: nat -> Writer, w: World, actions: seq<Action>, recv: nat, send: nat)
    requires Conserved(w, recv, send) && recv > 0 && send > 0
    ensures var v := Run(ws, w, actions);
            var s := v.stock;
            && (All(s.waiting) != [] ==>
                  Servable(s).Some? || s.tally.kept > 0 || Holders(v.peers) > 0 || Openings.SlotOf(v.opening) > 0)
            && (Servable(s).Some? <==> exists kind :: Lane(s.waiting, kind) != [] && LaneFree(s, kind))
            && (Servable(s).Some? ==> IsFirst(Lane(s.waiting, Servable(s).value)))
  {
    EveryRunConserves(ws, w, actions, recv, send);
    var s := Run(ws, w, actions).stock;
    assert Lane(s.waiting, Recv) == s.waiting.recv && Lane(s.waiting, HandshakeEgress) == s.waiting.egress;
    if Servable(s).Some? { FrontIsFirst(s.waiting, Servable(s).value); }
  }

  ghost predicate IsFirst(lane: seq<Credit>) {
    lane != [] && forall j :: 0 < j < |lane| ==> lane[0].ticket < lane[j].ticket
  }

  lemma FrontIsFirst(q: Waiting, kind: Resource)
    requires Orderly(q) && Lane(q, kind) != []
    ensures IsFirst(Lane(q, kind))
  {
    var lane := Lane(q, kind);
    var n := |Served(q.settled, kind)|;
    forall j | 0 < j < |lane|
      ensures lane[0].ticket < lane[j].ticket
    {
      assert Waiters.Before(Waiters.Line(q, kind), n, n + j);
    }
  }

  /** But a waiter's own receive would sometimes be admitted while nothing is reported
      ready: exactly when it waits for a send slot it no longer needs, the send pool is
      empty, a receive slot is free, and no one waits for that. */
  lemma StalledExactly(w: World, kind: Resource, k: nat, lent: bool)
    requires k < |Lane(w.stock.waiting, kind)| && Lane(w.stock.waiting, kind)[k].id.index < |w.peers|
    ensures var i := Lane(w.stock.waiting, kind)[k].id.index;
            (Admit(w.stock, Needs(w, i, lent), false).1.Admitted? && Servable(w.stock).None?) <==>
            (kind.HandshakeEgress? && !Needs(w, i, lent) && w.stock.send == 0 && w.stock.recv != 0 &&
             w.stock.waiting.recv == [])
  {
  }

  // A connection in its handshake whose engine is idle.
  const IDLE: Pipe := Pipe(Outgoing([], [], [], 0), true, None, 0, false, false)

  function Closed(w: Writer, free: nat): Pipe
    requires |w.notify| <= TLS_STAGING_CAP
  {
    IDLE.(out := Outgoing([], [], [Item.Closing(w.notify)], 0), free := free, localClosed := true,
          buffer := Some(Cursor(0, w.notify)))
  }

  lemma CloseTakes(w: Writer, free: nat)
    requires 0 < |w.notify| <= TLS_STAGING_CAP && free > 0
    ensures Close(w, IDLE.(free := free)).0 == Closed(w, free - 1)
  {
    var o := SendCloseNotify(w, IDLE.out);
    assert o == Outgoing([w.notify], [], [Item.Closing(w.notify)], 0);
    FlattenOne(w.notify);
    assert Moved(o, VACANT) == |w.notify|;
    assert DropBytes(o.pending, |w.notify|) == DropBytes(o.pending[1..], 0) == [];
    assert GiveTo(o, VACANT).bytes == [] + w.notify == w.notify;
    var b := WithBuffer(IDLE.(free := free)).value;
    assert QueueClose(w, b) == b.(localClosed := true, out := o);
    assert Transfer(QueueClose(w, b)) == Closed(w, free - 1);
  }

  lemma CompletionFrees(w: Writer, free: nat)
    requires 0 < |w.notify| <= TLS_STAGING_CAP
    ensures AfterSend(Closed(w, free), |w.notify|).0 == Closed(w, free + 1).(buffer := None)
  {
    var a := Advanced(Closed(w, free), |w.notify|);
    assert a == Closed(w, free).(buffer := Some(VACANT));
    assert TakeFrom(a.out, VACANT) == a.out && GiveTo(a.out, VACANT) == VACANT;
  }

  // Three connections arrive at a server.
  const ARRIVALS: seq<Action> :=
    [Offering(0, Some([]), true), Offering(1, Some([]), true), Offering(2, Some([]), true)]

  const START: World :=
    World(Stock(1, 1, Fresh(3), Tally(0, 0, 0, 0, 0)), [IDLE, IDLE, IDLE], {0, 1, 2}, false, 0, None)

  lemma Arrive(ws: nat -> Writer)
    ensures Run(ws, Bound(1, 1, 3, false, 3), ARRIVALS) == START
  {
    var a := Offer(Bound(1, 1, 3, false, 3), 0, Some([]), true);
    assert a == START.(peers := [IDLE, VACATED, VACATED], live := {0}, sessions := 2);
    var b := Offer(a, 1, Some([]), true);
    assert b == START.(peers := [IDLE, IDLE, VACATED], live := {0, 1}, sessions := 1);
    assert Offer(b, 2, Some([]), true) == START;
    assert ARRIVALS[1..] == [Offering(1, Some([]), true), Offering(2, Some([]), true)];
    assert ARRIVALS[1..][1..] == [Offering(2, Some([]), true)];
    assert Run(ws, START, []) == START;
  }

  /** A connection in its handshake is refused for want of a send slot, and parks. */
  function Park(ws: nat -> Writer, w: World, i: nat): World {
    Step(ws, Step(ws, w, Attempting(i, true, false, Unread)), Registering(HandshakeEgress, Id(i, 0), true))
  }

  lemma BothPark(ws: nat -> Writer, w: World)
    requires w.stock == Stock(1, 0, Fresh(3), Tally(0, 0, 0, 1, 0))
    requires |w.peers| == 3 && w.peers[1] == IDLE && w.peers[2] == IDLE && w.live == {0, 1, 2}
    ensures var v := Park(ws, Park(ws, w, 1), 2);
            && v.peers == w.peers && v.live == w.live && v.stock.recv == 1 && v.stock.send == 0
            && v.stock.waiting.recv == []
            && v.stock.waiting.egress == [Credit(Id(1, 0), 0), Credit(Id(2, 0), 1)]
  {
    var a := Step(ws, w, Attempting(1, true, false, Unread));
    assert a.peers == w.peers && a.stock.waiting == Wake(Fresh(3), Recv);
    var b := Park(ws, w, 1);
    assert b.peers == w.peers && b.stock.waiting.egress == [Credit(Id(1, 0), 0)] && |b.stock.waiting.claimed| == 1;
    var c := Step(ws, b, Attempting(2, true, false, Unread));
    assert c.peers == w.peers && c.stock.waiting == Wake(b.stock.waiting, Recv);
  }

  /** It happens, by way of a close. Two connections wait for the one send slot, which a
      third holds to send its close_notify; it comes back and wakes the first of them, but
      the second, closing its side, takes it. */
  lemma StallHappens(ws: nat -> Writer)
    requires forall i: nat :: 0 < |ws(i).notify| <= TLS_STAGING_CAP
    ensures var start := Run(ws, Bound(1, 1, 3, false, 3), ARRIVALS);
            var held := Step(ws, start, Calling(0, Pipes.Action.Closing));
            var parked := Park(ws, Park(ws, held, 1), 2);
            var woken := Step(ws, parked, Calling(0, AfterSending(|ws(0).notify|)));
            var r := Step(ws, woken, Calling(2, Pipes.Action.Closing));
            && parked.stock.waiting.egress == [Credit(Id(1, 0), 0), Credit(Id(2, 0), 1)]
            && r.stock.waiting.egress == [Credit(Id(2, 0), 1)] && |r.peers| == 3
            && Servable(r.stock).None? && Admit(r.stock, Needs(r, 2, true), false).1.Admitted?
  {
    var held := Step(ws, START, Calling(0, Pipes.Action.Closing));
    Arrive(ws);
    CloseTakes(ws(0), 1);
    assert held ==
      START.(stock := Stock(1, 0, Fresh(3), Tally(0, 0, 0, 1, 0)), peers := [Closed(ws(0), 0), IDLE, IDLE]);
    BothPark(ws, held);
    var parked := Park(ws, Park(ws, held, 1), 2);
    CompletionFrees(ws(0), 0);
    var woken := Step(ws, parked, Calling(0, AfterSending(|ws(0).notify|)));
    assert woken.peers[2] == IDLE && woken.stock.send == 1 && woken.stock.waiting.egress == [Credit(Id(2, 0), 1)];
    CloseTakes(ws(2), 1);
  }

  /** It lasts until a send slot comes back: then whoever is still in that lane is reported,
      if nobody waits for a receive slot. */
  lemma StallEnds(s: Stock)
    requires s.recv != 0 && s.waiting.recv == []
    ensures var r := ReturnSend(s); r.waiting.egress == [] || Servable(r) == Some(HandshakeEgress)
  {
  }

  // ----- giving up -----

  /** A connection that goes leaves its slot of the table free, and its session and its send
      slot come back, the latter told of in the egress lane. */
  lemma LeavingGivesUp(ws: nat -> Writer, w: World, i: nat)
    requires IsLive(w, i)
    ensures var v := Step(ws, w, Leaving(i));
            && v.live == w.live - {i} && v.sessions == w.sessions + 1 && v.opening == w.opening
            && |v.peers| == |w.peers| && v.peers[i].buffer.None?
            && (forall j :: 0 <= j < |w.peers| && j != i ==> v.peers[j] == w.peers[j])
            && v.stock.recv == w.stock.recv && v.stock.waiting.recv == w.stock.waiting.recv
            && v.stock.send == w.stock.send + SlotIn(w.peers[i])
            && v.stock.waiting.egress ==
               (if w.peers[i].buffer.Some? then Rest(w.stock.waiting.egress) else w.stock.waiting.egress)
  {
    WakeRetries(w.stock.waiting, HandshakeEgress);
  }

  /** A server that is reconfigured keeps no opening, and what that held comes back without
      anyone being told. A client is not reconfigured. */
  lemma ReconfiguringForgets(ws: nat -> Writer, w: World)
    ensures var v := Step(ws, w, Reconfiguring);
            && v.stock.waiting == w.stock.waiting && v.peers == w.peers && v.live == w.live
            && (w.speaks ==> v == w)
            && (!w.speaks ==> v.opening.None? && v.sessions == w.sessions + Openings.One(w.opening) &&
                              v.stock.send == w.stock.send + Openings.SlotOf(w.opening))
  {
  }

  /** A cancel takes out the one it names, if it waits, and nobody else. */
  lemma CancellingTakesOut(ws: nat -> Writer, w: World, target: Id)
    requires Orderly(w.stock.waiting)
    ensures var v := Step(ws, w, Action.Cancelling(target));
            && Ids(All(v.stock.waiting)) == Ids(All(w.stock.waiting)) - {target}
            && v == w.(stock := w.stock.(waiting := v.stock.waiting))
  {
    CancelIsExact(w.stock.waiting, target);
  }

  // ----- what becomes of those who wait -----

  predicate GivesBack(a: Action) {
    a.Attempting? || a.ReadingOut? || (a.Calling? && (a.a.AfterSending? || a.a.Settling?)) || a.Leaving?
  }

  /** What lets go of a waiter in this way: a cancel that names it, or the drop of its own
      registration; a report of who is ready; or an action that can give a slot back. */
  predicate Causes(a: Action, s: Settlement) {
    match s.fate
    case Cancelled => a == Action.Cancelling(s.credit.id) || a == Registering(s.lane, s.credit.id, false)
    case Taken => a == TakingReady
    case Retried => GivesBack(a)
  }

  /** The settlements from `q` to `r` are all of this cause. */
  ghost predicate CausedBy(a: Action, q: Waiting, r: Waiting) {
    q.settled <= r.settled && forall i :: |q.settled| <= i < |r.settled| ==> Causes(a, r.settled[i])
  }

  lemma WakeCaused(a: Action, q: Waiting, kind: Resource)
    requires GivesBack(a)
    ensures CausedBy(a, q, Wake(q, kind))
  {
    WakeRetries(q, kind);
  }

  lemma CausedTwice(a: Action, q: Waiting, m: Waiting, r: Waiting)
    requires CausedBy(a, q, m) && CausedBy(a, m, r)
    ensures CausedBy(a, q, r)
  {
  }

  lemma DischargeCaused(a: Action, s: Stock, recv: bool, send: bool)
    requires a.Attempting?
    ensures CausedBy(a, s.waiting, Discharge(s, recv, send).waiting)
  {
    var m := Discharge(s, recv, false).waiting;
    WakeCaused(a, s.waiting, Recv);
    WakeCaused(a, m, HandshakeEgress);
    CausedTwice(a, s.waiting, m, Discharge(s, recv, send).waiting);
  }

  lemma ReceiveCaused(a: Action, s: Stock, p: Pipe, lent: bool, fails: bool, ending: Ending)
    requires a.Attempting?
    ensures CausedBy(a, s.waiting, Attempt(s, p, lent, fails, ending).0.waiting)
  {
    var (t, verdict) := Admit(s, NeedsSlot(p.handshaking, lent, p.buffer.Some?), fails);
    WakeCaused(a, s.waiting, Recv);
    if verdict.Admitted? {
      var loan := p.handshaking && lent && Lent(p, lent).buffer.Some?;
      var q := Conclude(t, Lent(p, lent), p.handshaking && lent, ending).1;
      match ending
      case Read(_, _, keeps) => DischargeCaused(a, t, !keeps, loan && q.buffer.None?);
      case Unread => DischargeCaused(a, t, true, loan && q.buffer.None?);
      case Dropped =>
    }
  }

  lemma QueuedCaused(a: Action, q: Waiting)
    requires a.Registering? || a.Cancelling?
    ensures match a
            case Registering(kind, id, commits) => CausedBy(a, q, Waiters.Step(q, Entering(kind, id, commits)))
            case Cancelling(target) => CausedBy(a, q, Cancel(q, target))
            case _ => true
  {
    if a.Registering? && CanEnter(q, a.id.index) && !a.commits { DroppedRegistration(q, a.kind, a.id); }
  }

  lemma StepCaused(ws: nat -> Writer, w: World, a: Action)
    ensures CausedBy(a, w.stock.waiting, Step(ws, w, a).stock.waiting)
  {
    var q, r := w.stock.waiting, Step(ws, w, a).stock.waiting;
    match a
    case Attempting(i, lent, fails, ending) =>
      if IsLive(w, i) {
        assert r == Receive(w, i, lent, fails, ending).stock.waiting;
        ReceiveCaused(a, w.stock, At(w, i), lent, fails, ending);
      }
    case ReadingOut => WakeCaused(a, q, Recv);
    case Calling(i, c) =>
      assert r == q || (Reports(c) && r == Wake(q, HandshakeEgress));
      if Reports(c) { WakeCaused(a, q, HandshakeEgress); }
    case Registering(kind, id, commits) => QueuedCaused(a, q);
    case TakingReady => if Servable(w.stock).Some? { PopLetsGo(q, Servable(w.stock).value, Taken); }
    case Cancelling(target) => QueuedCaused(a, q);
    case Offering(i, hello, commits) => assert r == q;
    case Reconfiguring => assert r == q;
    case Leaving(i) => WakeCaused(a, q, HandshakeEgress);
  }

  /** Over every run a waiter is cancelled only by a cancel that names it or by the drop of
      its own registration, taken only when it is reported ready, and told to retry only
      when a slot came back. */
  lemma {:induction false} EverySettlementHasItsCause(ws: nat -> Writer, w: World, actions: seq<Action>, i: nat)
    requires |w.stock.waiting.settled| <= i < |Run(ws, w, actions).stock.waiting.settled|
    ensures exists a :: a in actions && Causes(a, Run(ws, w, actions).stock.waiting.settled[i])
    decreases |actions|
  {
    if actions != [] {
      var m := Step(ws, w, actions[0]);
      StepCaused(ws, w, actions[0]);
      if i < |m.stock.waiting.settled| {
        SettledStays(ws, m, actions[1..]);
        assert actions[0] in actions;
      } else {
        EverySettlementHasItsCause(ws, m, actions[1..], i);
      }
    }
  }

  lemma {:induction false} SettledStays(ws: nat -> Writer, w: World, actions: seq<Action>)
    ensures w.stock.waiting.settled <= Run(ws, w, actions).stock.waiting.settled
    decreases |actions|
  {
    if actions != [] {
      StepCaused(ws, w, actions[0]);
      SettledStays(ws, Step(ws, w, actions[0]), actions[1..]);
    }
  }

  // ----- the kept opening -----

  /** The other way in which a waiter goes unreported, exactly. With every chunk read and no
      connection holding a send slot, someone waits and nobody is reported if and only if
      all of them wait for a send slot and the kept opening holds the only one. */
  lemma StrandedExactly(w: World, recv: nat, send: nat)
    requires Conserved(w, recv, send) && recv > 0 && send > 0
    requires w.stock.tally.kept == 0 && Holders(w.peers) == 0
    ensures (All(w.stock.waiting) != [] && Servable(w.stock).None?) <==>
            (w.stock.waiting.recv == [] && w.stock.waiting.egress != [] && send == Openings.SlotOf(w.opening))
  {
  }

  /** The connection of a client that has sent its hello and waits for the answer. */
  function Greeted(hello: seq<byte>): Pipe {
    IDLE.(out := Outgoing([], [], [Reply(hello)], 0))
  }

  lemma HelloGoesOut(hello: seq<byte>, free: nat)
    requires 0 < |hello| <= TLS_STAGING_CAP
    ensures var o := Openings.Opening(Greeted(hello).out, Some(Cursor(0, hello)));
            && Openings.Start(Openings.Hello(hello), true) == Some(o)
            && AfterSend(Openings.PipeOf(o).(free := free), |hello|).0 == Greeted(hello).(free := free + 1)
  {
    var out := Openings.Hello(hello);
    FlattenOne(hello);
    assert Moved(out, VACANT) == |hello|;
    assert DropBytes(out.pending, |hello|) == DropBytes(out.pending[1..], 0) == [];
    assert GiveTo(out, VACANT).bytes == [] + hello == hello;
    var a := Advanced(Openings.PipeOf(Openings.Opening(Greeted(hello).out, Some(Cursor(0, hello)))), |hello|);
    assert a.buffer == Some(VACANT);
    assert TakeFrom(a.out, VACANT) == a.out && GiveTo(a.out, VACANT) == VACANT;
  }

  // A client's endpoint with one send slot, when its first connection has sent its hello.
  function Greeting(hello: seq<byte>): World {
    World(Stock(1, 1, Fresh(2).(egressWakes := 1), Tally(0, 0, 0, 1, 0)), [Greeted(hello).(free := 1), VACATED],
          {0}, true, 1, None)
  }

  lemma Greets(ws: nat -> Writer, hello: seq<byte>)
    requires 0 < |hello| <= TLS_STAGING_CAP
    ensures var first := Step(ws, Bound(1, 1, 2, true, 2), Offering(0, Some(hello), true));
            Step(ws, first, Calling(0, AfterSending(|hello|))) == Greeting(hello)
  {
    var first := Offer(Bound(1, 1, 2, true, 2), 0, Some(hello), true);
    HelloGoesOut(hello, 0);
    assert first.peers == [first.peers[0], VACATED] && first.live == {0};
    assert Call(ws, first, 0, AfterSending(|hello|)) == Greeting(hello);
  }

  lemma KeepsTheSlot(hello: seq<byte>)
    requires 0 < |hello| <= TLS_STAGING_CAP
    ensures var kept := Offer(Greeting(hello), 1, Some(hello), false);
            && kept.peers == Greeting(hello).peers && kept.live == {0} && Openings.SlotOf(kept.opening) == 1
            && kept.stock == Greeting(hello).stock.(send := 0, tally := Tally(0, 0, 0, 2, 0))
  {
    HelloGoesOut(hello, 0);
  }

  lemma StrandedPark(ws: nat -> Writer, w: World, p: Pipe)
    requires p.handshaking && p.buffer.None? && w.peers == [p, VACATED] && w.live == {0}
    requires w.stock.recv == 1 && w.stock.send == 0 && w.stock.tally.kept == 0
    requires w.stock.waiting == Fresh(2).(egressWakes := 1)
    ensures var v := Park(ws, w, 0);
            && v.peers == [p.(free := 0), VACATED] && v.opening == w.opening
            && v.stock.recv == 1 && v.stock.send == 0 && v.stock.tally.kept == 0
            && v.stock.waiting.recv == [] && v.stock.waiting.egress == [Credit(Id(0, 0), 0)]
  {
    var a := Step(ws, w, Attempting(0, true, false, Unread));
    assert a.peers == [p.(free := 0), VACATED] && a.stock.waiting == Wake(w.stock.waiting, Recv);
  }

  /** It happens to a client. One connection has sent its hello; the next opening takes the
      send slot for its own hello, and the caller does not commit to it. Now the first
      connection is refused, and parks: nobody is reported, and nothing is under way that
      would wake it. */
  lemma StrandingHappens(ws: nat -> Writer, hello: seq<byte>)
    requires 0 < |hello| <= TLS_STAGING_CAP
    ensures var first := Step(ws, Bound(1, 1, 2, true, 2), Offering(0, Some(hello), true));
            var sent := Step(ws, first, Calling(0, AfterSending(|hello|)));
            var kept := Step(ws, sent, Offering(1, Some(hello), false));
            var r := Park(ws, kept, 0);
            && r.stock.waiting.egress == [Credit(Id(0, 0), 0)] && r.stock.waiting.recv == []
            && Servable(r.stock).None? && r.stock.recv == 1 && r.stock.tally.kept == 0 && Holders(r.peers) == 0
            && Openings.SlotOf(r.opening) == 1
  {
    var kept := Offer(Greeting(hello), 1, Some(hello), false);
    Greets(ws, hello);
    KeepsTheSlot(hello);
    StrandedPark(ws, kept, Greeted(hello).(free := 1));
    NoHolders([Greeted(hello).(free := 0), VACATED]);
  }

  /** And it ends when the caller commits to the opening: nothing is kept any more, and
      those who wait still do. */
  lemma CommittingEnds(w: World, i: nat, hello: Option<seq<byte>>)
    requires w.opening.Some? && IsVacant(w, i)
    ensures var v := Offer(w, i, hello, true);
            && v.opening.None? && IsLive(v, i) && v.peers[i] == Openings.PipeOf(w.opening.value)
            && v.stock.waiting == w.stock.waiting
  {
  }
}
