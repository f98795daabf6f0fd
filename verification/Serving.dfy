// Whether everyone who waits is served: from every state an endpoint can get to, once it
// has come to rest, one service after another.

module Serving {
  import opened Basics
  import Records
  import opened Outbox
  import opened Pipes
  import opened Waiters
  import opened Policies
  import opened Schedules
  import opened Idling
  import Openings

  // ----- one service -----

  /** Those still to be served: credits handed back for retrying, then both lanes. */
  function Pending(w: World, due: seq<Credit>): seq<Credit> {
    due + All(w.stock.waiting)
  }

  // served: the credit whose receive was admitted.
  datatype Service = Service(world: World, due: seq<Credit>, served: seq<Credit>)

  /** A credit whose connection is gone has nothing left to be admitted. */
  function VerdictOn(w: World, i: nat): Verdict {
    if IsLive(w, i) then Admit(w.stock, Needs(w, i, true), false).1 else Admitted
  }

  predicate Admits(w: World, i: nat) {
    VerdictOn(w, i).Admitted?
  }

  /** The receive behind a credit ends as `ending` says, if it is admitted, and otherwise
      waits again. */
  function Tries(w: World, id: Id, ending: Ending): seq<Schedules.Action> {
    var attempt := Attempting(id.index, true, false, ending);
    match VerdictOn(w, id.index)
    case Blocked(kind) => [attempt] + [Registering(kind, id, true)]
    case _ => [attempt]
  }

  /** Then chunks are read and sends complete. Those told of a slot meanwhile are to be
      retried in their turn. */
  function Retry(run: Runner, w: World, due: seq<Credit>, c: Credit, ending: Ending): Service {
    var a := run(w, Tries(w, c.id, ending));
    var v := run(a, Quieting(a));
    Service(v, due + Since(w.stock.waiting, v.stock.waiting), if Admits(w, c.id.index) then [c] else [])
  }

  /** The driver serves someone it was told to retry, or else whom take_ready reports. */
  function ServeOne(run: Runner, w: World, due: seq<Credit>, ending: Ending): Service {
    if due != [] then Retry(run, w, due[1..], due[0], ending)
    else
      match Servable(w.stock)
      case None => Service(w, [], [])
      case Some(kind) => Retry(run, run(w, [TakingReady]), [], Lane(w.stock.waiting, kind)[0], ending)
  }

  /** One service for each of `endings`. */
  function Pump(run: Runner, w: World, due: seq<Credit>, endings: seq<Ending>): Service
    decreases |endings|
  {
    if endings == [] then Service(w, due, [])
    else
      var one := ServeOne(run, w, due, endings[0]);
      var rest := Pump(run, one.world, one.due, endings[1..]);
      rest.(served := one.served + rest.served)
  }

  // ----- what a receive does to the lanes -----

  lemma DischargeMoves(s: Stock, recv: bool, send: bool)
    ensures Moves(s.waiting, Discharge(s, recv, send).waiting)
    ensures !send ==> Discharge(s, recv, send).waiting.egress == s.waiting.egress
  {
    var a := Discharge(s, recv, false);
    WakeLeaves(s.waiting, Recv);
    WakeLeaves(a.waiting, HandshakeEgress);
    if recv && send { MovesTrans(s.waiting, a.waiting, Discharge(s, recv, send).waiting); }
  }

  lemma {:induction false} HandshakesOnlyEnd(d: Duplex, rounds: seq<seq<Records.Opened>>, closed: bool)
    ensures Rounds(d, rounds, closed).handshaking ==> d.handshaking
    decreases |rounds|
  {
    if rounds != [] { HandshakesOnlyEnd(d, rounds[..|rounds| - 1], closed); }
  }

  lemma ReadMoves(t: Stock, b: Pipe, loan: bool, rounds: seq<seq<Records.Opened>>, fails: bool, keeps: bool)
    requires loan ==> b.buffer.Some?
    ensures var q := Complete(Received(b, rounds, fails), loan);
            var u := Discharge(t, !keeps, loan && q.buffer.None?);
            && Moves(t.waiting, u.waiting) && (q.handshaking ==> b.handshaking)
            && (!loan ==> u.waiting.egress == t.waiting.egress && q.buffer == b.buffer)
  {
    var q := Complete(Received(b, rounds, fails), loan);
    DischargeMoves(t, !keeps, loan && q.buffer.None?);
    HandshakesOnlyEnd(Duplex(b.out, b.handshaking), rounds, b.localClosed);
  }

  lemma ConcludeMoves(t: Stock, b: Pipe, loaned: bool, ending: Ending)
    ensures var (u, q) := Conclude(t, b, loaned, ending);
            && Moves(t.waiting, u.waiting) && (q.handshaking ==> b.handshaking)
            && (!loaned ==> u.waiting.egress == t.waiting.egress && q.buffer == b.buffer)
  {
    var loan := loaned && b.buffer.Some?;
    match ending
    case Read(rounds, fails, keeps) => ReadMoves(t, b, loan, rounds, fails, keeps);
    case Unread => DischargeMoves(t, true, loan && FreeEmpty(b).buffer.None?);
    case Dropped =>
  }

  /** A receive lets waiters go and otherwise leaves the lanes alone, and a handshake that
      is over stays over. With no send slot free, a connection in its handshake that holds
      none is refused and stays as it is, and the egress lane hears of nothing. */
  lemma AttemptMoves(s: Stock, p: Pipe, ending: Ending)
    requires p.free == s.send
    ensures var (t, q) := Attempt(s, p, true, false, ending);
            && Moves(s.waiting, t.waiting) && (q.handshaking ==> p.handshaking)
            && (s.send == 0 && p.buffer.None? ==>
                  t.waiting.egress == s.waiting.egress && q.buffer.None? && (p.handshaking ==> q.handshaking))
  {
    var (t, verdict) := Admit(s, NeedsSlot(p.handshaking, true, p.buffer.Some?), false);
    if verdict.Admitted? {
      ConcludeMoves(t, Lent(p, true), p.handshaking, ending);
    } else {
      WakeLeaves(s.waiting, Recv);
    }
  }

  /** A connection in its handshake, whose receive takes a send slot. */
  predicate NeedsSend(w: World, i: nat) {
    IsLive(w, i) && w.peers[i].handshaking
  }

  /** `v` is `w` with the same connections and the same opening, and perhaps with handshakes
      over. */
  ghost predicate Later(w: World, v: World) {
    && |v.peers| == |w.peers| && v.live == w.live && v.opening == w.opening
    && (forall i: nat :: NeedsSend(v, i) ==> NeedsSend(w, i))
  }

  /** No handshake got any further, and nobody in the egress lane was told of anything. */
  ghost predicate Untold(w: World, v: World) {
    && w.stock.waiting.egress <= v.stock.waiting.egress && HoldsNone(v)
    && (forall i: nat :: NeedsSend(w, i) ==> NeedsSend(v, i))
  }

  ghost predicate SameEgress(w: World, v: World) {
    v.stock.waiting.egress == w.stock.waiting.egress
  }

  lemma LaterTrans(w: World, m: World, v: World)
    requires Later(w, m) && Later(m, v)
    ensures Later(w, v)
  {
  }

  lemma ReceiveMoves(w: World, i: nat, ending: Ending)
    requires IsLive(w, i)
    ensures var v := Receive(w, i, true, false, ending);
            && Later(w, v) && Moves(w.stock.waiting, v.stock.waiting)
            && (w.stock.send == 0 && HoldsNone(w) ==> Untold(w, v) && SameEgress(w, v))
  {
    var (t, q) := Attempt(w.stock, At(w, i), true, false, ending);
    AttemptMoves(w.stock, At(w, i), ending);
    assert Receive(w, i, true, false, ending) == w.(stock := t, peers := w.peers[i := q]);
  }

  lemma RestMoves(a: World, v: World)
    requires Quietened(a, v)
    ensures Later(a, v) && (HoldsNone(a) ==> Untold(a, v) && SameEgress(a, v))
  {
  }

  lemma Attempted(run: Runner, ws: nat -> Writer, w: World, i: nat, ending: Ending, recv: nat, send: nat)
      returns (a: World)
    requires IsRun(run, ws) && Quiet(w, recv, send)
    ensures a == run(w, [Attempting(i, true, false, ending)]) && Conserved(a, recv, send)
    ensures Later(w, a) && Moves(w.stock.waiting, a.stock.waiting)
    ensures w.stock.send == 0 ==> Untold(w, a) && SameEgress(w, a)
  {
    var action := Attempting(i, true, false, ending);
    a := run(w, [action]);
    RunConserves(run, ws, w, [action], recv, send);
    RunsFirst(run, ws, w, action, []);
    RunsNot(run, ws, Schedules.Step(ws, w, action));
    NothingMore([action]);
    if IsLive(w, i) {
      assert a == Receive(w, i, true, false, ending);
      ReceiveMoves(w, i, ending);
    } else {
      assert a == w;
    }
  }

  lemma EnteredBehind(w: World, kind: Resource, id: Id)
    requires HoldsNone(w)
    ensures Untold(w, Queued(w, Entering(kind, id, true)))
  {
  }

  lemma Parked(run: Runner, ws: nat -> Writer, w: World, kind: Resource, id: Id, recv: nat, send: nat)
      returns (v: World)
    requires IsRun(run, ws) && Conserved(w, recv, send)
    ensures v == run(w, [Registering(kind, id, true)]) && Conserved(v, recv, send)
    ensures v.opening == w.opening && (HoldsNone(w) ==> Untold(w, v))
  {
    var action := Registering(kind, id, true);
    v := run(w, [action]);
    RunConserves(run, ws, w, [action], recv, send);
    RunsFirst(run, ws, w, action, []);
    RunsNot(run, ws, Schedules.Step(ws, w, action));
    NothingMore([action]);
    if HoldsNone(w) { EnteredBehind(w, kind, id); }
  }

  /** What a try makes of `w`. */
  ghost predicate Tried(w: World, i: nat, v: World) {
    && v.opening == w.opening
    && (Admits(w, i) ==> Later(w, v) && Moves(w.stock.waiting, v.stock.waiting))
    && (w.stock.send == 0 ==> Untold(w, v) && (Admits(w, i) ==> SameEgress(w, v)))
  }

  lemma TriesConserve(run: Runner, ws: nat -> Writer, w: World, id: Id, ending: Ending, recv: nat, send: nat)
      returns (v: World)
    requires IsRun(run, ws) && Quiet(w, recv, send)
    ensures v == run(w, Tries(w, id, ending)) && Conserved(v, recv, send) && Tried(w, id.index, v)
  {
    v := Attempted(run, ws, w, id.index, ending, recv, send);
    match VerdictOn(w, id.index)
    case Blocked(kind) =>
      RunsOn(run, ws, w, [Attempting(id.index, true, false, ending)], [Registering(kind, id, true)]);
      v := Parked(run, ws, v, kind, id, recv, send);
    case _ =>
  }

  /** Those pending at `v` are those pending at `w`. */
  lemma Reckoning(q: Waiting, r: Waiting, due: seq<Credit>)
    requires Moves(q, r)
    ensures multiset((due + Since(q, r)) + All(r)) == multiset(due + All(q))
  {
    SinceIsWhoLeft(q, r);
  }

  lemma TriedAtRest(w: World, i: nat, a: World, v: World)
    requires Tried(w, i, a) && Quietened(a, v)
    ensures Tried(w, i, v)
  {
    RestMoves(a, v);
    if Admits(w, i) {
      LaterTrans(w, a, v);
      MovesTrans(w.stock.waiting, a.stock.waiting, v.stock.waiting);
    }
  }

  lemma Retried(run: Runner, ws: nat -> Writer, w: World, due: seq<Credit>, c: Credit, ending: Ending,
                recv: nat, send: nat)
      returns (r: Service)
    requires IsRun(run, ws) && Quiet(w, recv, send)
    ensures r == Retry(run, w, due, c, ending)
    ensures r.served == if Admits(w, c.id.index) then [c] else []
    ensures Quiet(r.world, recv, send) && Tried(w, c.id.index, r.world)
    ensures Admits(w, c.id.index) ==>
      multiset(Pending(r.world, r.due)) == multiset(due + All(w.stock.waiting))
  {
    var a := TriesConserve(run, ws, w, c.id, ending, recv, send);
    var v := run(a, Quieting(a));
    r := Retry(run, w, due, c, ending);
    assert r.world == v;
    Quietens(run, ws, a, recv, send);
    TriedAtRest(w, c.id.index, a, v);
    if Admits(w, c.id.index) { Reckoning(w.stock.waiting, v.stock.waiting, due); }
  }

  lemma TookReady(run: Runner, ws: nat -> Writer, w: World, kind: Resource, recv: nat, send: nat)
      returns (m: World)
    requires IsRun(run, ws) && Quiet(w, recv, send) && Servable(w.stock) == Some(kind)
    ensures m == run(w, [TakingReady]) && Quiet(m, recv, send)
    ensures m == w.(stock := w.stock.(waiting := Pop(w.stock.waiting, kind, Taken)))
  {
    m := run(w, [TakingReady]);
    RunConserves(run, ws, w, [TakingReady], recv, send);
    RunsFirst(run, ws, w, TakingReady, []);
    RunsNot(run, ws, Schedules.Step(ws, w, TakingReady));
    NothingMore([TakingReady]);
  }

  lemma AdmittedExactly(w: World, i: nat)
    requires HoldsNone(w) && w.stock.recv > 0
    ensures Admits(w, i) <==> w.stock.send > 0 || !NeedsSend(w, i)
  {
  }

  /** `turn`: whose turn it was, if anyone's. */
  ghost predicate Advances(w: World, due: seq<Credit>, turn: seq<Credit>, r: Service) {
    && |turn| <= 1 && (turn == [] <==> due == [] && Servable(w.stock).None?)
    && (turn != [] ==> turn[0] in Pending(w, due))
    && r.served == (if turn != [] && (w.stock.send > 0 || !NeedsSend(w, turn[0].id.index)) then turn else [])
    && (r.served == turn ==>
          multiset(Pending(w, due)) == multiset(turn) + multiset(Pending(r.world, r.due)) && Later(w, r.world))
    && r.world.opening == w.opening
    && (w.stock.send == 0 ==> Untold(w, r.world) && (r.served == turn ==> SameEgress(w, r.world)))
  }

  lemma LedBy(due: seq<Credit>, a: seq<Credit>)
    requires due != []
    ensures multiset(due + a) == multiset([due[0]]) + multiset(due[1..] + a)
  {
    assert due == [due[0]] + due[1..];
  }

  lemma ServedDue(run: Runner, ws: nat -> Writer, w: World, due: seq<Credit>, ending: Ending, recv: nat, send: nat)
      returns (r: Service)
    requires IsRun(run, ws) && Quiet(w, recv, send) && recv > 0 && due != []
    ensures r == ServeOne(run, w, due, ending) && Quiet(r.world, recv, send) && Advances(w, due, [due[0]], r)
  {
    AdmittedExactly(w, due[0].id.index);
    r := Retried(run, ws, w, due[1..], due[0], ending, recv, send);
    LedBy(due, All(w.stock.waiting));
  }

  /** Taking the front of a lane changes nothing else. */
  lemma Popped(w: World, m: World, kind: Resource)
    requires Lane(w.stock.waiting, kind) != [] && HoldsNone(w)
    requires m == w.(stock := w.stock.(waiting := Pop(w.stock.waiting, kind, Taken)))
    ensures Later(w, m) && (kind.Recv? ==> Untold(w, m) && SameEgress(w, m))
  {
    PopLetsGo(w.stock.waiting, kind, Taken);
  }

  lemma ReadyTurn(w: World, m: World, kind: Resource, r: Service)
    requires Servable(w.stock) == Some(kind)
    requires m == w.(stock := w.stock.(waiting := Pop(w.stock.waiting, kind, Taken)))
    requires multiset(Pending(r.world, r.due)) == multiset([] + All(m.stock.waiting))
    ensures var turn := [Lane(w.stock.waiting, kind)[0]];
            multiset(Pending(w, [])) == multiset(turn) + multiset(Pending(r.world, r.due))
  {
    PopMoves(w.stock.waiting, kind, Taken);
    assert [] + All(m.stock.waiting) == All(m.stock.waiting) && Pending(w, []) == All(w.stock.waiting);
  }

  lemma ReadyAdvances(w: World, m: World, kind: Resource, r: Service)
    requires HoldsNone(w) && w.stock.recv > 0 && Servable(w.stock) == Some(kind)
    requires m == w.(stock := w.stock.(waiting := Pop(w.stock.waiting, kind, Taken)))
    requires var c := Lane(w.stock.waiting, kind)[0];
             && Tried(m, c.id.index, r.world)
             && r.served == (if Admits(m, c.id.index) then [c] else [])
             && (Admits(m, c.id.index) ==> multiset(Pending(r.world, r.due)) == multiset([] + All(m.stock.waiting)))
    ensures Advances(w, [], [Lane(w.stock.waiting, kind)[0]], r)
  {
    var i := Lane(w.stock.waiting, kind)[0].id.index;
    AdmittedExactly(m, i);
    Popped(w, m, kind);
    if Admits(m, i) {
      ReadyTurn(w, m, kind, r);
      LaterTrans(w, m, r.world);
    }
  }

  lemma ServedReady(run: Runner, ws: nat -> Writer, w: World, kind: Resource, ending: Ending, recv: nat, send: nat)
      returns (r: Service)
    requires IsRun(run, ws) && Quiet(w, recv, send) && recv > 0 && Servable(w.stock) == Some(kind)
    ensures r == ServeOne(run, w, [], ending) && Quiet(r.world, recv, send)
    ensures Advances(w, [], [Lane(w.stock.waiting, kind)[0]], r)
  {
    var m := TookReady(run, ws, w, kind, recv, send);
    r := Retried(run, ws, m, [], Lane(w.stock.waiting, kind)[0], ending, recv, send);
    ReadyAdvances(w, m, kind, r);
  }

  lemma Served(run: Runner, ws: nat -> Writer, w: World, due: seq<Credit>, ending: Ending, recv: nat, send: nat)
      returns (turn: seq<Credit>, r: Service)
    requires IsRun(run, ws) && Quiet(w, recv, send) && recv > 0
    ensures r == ServeOne(run, w, due, ending) && Quiet(r.world, recv, send) && Advances(w, due, turn, r)
  {
    if due != [] {
      turn := [due[0]];
      r := ServedDue(run, ws, w, due, ending, recv, send);
    } else if Servable(w.stock).Some? {
      turn := [Lane(w.stock.waiting, Servable(w.stock).value)[0]];
      r := ServedReady(run, ws, w, Servable(w.stock).value, ending, recv, send);
    } else {
      turn := [];
      r := ServeOne(run, w, due, ending);
    }
  }

  // ----- everyone is served, or not -----

  /** A send slot is free, or nobody waits for one and nobody pending needs one. */
  ghost predicate Clear(w: World, due: seq<Credit>) {
    w.stock.send > 0 ||
    (w.stock.waiting.egress == [] && forall c :: c in Pending(w, due) ==> !NeedsSend(w, c.id.index))
  }

  /** Everyone pending has been served, once and nobody else, and both pools are as they
      were. */
  ghost predicate AllServed(w: World, due: seq<Credit>, r: Service) {
    && Pending(r.world, r.due) == [] && multiset(r.served) == multiset(Pending(w, due))
    && r.world.stock.recv == w.stock.recv && r.world.stock.send == w.stock.send
  }

  lemma FewerPending(all: seq<Credit>, turn: seq<Credit>, left: seq<Credit>)
    requires multiset(all) == multiset(turn) + multiset(left)
    ensures |all| == |turn| + |left|
    ensures forall c :: c in all <==> c in turn || c in left
  {
    assert |multiset(all)| == |all| && |multiset(turn) + multiset(left)| == |turn| + |left|;
    forall c: Credit
      ensures c in all <==> c in turn || c in left
    {
      assert c in all <==> c in multiset(all);
      assert c in turn + left <==> c in multiset(turn) + multiset(left);
    }
  }

  lemma SameSend(w: World, v: World, recv: nat, send: nat)
    requires Quiet(w, recv, send) && Quiet(v, recv, send) && v.opening == w.opening
    ensures v.stock.recv == w.stock.recv && v.stock.send == w.stock.send
  {
  }

  /** While things are clear, whose turn it is is served, and things stay clear. */
  lemma StaysClear(w: World, due: seq<Credit>, turn: seq<Credit>, r: Service)
    requires w.stock.recv > 0 && Clear(w, due) && Pending(w, due) != [] && Advances(w, due, turn, r)
    requires r.world.stock.send == w.stock.send
    ensures |turn| == 1 && r.served == turn && Clear(r.world, r.due)
    ensures |Pending(r.world, r.due)| == |Pending(w, due)| - 1
  {
    assert turn != [] && r.served == turn;
    FewerPending(Pending(w, due), turn, Pending(r.world, r.due));
  }

  lemma OneAndTheRest(w: World, due: seq<Credit>, one: Service, rest: Service)
    requires multiset(Pending(w, due)) == multiset(one.served) + multiset(Pending(one.world, one.due))
    requires one.world.stock.recv == w.stock.recv && one.world.stock.send == w.stock.send
    requires AllServed(one.world, one.due, rest)
    ensures AllServed(w, due, rest.(served := one.served + rest.served))
  {
  }

  /** From a clear state each service serves someone, until nobody is left. */
  lemma {:induction false} PumpClears(run: Runner, ws: nat -> Writer, w: World, due: seq<Credit>, endings: seq<Ending>,
                                      recv: nat, send: nat)
      returns (r: Service)
    requires IsRun(run, ws) && Quiet(w, recv, send) && recv > 0
    requires Clear(w, due) && |endings| == |Pending(w, due)|
    ensures r == Pump(run, w, due, endings) && AllServed(w, due, r)
    decreases |endings|
  {
    if endings == [] {
      r := Service(w, due, []);
    } else {
      var turn, one := Served(run, ws, w, due, endings[0], recv, send);
      SameSend(w, one.world, recv, send);
      StaysClear(w, due, turn, one);
      var rest := PumpClears(run, ws, one.world, one.due, endings[1..], recv, send);
      OneAndTheRest(w, due, one, rest);
      r := rest.(served := one.served + rest.served);
    }
  }

  ghost predicate NoneNeeds(w: World, served: seq<Credit>) {
    forall c :: c in served ==> !NeedsSend(w, c.id.index)
  }

  lemma StaysStuck(w: World, due: seq<Credit>, turn: seq<Credit>, one: Service, rest: Service)
    requires w.stock.send == 0 && Advances(w, due, turn, one)
    requires Untold(one.world, rest.world) && NoneNeeds(one.world, rest.served)
    ensures Untold(w, rest.world) && NoneNeeds(w, one.served + rest.served)
  {
  }

  /** With no send slot, nobody who needs one is ever served, and the egress lane stays as
      it is. */
  lemma {:induction false} PumpSticks(run: Runner, ws: nat -> Writer, w: World, due: seq<Credit>, endings: seq<Ending>,
                                      recv: nat, send: nat)
      returns (r: Service)
    requires IsRun(run, ws) && Quiet(w, recv, send) && recv > 0 && w.stock.send == 0
    ensures r == Pump(run, w, due, endings) && Untold(w, r.world) && NoneNeeds(w, r.served)
    decreases |endings|
  {
    if endings == [] {
      r := Service(w, due, []);
    } else {
      var turn, one := Served(run, ws, w, due, endings[0], recv, send);
      SameSend(w, one.world, recv, send);
      var rest := PumpSticks(run, ws, one.world, one.due, endings[1..], recv, send);
      StaysStuck(w, due, turn, one, rest);
      r := rest.(served := one.served + rest.served);
    }
  }

  lemma ServedMeansClear(w: World, due: seq<Credit>, r: Service)
    requires Untold(w, r.world) && NoneNeeds(w, r.served) && AllServed(w, due, r)
    ensures Clear(w, due)
  {
    forall c | c in Pending(w, due)
      ensures c in r.served
    {
      assert c in multiset(Pending(w, due));
    }
  }

  /** From rest, with one service for each of those pending, everyone is served if and only
      if a send slot is free, or nobody waits for one and nobody pending needs one: however
      each receive ends. */
  lemma PumpServesAll(run: Runner, ws: nat -> Writer, w: World, due: seq<Credit>, endings: seq<Ending>,
                      recv: nat, send: nat)
      returns (r: Service)
    requires IsRun(run, ws) && Quiet(w, recv, send) && recv > 0 && |endings| == |Pending(w, due)|
    ensures r == Pump(run, w, due, endings)
    ensures AllServed(w, due, r) <==> Clear(w, due)
  {
    r := Pump(run, w, due, endings);
    if Clear(w, due) {
      r := PumpClears(run, ws, w, due, endings, recv, send);
    } else {
      r := PumpSticks(run, ws, w, due, endings, recv, send);
      if AllServed(w, due, r) { ServedMeansClear(w, due, r); }
    }
  }

  // ----- from every reachable state -----

  /** `r` served everyone in `all`, once and nobody else, left nobody, and left both pools
      as they were. */
  ghost predicate Serves(w: World, due: seq<Credit>, all: seq<Credit>, r: Service) {
    AllServed(w, due, r) && multiset(r.served) == multiset(all)
  }

  lemma SamePending(q: Waiting, w: World, told: seq<Credit>) returns (due: seq<Credit>)
    requires Moves(q, w.stock.waiting)
    ensures due == told + Since(q, w.stock.waiting)
    ensures |Pending(w, due)| == |told + All(q)| && multiset(Pending(w, due)) == multiset(told + All(q))
  {
    due := told + Since(q, w.stock.waiting);
    Reckoning(q, w.stock.waiting, told);
    assert |multiset(Pending(w, due))| == |Pending(w, due)| && |multiset(told + All(q))| == |told + All(q)|;
  }

  lemma ServedThem(w: World, due: seq<Credit>, all: seq<Credit>, r: Service)
    requires multiset(Pending(w, due)) == multiset(all)
    ensures Serves(w, due, all, r) <==> AllServed(w, due, r)
  {
  }

  lemma OnceAtRest(run: Runner, ws: nat -> Writer, q: Waiting, v: World, told: seq<Credit>, ending: nat -> Ending,
                   recv: nat, send: nat)
      returns (due: seq<Credit>, r: Service)
    requires IsRun(run, ws) && Quiet(v, recv, send) && recv > 0 && Moves(q, v.stock.waiting)
    ensures due == told + Since(q, v.stock.waiting) && r == Pump(run, v, due, seq(|told + All(q)|, ending))
    ensures Serves(v, due, told + All(q), r) <==> Clear(v, due)
  {
    due := SamePending(q, v, told);
    r := PumpServesAll(run, ws, v, due, seq(|told + All(q)|, ending), recv, send);
    ServedThem(v, due, told + All(q), r);
  }

  lemma Reached(ws: nat -> Writer, recv: nat, send: nat, cap: nat, speaks: bool, sessions: nat,
                actions: seq<Schedules.Action>)
      returns (w: World)
    ensures w == Schedules.Run(ws, Bound(recv, send, cap, speaks, sessions), actions) && Conserved(w, recv, send)
  {
    w := Schedules.Run(ws, Bound(recv, send, cap, speaks, sessions), actions);
    BoundConserves(recv, send, cap, speaks, sessions);
    EveryRunConserves(ws, Bound(recv, send, cap, speaks, sessions), actions, recv, send);
  }

  lemma CameToRest(ws: nat -> Writer, w: World, recv: nat, send: nat) returns (v: World)
    requires Conserved(w, recv, send)
    ensures v == Schedules.Run(ws, w, Quieting(w)) && Quiet(v, recv, send) && Quietened(w, v)
  {
    v := Runs(ws)(w, Quieting(w));
    Quietens(Runs(ws), ws, w, recv, send);
  }

  /** Nobody waits for ever, unless for the slot of a kept opening. From every state `w` an
      endpoint can get to, once kept chunks have been read and sends have completed, which
      leads to `v`, serving those that were told to retry and then those reported ready
      serves everyone who waited, exactly once, if and only if a send slot is free, or nobody
      waits for one and nobody pending needs one: wherever earlier wakes went, whatever was
      cancelled, and however the receives end. And one is free unless the kept opening holds
      the only one. `told` are those told earlier. */
  lemma EveryWaiterIsServed(ws: nat -> Writer, recv: nat, send: nat, cap: nat, speaks: bool, sessions: nat,
                            actions: seq<Schedules.Action>, told: seq<Credit>, ending: nat -> Ending)
      returns (w: World, v: World, due: seq<Credit>, r: Service)
    requires recv > 0 && send > 0
    ensures w == Schedules.Run(ws, Bound(recv, send, cap, speaks, sessions), actions)
    ensures v == Schedules.Run(ws, w, Quieting(w))
    ensures v.stock.recv == recv && v.stock.send == send - Openings.SlotOf(w.opening)
    ensures SameRoster(w, v) && Moves(w.stock.waiting, v.stock.waiting)
    ensures due == told + Since(w.stock.waiting, v.stock.waiting)
    ensures r == Pump(Runs(ws), v, due, seq(|told + All(w.stock.waiting)|, ending))
    ensures Serves(v, due, told + All(w.stock.waiting), r) <==> Clear(v, due)
    ensures send > Openings.SlotOf(w.opening) ==> Clear(v, due)
  {
    w := Reached(ws, recv, send, cap, speaks, sessions, actions);
    v := CameToRest(ws, w, recv, send);
    due, r := OnceAtRest(Runs(ws), ws, w.stock.waiting, v, told, ending, recv, send);
  }
}
