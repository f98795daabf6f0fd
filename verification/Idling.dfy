// How an endpoint comes to rest: kept chunks are read and sends complete, and what that
// does to the pools and to those who wait.

module Idling {
  import opened Basics
  import opened Staging
  import opened Outbox
  import opened Pipes
  import opened PipeRuns
  import opened Waiters
  import opened Policies
  import opened Schedules
  import Openings

  // ----- who leaves the lanes -----

  function Front(q: Waiting, kind: Resource): seq<Credit> {
    if Lane(q, kind) == [] then [] else [Lane(q, kind)[0]]
  }

  lemma PopMoves(q: Waiting, kind: Resource, fate: Fate)
    ensures multiset(All(q)) == multiset(All(Pop(q, kind, fate))) + multiset(Front(q, kind))
  {
    var lane := Lane(q, kind);
    if lane != [] {
      assert lane == [lane[0]] + lane[1..] && lane[..0] + lane[1..] == lane[1..];
    }
  }

  lemma WakeMoves(q: Waiting, kind: Resource)
    ensures multiset(All(q)) == multiset(All(Wake(q, kind))) + multiset(Front(q, kind))
  {
    PopMoves(q, kind, Fate.Retried);
    assert All(Wake(q, kind)) == All(Pop(q, kind, Fate.Retried));
  }

  /** Those of some settlements who are to retry. */
  function ToRetry(settled: seq<Settlement>): seq<Credit> {
    if settled == [] then []
    else (if settled[0].fate.Retried? then [settled[0].credit] else []) + ToRetry(settled[1..])
  }

  lemma {:induction false} AllToRetry(settled: seq<Settlement>)
    requires forall i :: 0 <= i < |settled| ==> settled[i].fate.Retried?
    ensures ToRetry(settled) == Credits(settled)
  {
    if settled != [] {
      AllToRetry(settled[1..]);
      assert Credits(settled) == [settled[0].credit] + Credits(settled[1..]);
    }
  }

  /** Those `r` has told to retry since `q`. */
  function Since(q: Waiting, r: Waiting): seq<Credit> {
    if |q.settled| <= |r.settled| then ToRetry(r.settled[|q.settled|..]) else []
  }

  /** Everyone who waits or has ever been let go. */
  ghost function Members(q: Waiting): multiset<Credit> {
    multiset(All(q)) + multiset(Credits(q.settled))
  }

  /** From `q` to `r` waiters left the lanes, each told once to retry, and nobody came. */
  ghost predicate Moves(q: Waiting, r: Waiting) {
    && q.settled <= r.settled && Members(q) == Members(r)
    && (forall i :: |q.settled| <= i < |r.settled| ==> r.settled[i].fate.Retried?)
  }

  lemma MovesTrans(q: Waiting, r: Waiting, u: Waiting)
    requires Moves(q, r) && Moves(r, u)
    ensures Moves(q, u)
  {
  }

  lemma WakeKeepsMembers(q: Waiting, kind: Resource)
    ensures Members(Wake(q, kind)) == Members(q)
  {
    WakeMoves(q, kind);
    if Lane(q, kind) != [] { CreditsAppend(q.settled, Settlement(kind, Lane(q, kind)[0], Fate.Retried), kind); }
  }

  lemma WakeLeaves(q: Waiting, kind: Resource)
    ensures Moves(q, Wake(q, kind))
  {
    WakeKeepsMembers(q, kind);
    WakeRetries(q, kind);
  }

  /** Those told to retry since are those who left. */
  lemma SinceIsWhoLeft(q: Waiting, r: Waiting)
    requires Moves(q, r)
    ensures multiset(All(q)) == multiset(All(r)) + multiset(Since(q, r))
  {
    var later := r.settled[|q.settled|..];
    assert r.settled == q.settled + later;
    AllToRetry(later);
    assert Credits(r.settled) == Credits(q.settled) + Credits(later);
    Cancelled(multiset(All(q)), multiset(All(r)), multiset(Credits(q.settled)), multiset(Credits(later)));
  }

  lemma Cancelled<T>(a: multiset<T>, b: multiset<T>, c: multiset<T>, d: multiset<T>)
    requires a + c == b + (c + d)
    ensures a == b + d
  {
    forall x: T
      ensures a[x] == (b + d)[x]
    {
      assert (a + c)[x] == (b + (c + d))[x];
    }
  }

  // ----- runs as values -----

  lemma {:induction false} RunConcat(ws: nat -> Writer, w: World, a: seq<Schedules.Action>, b: seq<Schedules.Action>)
    ensures Schedules.Run(ws, w, a + b) == Schedules.Run(ws, Schedules.Run(ws, w, a), b)
    decreases |a|
  {
    if a == [] {
      assert a + b == b;
    } else {
      assert (a + b)[0] == a[0] && (a + b)[1..] == a[1..] + b;
      RunConcat(ws, Schedules.Step(ws, w, a[0]), a[1..], b);
    }
  }

  type Runner = (World, seq<Schedules.Action>) -> World

  /** `run` is Run for these writers; as a value it is not unfolded. */
  ghost predicate IsRun(run: Runner, ws: nat -> Writer) {
    forall w: World, actions: seq<Schedules.Action> {:trigger Schedules.Run(ws, w, actions)} ::
      run(w, actions) == Schedules.Run(ws, w, actions)
  }

  lemma RunsOn(run: Runner, ws: nat -> Writer, w: World, a: seq<Schedules.Action>, b: seq<Schedules.Action>)
    requires IsRun(run, ws)
    ensures run(w, a + b) == run(run(w, a), b)
  {
    RunConcat(ws, w, a, b);
    assert Schedules.Run(ws, Schedules.Run(ws, w, a), b) == run(run(w, a), b);
  }

  lemma RunsFirst(run: Runner, ws: nat -> Writer, w: World, a: Schedules.Action, rest: seq<Schedules.Action>)
    requires IsRun(run, ws)
    ensures run(w, [a] + rest) == run(Schedules.Step(ws, w, a), rest)
  {
    assert ([a] + rest)[1..] == rest;
    assert Schedules.Run(ws, w, [a] + rest) == Schedules.Run(ws, Schedules.Step(ws, w, a), rest);
  }

  lemma RunsNot(run: Runner, ws: nat -> Writer, w: World)
    requires IsRun(run, ws)
    ensures run(w, []) == w
  {
    assert Schedules.Run(ws, w, []) == w;
  }

  function Runs(ws: nat -> Writer): Runner {
    (w, actions) => Schedules.Run(ws, w, actions)
  }

  // ----- coming to rest -----

  /** The same connections are there, as far in their handshakes, and the same opening is
      kept. */
  ghost predicate SameRoster(w: World, v: World) {
    && |v.peers| == |w.peers| && v.live == w.live && v.opening == w.opening
    && (forall i :: 0 <= i < |w.peers| ==> v.peers[i].handshaking == w.peers[i].handshaking)
  }

  /** Every kept chunk is read out. */
  function ReadOuts(n: nat): seq<Schedules.Action> {
    if n == 0 then [] else [ReadingOut] + ReadOuts(n - 1)
  }

  /** One step of a run, whose effect is all that is said of it. */
  lemma ReadOutFirst(run: Runner, ws: nat -> Writer, w: World, rest: seq<Schedules.Action>)
      returns (m: World)
    requires IsRun(run, ws) && w.stock.tally.kept > 0
    ensures run(w, [ReadingOut] + rest) == run(m, rest)
    ensures m == w.(stock := m.stock) && m.stock.tally.kept == w.stock.tally.kept - 1
    ensures Moves(w.stock.waiting, m.stock.waiting) && m.stock.waiting.egress == w.stock.waiting.egress
  {
    m := Schedules.Step(ws, w, ReadingOut);
    RunsFirst(run, ws, w, ReadingOut, rest);
    WakeLeaves(w.stock.waiting, Recv);
  }

  lemma {:induction false} ReadOutsEmpty(run: Runner, ws: nat -> Writer, w: World, n: nat)
    requires IsRun(run, ws) && n == w.stock.tally.kept
    ensures var v := run(w, ReadOuts(n));
            && v == w.(stock := v.stock) && v.stock.tally.kept == 0
            && Moves(w.stock.waiting, v.stock.waiting) && v.stock.waiting.egress == w.stock.waiting.egress
    decreases n
  {
    if n == 0 {
      RunsNot(run, ws, w);
    } else {
      var m := ReadOutFirst(run, ws, w, ReadOuts(n - 1));
      ReadOutsEmpty(run, ws, m, n - 1);
      MovesTrans(w.stock.waiting, m.stock.waiting, run(m, ReadOuts(n - 1)).stock.waiting);
    }
  }

  /** One connection's sends complete, `k` of them. */
  function SendOuts(i: nat, k: nat): seq<Schedules.Action> {
    if k == 0 then [] else [Calling(i, AfterSending(TLS_STAGING_CAP))] + SendOuts(i, k - 1)
  }

  /** `v` is `w` after completions of connection `i`. */
  ghost predicate OnlyCalled(w: World, v: World, i: nat) {
    && SameRoster(w, v)
    && (forall j :: 0 <= j < |w.peers| && j != i ==> v.peers[j] == w.peers[j])
    && v.stock.tally.kept == w.stock.tally.kept
    && Moves(w.stock.waiting, v.stock.waiting)
  }

  /** How many complete sends a connection can still have before its slot is back. */
  function Left(p: Pipe): nat {
    if p.buffer.None? then 0 else |Flatten(p.out.pending)| + 1
  }

  lemma SomethingLeft(chunks: seq<seq<byte>>)
    requires NoneEmpty(chunks) && chunks != []
    ensures |Flatten(chunks)| > 0
  {
    assert |Flatten(chunks)| >= |chunks[0]|;
  }

  lemma SendShrinks(p: Pipe)
    requires NoneEmpty(p.out.pending)
    ensures var q := AfterSend(p, TLS_STAGING_CAP).0;
            && NoneEmpty(q.out.pending) && q.handshaking == p.handshaking
            && (if Left(p) == 0 then Left(q) == 0 else Left(q) < Left(p))
  {
    if p.buffer.Some? {
      CompleteSend(p);
      if p.out.pending != [] { SomethingLeft(p.out.pending); }
    }
  }

  /** A connection that can be brought to rest: it holds a slot only while it is live. */
  ghost predicate Sendable(w: World, i: nat)
    requires i < |w.peers|
  {
    NoneEmpty(w.peers[i].out.pending) && (i in w.live || w.peers[i].buffer.None?)
  }

  ghost predicate Shrinks(w: World, v: World, i: nat)
    requires i < |w.peers| && i < |v.peers|
  {
    && Sendable(v, i)
    && (if Left(w.peers[i]) == 0 then Left(v.peers[i]) == 0 else Left(v.peers[i]) < Left(w.peers[i]))
  }

  lemma ChargeMoves(s: Stock, p: Pipe, a: Pipes.Action, q: Pipe)
    ensures var t := Charge(s, p, a, q); Moves(s.waiting, t.waiting) && t.tally.kept == s.tally.kept
  {
    WakeLeaves(s.waiting, HandshakeEgress);
  }

  lemma PutBack(w: World, s: Stock, i: nat, q: Pipe)
    requires i < |w.peers| && q.handshaking == w.peers[i].handshaking
    requires s.tally.kept == w.stock.tally.kept && Moves(w.stock.waiting, s.waiting)
    ensures OnlyCalled(w, w.(stock := s, peers := w.peers[i := q]), i)
  {
  }

  lemma OneSendOut(ws: nat -> Writer, w: World, i: nat)
    requires IsLive(w, i) && Sendable(w, i)
    ensures var v := Call(ws, w, i, AfterSending(TLS_STAGING_CAP)); OnlyCalled(w, v, i) && Shrinks(w, v, i)
  {
    var p := At(w, i);
    var q := AfterSend(p, TLS_STAGING_CAP).0;
    var s := Charge(w.stock, p, AfterSending(TLS_STAGING_CAP), q);
    ChargeMoves(w.stock, p, AfterSending(TLS_STAGING_CAP), q);
    SendShrinks(p);
    PutBack(w, s, i, q);
    assert Call(ws, w, i, AfterSending(TLS_STAGING_CAP)) == w.(stock := s, peers := w.peers[i := q]);
    assert Left(p) == Left(w.peers[i]);
  }

  lemma OnlyCalledTrans(w: World, m: World, v: World, i: nat)
    requires OnlyCalled(w, m, i) && OnlyCalled(m, v, i)
    ensures OnlyCalled(w, v, i)
  {
    MovesTrans(w.stock.waiting, m.stock.waiting, v.stock.waiting);
  }

  lemma SendOutFirst(run: Runner, ws: nat -> Writer, w: World, i: nat, k: nat) returns (m: World)
    requires IsRun(run, ws) && i < |w.peers| && Sendable(w, i) && k > 0
    ensures run(w, SendOuts(i, k)) == run(m, SendOuts(i, k - 1))
    ensures OnlyCalled(w, m, i) && Shrinks(w, m, i)
  {
    var a := Calling(i, AfterSending(TLS_STAGING_CAP));
    RunsFirst(run, ws, w, a, SendOuts(i, k - 1));
    m := Schedules.Step(ws, w, a);
    if IsLive(w, i) {
      assert m == Call(ws, w, i, AfterSending(TLS_STAGING_CAP));
      OneSendOut(ws, w, i);
    } else {
      assert m == w;
    }
  }

  /** `v` is `w` after completions that brought the slot of connection `i` back. */
  ghost predicate RanDry(w: World, v: World, i: nat)
    requires i < |w.peers|
  {
    OnlyCalled(w, v, i) && v.peers[i].buffer.None?
  }

  lemma RanDryLater(w: World, m: World, v: World, i: nat)
    requires i < |w.peers| && OnlyCalled(w, m, i) && RanDry(m, v, i)
    ensures RanDry(w, v, i)
  {
    OnlyCalledTrans(w, m, v, i);
  }

  lemma {:induction false} SendOutsEmpty(run: Runner, ws: nat -> Writer, w: World, i: nat, k: nat)
      returns (v: World)
    requires IsRun(run, ws) && i < |w.peers| && Sendable(w, i) && k >= Left(w.peers[i])
    ensures v == run(w, SendOuts(i, k)) && RanDry(w, v, i)
    decreases k
  {
    if k == 0 {
      RunsNot(run, ws, w);
      v := w;
    } else {
      var m := SendOutFirst(run, ws, w, i, k);
      v := SendOutsEmpty(run, ws, m, i, k - 1);
      RanDryLater(w, m, v, i);
    }
  }

  /** All sends of the first `n` connections complete. */
  function AllSendOuts(peers: seq<Pipe>, n: nat): seq<Schedules.Action>
    requires n <= |peers|
  {
    if n == 0 then []
    else AllSendOuts(peers, n - 1) + SendOuts(n - 1, Left(peers[n - 1]))
  }

  lemma {:induction false} NothingToSend(peers: seq<Pipe>, n: nat)
    requires n <= |peers| && forall i :: 0 <= i < n ==> peers[i].buffer.None?
    ensures AllSendOuts(peers, n) == []
  {
    if n > 0 { NothingToSend(peers, n - 1); }
  }

  /** `v` is `w` after the sends of the first `n` connections completed. */
  ghost predicate SentOut(w: World, v: World, n: nat)
    requires n <= |w.peers|
  {
    && SameRoster(w, v) && v.stock.tally.kept == w.stock.tally.kept
    && (forall i :: 0 <= i < n ==> v.peers[i].buffer.None?)
    && (forall i :: n <= i < |w.peers| ==> v.peers[i] == w.peers[i])
    && Moves(w.stock.waiting, v.stock.waiting)
  }

  lemma OneMoreSentOut(w: World, m: World, v: World, n: nat)
    requires 0 < n <= |w.peers| && SentOut(w, m, n - 1) && RanDry(m, v, n - 1)
    ensures SentOut(w, v, n)
  {
    MovesTrans(w.stock.waiting, m.stock.waiting, v.stock.waiting);
  }

  lemma {:induction false} AllSendOutsEmpty(run: Runner, ws: nat -> Writer, w: World, n: nat)
    requires IsRun(run, ws) && n <= |w.peers| && forall i :: 0 <= i < |w.peers| ==> Sendable(w, i)
    ensures SentOut(w, run(w, AllSendOuts(w.peers, n)), n)
    decreases n
  {
    if n == 0 {
      RunsNot(run, ws, w);
    } else {
      var k := Left(w.peers[n - 1]);
      var m := run(w, AllSendOuts(w.peers, n - 1));
      AllSendOutsEmpty(run, ws, w, n - 1);
      assert Sendable(w, n - 1) && Sendable(m, n - 1);
      var v := SendOutsEmpty(run, ws, m, n - 1, k);
      RunsOn(run, ws, w, AllSendOuts(w.peers, n - 1), SendOuts(n - 1, k));
      OneMoreSentOut(w, m, v, n);
    }
  }

  /** What quietens everything: kept chunks are read and sends complete. */
  function Quieting(w: World): seq<Schedules.Action> {
    ReadOuts(w.stock.tally.kept) + AllSendOuts(w.peers, |w.peers|)
  }

  ghost predicate HoldsNone(w: World) {
    forall i :: 0 <= i < |w.peers| ==> w.peers[i].buffer.None?
  }

  /** `v` is `w` come to rest; if no slot was held, nobody was told of one. */
  ghost predicate Quietened(w: World, v: World) {
    && v.stock.tally.kept == 0 && HoldsNone(v)
    && SameRoster(w, v) && Moves(w.stock.waiting, v.stock.waiting)
    && (HoldsNone(w) ==> v.stock.waiting.egress == w.stock.waiting.egress)
  }

  lemma QuietingEmpties(run: Runner, ws: nat -> Writer, w: World)
    requires IsRun(run, ws) && forall i :: 0 <= i < |w.peers| ==> Sendable(w, i)
    ensures Quietened(w, run(w, Quieting(w)))
  {
    var readOuts, sendOuts := ReadOuts(w.stock.tally.kept), AllSendOuts(w.peers, |w.peers|);
    var m := run(w, readOuts);
    var v := run(m, sendOuts);
    ReadOutsEmpty(run, ws, w, w.stock.tally.kept);
    assert forall i :: 0 <= i < |m.peers| ==> Sendable(w, i) ==> Sendable(m, i);
    AllSendOutsEmpty(run, ws, m, |m.peers|);
    RunsOn(run, ws, w, readOuts, sendOuts);
    MovesTrans(w.stock.waiting, m.stock.waiting, v.stock.waiting);
    if HoldsNone(w) {
      NothingToSend(w.peers, |w.peers|);
      RunsNot(run, ws, m);
    }
  }

  /** Every slot is back but what the kept opening holds. */
  ghost predicate Quiet(w: World, recv: nat, send: nat) {
    && Conserved(w, recv, send) && HoldsNone(w) && w.stock.tally.kept == 0
    && w.stock.recv == recv && w.stock.send + Openings.SlotOf(w.opening) == send
  }

  lemma AllSendable(w: World, recv: nat, send: nat)
    requires Conserved(w, recv, send)
    ensures forall i :: 0 <= i < |w.peers| ==> Sendable(w, i)
  {
    forall i | 0 <= i < |w.peers|
      ensures Sendable(w, i)
    {
      assert Fits(w, i);
    }
  }

  lemma AtRest(w: World, recv: nat, send: nat)
    requires Conserved(w, recv, send) && HoldsNone(w) && w.stock.tally.kept == 0
    ensures Quiet(w, recv, send)
  {
    NoHolders(w.peers);
  }

  lemma Quietens(run: Runner, ws: nat -> Writer, w: World, recv: nat, send: nat)
    requires IsRun(run, ws) && Conserved(w, recv, send)
    ensures var v := run(w, Quieting(w)); Quietened(w, v) && Quiet(v, recv, send)
  {
    AllSendable(w, recv, send);
    QuietingEmpties(run, ws, w);
    RunConserves(run, ws, w, Quieting(w), recv, send);
    AtRest(run(w, Quieting(w)), recv, send);
  }

  lemma RunConserves(run: Runner, ws: nat -> Writer, w: World, actions: seq<Schedules.Action>, recv: nat, send: nat)
    requires IsRun(run, ws) && Conserved(w, recv, send)
    ensures Conserved(run(w, actions), recv, send)
  {
    EveryRunConserves(ws, w, actions, recv, send);
    assert Schedules.Run(ws, w, actions) == run(w, actions);
  }

  /** Reading out the kept chunks and completing the held sends brings back every slot of
      both pools but the one the kept opening may hold. */
  lemma QuietingIdles(ws: nat -> Writer, w: World, recv: nat, send: nat)
    requires Conserved(w, recv, send)
    ensures var v := Schedules.Run(ws, w, Quieting(w));
            && v.stock.recv == recv && v.stock.send == send - Openings.SlotOf(w.opening)
            && SameRoster(w, v) && Moves(w.stock.waiting, v.stock.waiting)
  {
    Quietens(Runs(ws), ws, w, recv, send);
    assert Runs(ws)(w, Quieting(w)) == Schedules.Run(ws, w, Quieting(w));
  }
}
