// What can still go out once this side has sent close_notify, which section 6.1 of
// RFC 8446 would have be nothing at all.

module AfterClose {
  import opened Basics
  import opened Records
  import opened Outbox
  import opened Pipes
  import opened PipeLaws

  /** The KeyUpdate held back after a record, when `queued` was held back before it. */
  function HeldBack(queued: seq<byte>, e: Opened): seq<byte> {
    var left := if ReplyTo(e) == [] then queued else [];
    if e.Control? && left == [] then e.update else left
  }

  function HeldBackAfter(queued: seq<byte>, events: seq<Opened>): seq<byte>
    decreases |events|
  {
    if events == [] then queued else HeldBackAfter(HeldBack(queued, events[0]), events[1..])
  }

  function Echo(queued: seq<byte>, e: Opened): seq<Item> {
    if ReplyTo(e) == [] then []
    else (if queued == [] then [] else [Flushed(queued)]) + [Reply(ReplyTo(e))]
  }

  /** Everything some incoming records cause to go out. */
  function Echoes(queued: seq<byte>, events: seq<Opened>): seq<Item>
    decreases |events|
  {
    if events == [] then []
    else Echo(queued, events[0]) + Echoes(HeldBack(queued, events[0]), events[1..])
  }

  lemma {:induction false} EchoesConcat(queued: seq<byte>, a: seq<Opened>, b: seq<Opened>)
    ensures Echoes(queued, a + b) == Echoes(queued, a) + Echoes(HeldBackAfter(queued, a), b)
    ensures HeldBackAfter(queued, a + b) == HeldBackAfter(HeldBackAfter(queued, a), b)
    decreases |a|
  {
    if a == [] {
      assert a + b == b;
    } else {
      assert (a + b)[0] == a[0] && (a + b)[1..] == a[1..] + b;
      var next := HeldBack(queued, a[0]);
      EchoesConcat(next, a[1..], b);
      Regroup(Echo(queued, a[0]), Echoes(next, a[1..]), Echoes(HeldBackAfter(next, a[1..]), b));
    }
  }

  lemma {:induction false} RespondEchoes(o: Outgoing, events: seq<Opened>)
    ensures Respond(o, events).log == o.log + Echoes(o.queued, events)
    ensures Respond(o, events).queued == HeldBackAfter(o.queued, events)
    decreases |events|
  {
    if events == [] {
      NothingMore(o.log);
    } else {
      var m := React(o, events[0]);
      assert m.log == o.log + Echo(o.queued, events[0]) && m.queued == HeldBack(o.queued, events[0]);
      RespondEchoes(m, events[1..]);
      Regroup(o.log, Echo(o.queued, events[0]), Echoes(m.queued, events[1..]));
    }
  }

  lemma {:induction false} RespondConcat(o: Outgoing, a: seq<Opened>, b: seq<Opened>)
    ensures Respond(o, a + b) == Respond(Respond(o, a), b)
    decreases |a|
  {
    if a == [] {
      assert a + b == b;
    } else {
      assert (a + b)[0] == a[0] && (a + b)[1..] == a[1..] + b;
      RespondConcat(React(o, a[0]), a[1..], b);
    }
  }

  /** A closed side publishes nothing of its own accord. */
  lemma {:induction false} ClosedRounds(d: Duplex, rounds: seq<seq<Opened>>)
    ensures Rounds(d, rounds, true).out == Respond(d.out, Flatten(rounds))
    decreases |rounds|
  {
    if rounds != [] {
      var before, events := rounds[..|rounds| - 1], rounds[|rounds| - 1];
      ClosedRounds(d, before);
      assert rounds == before + [events];
      FlattenConcat(before, [events]);
      FlattenOne(events);
      RespondConcat(d.out, Flatten(before), events);
    }
  }

  /** The records an action brings in. */
  function Brings(p: Pipe, a: Action): seq<Opened> {
    if a.Receiving? && Lend(p, a.lent).Some? then Flatten(a.rounds) else []
  }

  function Heard(w: Writer, p: Pipe, actions: seq<Action>): seq<Opened>
    decreases |actions|
  {
    if actions == [] then []
    else Brings(p, actions[0]) + Heard(w, Step(w, p, actions[0]), actions[1..])
  }

  ghost predicate SaysNoMore(p: Pipe, q: Pipe) {
    q.out.log == p.out.log && q.out.queued == p.out.queued
  }

  lemma ClosedPrepareEmitsNothing(w: Writer, p: Pipe, plain: seq<byte>)
    requires p.localClosed
    ensures SaysNoMore(p, Prepare(w, p, plain).0)
  {
  }

  lemma DrainEmitsNothing(p: Pipe, ending: bool)
    ensures SaysNoMore(p, PrepareDrain(p, ending).0)
  {
  }

  lemma ClosedCloseEmitsNothing(w: Writer, p: Pipe)
    requires p.localClosed
    ensures SaysNoMore(p, Close(w, p).0)
  {
  }

  lemma ClosedCallEmitsNothing(w: Writer, p: Pipe, a: Action)
    requires p.localClosed && !a.Receiving?
    ensures SaysNoMore(p, Step(w, p, a))
  {
    match a
    case Preparing(plain) => ClosedPrepareEmitsNothing(w, p, plain);
    case AfterSending(n) =>
    case Settling(n, ending) => DrainEmitsNothing(Advanced(p, n), ending);
    case Flushing =>
    case Draining(ending) => DrainEmitsNothing(p, ending);
    case Closing => ClosedCloseEmitsNothing(w, p);
    case Elsewhere(free) =>
  }

  lemma ClosedReceiveEchoes(p: Pipe, rounds: seq<seq<Opened>>, lent: bool, fails: bool)
    requires p.localClosed && Lend(p, lent).Some?
    ensures var q := ReceiveStep(p, rounds, lent, fails);
            && q.out.log == p.out.log + Echoes(p.out.queued, Flatten(rounds))
            && q.out.queued == HeldBackAfter(p.out.queued, Flatten(rounds))
  {
    ClosedRounds(Duplex(p.out, p.handshaking), rounds);
    RespondEchoes(p.out, Flatten(rounds));
  }

  lemma ClosedStepEchoes(w: Writer, p: Pipe, a: Action)
    requires p.localClosed
    ensures var q := Step(w, p, a);
            && q.out.log == p.out.log + Echoes(p.out.queued, Brings(p, a))
            && q.out.queued == HeldBackAfter(p.out.queued, Brings(p, a))
  {
    NothingMore(p.out.log);
    if !a.Receiving? {
      ClosedCallEmitsNothing(w, p, a);
    } else if Lend(p, a.lent).Some? {
      ClosedReceiveEchoes(p, a.rounds, a.lent, a.fails);
    }
  }

  /** Once closed, a connection emits what incoming records cause and nothing else, over
      every run. */
  lemma {:induction false} ClosedRunEchoes(w: Writer, p: Pipe, actions: seq<Action>)
    requires p.localClosed
    ensures Run(w, p, actions).0.out.log == p.out.log + Echoes(p.out.queued, Heard(w, p, actions))
    decreases |actions|
  {
    if actions == [] {
      NothingMore(p.out.log);
    } else {
      var q := Step(w, p, actions[0]);
      var now, later := Brings(p, actions[0]), Heard(w, Step(w, p, actions[0]), actions[1..]);
      ClosedStepEchoes(w, p, actions[0]);
      StepEvolves(w, p, actions[0]);
      ClosedRunEchoes(w, q, actions[1..]);
      EchoesConcat(p.out.queued, now, later);
      Regroup(p.out.log, Echoes(p.out.queued, now), Echoes(q.out.queued, later));
    }
  }

  predicate AsksForUpdate(e: Opened) {
    e.Control? && e.update != []
  }

  /** Record `j` is answered while a KeyUpdate is held back. */
  ghost predicate AnsweredLate(queued: seq<byte>, events: seq<Opened>, j: nat)
    requires j < |events|
  {
    ReplyTo(events[j]) != [] && (queued != [] || exists i :: 0 <= i < j && AsksForUpdate(events[i]))
  }

  ghost predicate HasFlush(items: seq<Item>) {
    exists k :: 0 <= k < |items| && items[k].Flushed?
  }

  lemma HasFlushConcat(a: seq<Item>, b: seq<Item>)
    ensures HasFlush(a + b) <==> HasFlush(a) || HasFlush(b)
  {
    if HasFlush(a) {
      var k :| 0 <= k < |a| && a[k].Flushed?;
      assert (a + b)[k].Flushed?;
    }
    if HasFlush(b) {
      var k :| 0 <= k < |b| && b[k].Flushed?;
      assert (a + b)[|a| + k].Flushed?;
    }
  }

  lemma LateShift(queued: seq<byte>, events: seq<Opened>, j: nat)
    requires j < |events| - 1 && (queued == [] || ReplyTo(events[0]) == [])
    ensures AnsweredLate(HeldBack(queued, events[0]), events[1..], j) <==> AnsweredLate(queued, events, j + 1)
  {
    var rest := events[1..];
    if i :| 0 <= i < j && AsksForUpdate(rest[i]) {
      assert AsksForUpdate(events[i + 1]);
    }
    if i :| 0 <= i < j + 1 && AsksForUpdate(events[i]) {
      if i > 0 { assert AsksForUpdate(rest[i - 1]); }
    }
  }

  /** When the first record flushes nothing, the question is about the rest. */
  lemma LateLater(queued: seq<byte>, events: seq<Opened>)
    requires events != [] && (queued == [] || ReplyTo(events[0]) == [])
    ensures (exists j :: 0 <= j < |events| && AnsweredLate(queued, events, j)) <==>
            (exists j :: 0 <= j < |events| - 1 && AnsweredLate(HeldBack(queued, events[0]), events[1..], j))
    ensures !HasFlush(Echo(queued, events[0]))
  {
    var rest, next := events[1..], HeldBack(queued, events[0]);
    forall j | 0 <= j < |rest|
      ensures AnsweredLate(next, rest, j) <==> AnsweredLate(queued, events, j + 1)
    {
      LateShift(queued, events, j);
    }
    if j :| 0 <= j < |events| && AnsweredLate(queued, events, j) {
      assert j > 0;
      assert AnsweredLate(next, rest, j - 1);
    }
    if j :| 0 <= j < |rest| && AnsweredLate(next, rest, j) {
      assert AnsweredLate(queued, events, j + 1);
    }
  }

  /** A KeyUpdate is among what goes out exactly if a record is answered after one was
      asked for. */
  lemma {:induction false} EchoesFlush(queued: seq<byte>, events: seq<Opened>)
    ensures HasFlush(Echoes(queued, events)) <==>
            exists j :: 0 <= j < |events| && AnsweredLate(queued, events, j)
    decreases |events|
  {
    if events != [] {
      var e, rest := events[0], events[1..];
      var next := HeldBack(queued, e);
      EchoesFlush(next, rest);
      HasFlushConcat(Echo(queued, e), Echoes(next, rest));
      if queued != [] && ReplyTo(e) != [] {
        assert Echo(queued, e)[0].Flushed?;
        assert AnsweredLate(queued, events, 0);
      } else {
        LateLater(queued, events);
      }
    }
  }

  lemma {:induction false} EchoesSilent(queued: seq<byte>, events: seq<Opened>)
    ensures Echoes(queued, events) == [] <==> forall i :: 0 <= i < |events| ==> ReplyTo(events[i]) == []
    decreases |events|
  {
    if events != [] {
      EchoesSilent(HeldBack(queued, events[0]), events[1..]);
      assert forall i :: 0 < i < |events| ==> events[i] == events[1..][i - 1];
    }
  }

  lemma CloseIsLast(w: Writer, p: Pipe)
    requires !p.localClosed && !p.failed && Close(w, p).1.ready == Buffered
    ensures var c := Close(w, p).0;
            && c.localClosed && c.out.queued == []
            && c.out.log != [] && c.out.log[|c.out.log| - 1] == Item.Closing(w.notify)
  {
  }

  /** What follows close_notify, exactly. Something does if and only if a record that came
      in after it calls for a reply, an alert included; and that includes a KeyUpdate if
      and only if such a record came behind one that asked for a KeyUpdate. */
  lemma WhatFollowsClose(w: Writer, p: Pipe, actions: seq<Action>)
    requires !p.localClosed && !p.failed && Close(w, p).1.ready == Buffered
    ensures var c := Close(w, p).0;
            var r := Run(w, c, actions).0;
            var heard := Heard(w, c, actions);
            && c.out.log != [] && c.out.log[|c.out.log| - 1] == Item.Closing(w.notify)
            && r.out.log == c.out.log + Echoes([], heard)
            && (r.out.log == c.out.log <==> forall i :: 0 <= i < |heard| ==> ReplyTo(heard[i]) == [])
            && (HasFlush(r.out.log[|c.out.log|..]) <==>
                exists j :: 0 <= j < |heard| && AnsweredLate([], heard, j))
  {
    var c := Close(w, p).0;
    var r := Run(w, c, actions).0;
    var heard := Heard(w, c, actions);
    CloseIsLast(w, p);
    ClosedRunEchoes(w, c, actions);
    EchoesSilent([], heard);
    EchoesFlush([], heard);
    assert r.out.log[|c.out.log|..] == Echoes([], heard);
    NothingMore(c.out.log);
  }

  // A suite whose first record asks for a KeyUpdate and whose next does not open.
  function Renewing(update: seq<byte>, alert: seq<byte>): Suite {
    Suite(1, _ => true, (n, _) => if n == 0 then Control([], update, false) else Bad(alert), alert)
  }

  const RECORD: seq<byte> := [23, 3, 3, 0, 1, 0]

  lemma RecordsOpen(update: seq<byte>, alert: seq<byte>)
    ensures Deframe(Renewing(update, alert), 0, RECORD).events == [Control([], update, false)]
    ensures Deframe(Renewing(update, alert), 1, RECORD).events == [Bad(alert)]
  {
    assert RECORD[..6] == RECORD && RECORD[6..] == [];
  }

  // An established connection with nothing to send, and one free slot.
  const ESTABLISHED: Pipe := Pipe(Outgoing([], [], [], 0), false, None, 1, false, false)

  lemma AlertTakesUpdateAlong(update: seq<byte>, alert: seq<byte>)
    requires update != [] && alert != []
    ensures Echoes([], Flatten([[Control([], update, false)], [Bad(alert)]])) == [Flushed(update), Reply(alert)]
  {
    var asks, fails := Control([], update, false), Bad(alert);
    FlattenConcat([[asks]], [[fails]]);
    FlattenOne([asks]);
    FlattenOne([fails]);
    assert [[asks]] + [[fails]] == [[asks], [fails]] && [asks] + [fails] == [asks, fails];
    EchoesConcat([], [asks], [fails]);
    assert Echoes([], [asks]) == Echo([], asks) + [] && HeldBackAfter([], [asks]) == update;
    assert Echoes(update, [fails]) == Echo(update, fails) + [];
  }

  lemma ClosesFirst(w: Writer)
    ensures var c := Step(w, ESTABLISHED, Action.Closing);
            c.localClosed && !c.handshaking && c.out.queued == [] && c.out.log == [Item.Closing(w.notify)]
  {
  }

  /** Something does follow, on a connection like any other: after the close a record comes
      in that asks for a KeyUpdate, which is held back, and then one that does not open;
      the alert that answers it takes the KeyUpdate along. */
  lemma KeyUpdateFollowsClose(w: Writer, update: seq<byte>, alert: seq<byte>)
    requires update != [] && alert != []
    ensures var s := Renewing(update, alert);
            var rounds := [Deframe(s, 0, RECORD).events, Deframe(s, 1, RECORD).events];
            var c := Step(w, ESTABLISHED, Action.Closing);
            var r := Step(w, c, Receiving(rounds, false, false));
            && c.localClosed && c.out.log == [Item.Closing(w.notify)]
            && r.out.log == [Item.Closing(w.notify), Flushed(update), Reply(alert)]
  {
    var c := Step(w, ESTABLISHED, Action.Closing);
    ClosesFirst(w);
    RecordsOpen(update, alert);
    AlertTakesUpdateAlong(update, alert);
    ClosedStepEchoes(w, c, Receiving([[Control([], update, false)], [Bad(alert)]], false, false));
  }
}
