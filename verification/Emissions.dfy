// Where everything a connection sends comes from: application data is sealed as it was
// given, every reply an incoming record calls for goes out, and every KeyUpdate that goes
// out was asked for.

module Emissions {
  import opened Basics
  import opened Staging
  import opened Records
  import opened Outbox
  import opened Pipes
  import opened PipeLaws
  import opened PipeRuns
  import opened AfterClose

  // ----- what a connection says of its own accord -----

  /** Item number `i`, said while `queued` was held back: application data sealed under its
      own number, a KeyUpdate that was held back, or close_notify; but no reply. */
  predicate Own(w: Writer, queued: seq<byte>, i: nat, item: Item) {
    match item
    case Sealed(plain, cipher) => cipher == w.seal(i, plain)
    case Flushed(cipher) => cipher == queued != []
    case Closing(cipher) => cipher == w.notify
    case Reply(_) => false
  }

  /** `r` is `o` after a connection has said things of its own accord. */
  ghost predicate Speaks(w: Writer, o: Outgoing, r: Outgoing) {
    && o.log <= r.log && (r.queued == o.queued || r.queued == [])
    && forall i :: |o.log| <= i < |r.log| ==> Own(w, o.queued, i, r.log[i])
  }

  lemma SpeaksTrans(w: Writer, o: Outgoing, m: Outgoing, r: Outgoing)
    requires Speaks(w, o, m) && Speaks(w, m, r)
    ensures Speaks(w, o, r)
  {
  }

  lemma WriteSpeaks(w: Writer, o: Outgoing, part: seq<byte>, n: nat)
    requires n <= |part| <= MAX_PLAINTEXT
    ensures Speaks(w, o, Write(w, o, part, n))
  {
  }

  lemma {:induction false} SealSpeaks(w: Writer, p: Pipe, plain: seq<byte>)
    requires p.buffer.Some?
    ensures Speaks(w, p.out, Seal(w, p.out, p.buffer.value, plain).out)
    decreases |plain|
  {
    var o, c := p.out, p.buffer.value;
    if !(plain == [] || Buffers.Spare(c) == 0 || WantsWrite(o)) {
      var part := plain[..Min(|plain|, MAX_PLAINTEXT)];
      match Accepts(w, o, |part|)
      case None =>
      case Some(n) =>
        var b := Written(w, p, part, n);
        WriteSpeaks(w, o, part, n);
        if n != 0 {
          SealSpeaks(w, b, plain[n..]);
          SpeaksTrans(w, o, b.out, Seal(w, b.out, b.buffer.value, plain[n..]).out);
        }
    }
  }

  lemma SealIntoSpeaks(w: Writer, p: Pipe, plain: seq<byte>)
    requires p.buffer.Some?
    ensures Speaks(w, p.out, FreeEmpty(SealInto(w, p, plain).0).out)
  {
    SealSpeaks(w, p, plain);
  }

  lemma PrepareSpeaks(w: Writer, p: Pipe, plain: seq<byte>)
    ensures Speaks(w, p.out, Prepare(w, p, plain).0.out)
  {
    if WithBuffer(p).Some? {
      var q := Transfer(WithBuffer(p).value);
      SealIntoSpeaks(w, q, plain);
      assert q.out.log == p.out.log && q.out.queued == p.out.queued;
    }
  }

  lemma DrainSpeaks(w: Writer, p: Pipe, ending: bool)
    ensures Speaks(w, p.out, PrepareDrain(p, ending).0.out)
  {
  }

  lemma QueueCloseSpeaks(w: Writer, p: Pipe)
    ensures Speaks(w, p.out, QueueClose(w, p).out)
  {
  }

  lemma CloseSpeaks(w: Writer, p: Pipe)
    ensures Speaks(w, p.out, Close(w, p).0.out)
  {
    if WithBuffer(p).Some? { QueueCloseSpeaks(w, WithBuffer(p).value); }
  }

  lemma CallSpeaks(w: Writer, p: Pipe, a: Action)
    requires !a.Receiving?
    ensures Speaks(w, p.out, Step(w, p, a).out)
  {
    match a
    case Preparing(plain) => PrepareSpeaks(w, p, plain);
    case AfterSending(n) =>
    case Settling(n, ending) => DrainSpeaks(w, Advanced(p, n), ending);
    case Flushing =>
    case Draining(ending) => DrainSpeaks(w, p, ending);
    case Closing => CloseSpeaks(w, p);
    case Elsewhere(free) =>
  }

  // ----- what it says because of what comes in -----

  /** What some records call for: replies, and the alerts that answer bad ones. */
  function Answers(events: seq<Opened>): seq<seq<byte>> {
    if events == [] then []
    else
      var first := match events[0]
                   case Control(reply, _, _) => if reply == [] then [] else [reply]
                   case Bad(alert) => if alert == [] then [] else [alert]
                   case Data(_) => []
                   case CloseNotify => [];
      first + Answers(events[1..])
  }

  /** The replies among some items. */
  function Replies(items: seq<Item>): seq<seq<byte>> {
    if items == [] then []
    else (if items[0].Reply? then [items[0].cipher] else []) + Replies(items[1..])
  }

  lemma {:induction false} AnswersConcat(a: seq<Opened>, b: seq<Opened>)
    ensures Answers(a + b) == Answers(a) + Answers(b)
  {
    if a == [] {
      assert a + b == b;
    } else {
      assert (a + b)[0] == a[0] && (a + b)[1..] == a[1..] + b;
      AnswersConcat(a[1..], b);
    }
  }

  lemma {:induction false} RepliesConcat(a: seq<Item>, b: seq<Item>)
    ensures Replies(a + b) == Replies(a) + Replies(b)
  {
    if a == [] {
      assert a + b == b;
    } else {
      assert (a + b)[0] == a[0] && (a + b)[1..] == a[1..] + b;
      RepliesConcat(a[1..], b);
    }
  }

  lemma {:induction false} NoReplies(items: seq<Item>)
    requires forall i :: 0 <= i < |items| ==> !items[i].Reply?
    ensures Replies(items) == []
  {
    if items != [] { NoReplies(items[1..]); }
  }

  lemma SpeaksNoReply(w: Writer, o: Outgoing, r: Outgoing)
    requires Speaks(w, o, r)
    ensures Replies(r.log) == Replies(o.log)
  {
    var added := r.log[|o.log|..];
    assert r.log == o.log + added;
    RepliesConcat(o.log, added);
    NoReplies(added);
    NothingMore(Replies(o.log));
  }

  /** The records some call for: a KeyUpdate `update`. */
  predicate AskedFor(events: seq<Opened>, update: seq<byte>) {
    exists e :: e in events && e.Control? && e.update == update
  }

  /** `r` is `o` after these records came in: every reply they call for goes out, in order;
      otherwise at most KeyUpdates do, and those were held back or asked for. */
  ghost predicate Heeds(o: Outgoing, events: seq<Opened>, r: Outgoing) {
    && o.log <= r.log && Replies(r.log) == Replies(o.log) + Answers(events)
    && (r.queued == [] || r.queued == o.queued || AskedFor(events, r.queued))
    && forall i :: |o.log| <= i < |r.log| ==>
         match r.log[i]
         case Reply(_) => true
         case Flushed(cipher) => cipher != [] && (cipher == o.queued || AskedFor(events, cipher))
         case Sealed(_, _) => false
         case Closing(_) => false
  }

  lemma AskedForMore(a: seq<Opened>, b: seq<Opened>, update: seq<byte>)
    ensures AskedFor(a + b, update) <==> AskedFor(a, update) || AskedFor(b, update)
  {
    if AskedFor(a, update) {
      var e :| e in a && e.Control? && e.update == update;
      assert e in a + b;
    }
    if AskedFor(b, update) {
      var e :| e in b && e.Control? && e.update == update;
      assert e in a + b;
    }
  }

  lemma HeedsTrans(o: Outgoing, a: seq<Opened>, m: Outgoing, b: seq<Opened>, r: Outgoing)
    requires Heeds(o, a, m) && Heeds(m, b, r)
    ensures Heeds(o, a + b, r)
  {
    AnswersConcat(a, b);
    Regroup(Replies(o.log), Answers(a), Answers(b));
    forall update: seq<byte>
      ensures AskedFor(a + b, update) <==> AskedFor(a, update) || AskedFor(b, update)
    {
      AskedForMore(a, b, update);
    }
  }

  lemma PublishHeeds(o: Outgoing)
    ensures Heeds(o, [], Publish(o))
  {
    RepliesConcat(o.log, [Flushed(o.queued)]);
    NothingMore(Replies(o.log));
  }

  lemma ReactHeeds(o: Outgoing, e: Opened)
    ensures Heeds(o, [e], React(o, e))
  {
    var reply := ReplyTo(e);
    var p := Publish(o);
    PublishHeeds(o);
    RepliesConcat(p.log, [Reply(reply)]);
    assert Answers([e]) == if reply == [] then [] else [reply];
    NothingMore(Replies(o.log));
    assert e in [e];
  }

  lemma {:induction false} RespondHeeds(o: Outgoing, events: seq<Opened>)
    ensures Heeds(o, events, Respond(o, events))
    decreases |events|
  {
    if events == [] {
      NothingMore(Replies(o.log));
    } else {
      ReactHeeds(o, events[0]);
      RespondHeeds(React(o, events[0]), events[1..]);
      HeedsTrans(o, [events[0]], React(o, events[0]), events[1..], Respond(o, events));
      assert [events[0]] + events[1..] == events;
    }
  }

  lemma {:induction false} RoundsHeed(d: Duplex, rounds: seq<seq<Opened>>, closed: bool)
    ensures Heeds(d.out, Flatten(rounds), Rounds(d, rounds, closed).out)
    decreases |rounds|
  {
    if rounds == [] {
      NothingMore(Replies(d.out.log));
    } else {
      var before, events := rounds[..|rounds| - 1], rounds[|rounds| - 1];
      var m := Rounds(d, before, closed);
      var out := Respond(m.out, events);
      RoundsHeed(d, before, closed);
      RespondHeeds(m.out, events);
      HeedsTrans(d.out, Flatten(before), m.out, events, out);
      PublishHeeds(out);
      HeedsTrans(d.out, Flatten(before) + events, out, [], Publish(out));
      NothingMore(Flatten(before) + events);
      assert rounds == before + [events];
      FlattenConcat(before, [events]);
      FlattenOne(events);
    }
  }

  lemma HeedsAlike(o: Outgoing, events: seq<Opened>, m: Outgoing, r: Outgoing)
    requires Heeds(o, events, m) && r.log == m.log && r.queued == m.queued
    ensures Heeds(o, events, r)
  {
  }

  lemma ReceiveSays(p: Pipe, rounds: seq<seq<Opened>>, lent: bool, fails: bool) returns (q: Outgoing, d: Outgoing)
    requires Lend(p, lent).Some?
    ensures q == ReceiveStep(p, rounds, lent, fails).out
    ensures d == Rounds(Duplex(p.out, p.handshaking), rounds, p.localClosed).out
    ensures q.log == d.log && q.queued == d.queued
  {
    q := ReceiveStep(p, rounds, lent, fails).out;
    d := Rounds(Duplex(p.out, p.handshaking), rounds, p.localClosed).out;
  }

  lemma ReceiveEmits(p: Pipe, rounds: seq<seq<Opened>>, lent: bool, fails: bool) returns (q: Outgoing)
    requires Lend(p, lent).Some?
    ensures q == ReceiveStep(p, rounds, lent, fails).out && Heeds(p.out, Flatten(rounds), q)
  {
    var d;
    q, d := ReceiveSays(p, rounds, lent, fails);
    RoundsHeed(Duplex(p.out, p.handshaking), rounds, p.localClosed);
    HeedsAlike(p.out, Flatten(rounds), d, q);
  }

  /** One step: what it says of its own accord, or because of what comes in. */
  lemma StepEmits(w: Writer, p: Pipe, a: Action)
    ensures if a.Receiving? && Lend(p, a.lent).Some? then Heeds(p.out, Brings(p, a), Step(w, p, a).out)
            else Speaks(w, p.out, Step(w, p, a).out) && Brings(p, a) == []
  {
    if !a.Receiving? {
      CallSpeaks(w, p, a);
    } else {
      assert Step(w, p, a) == ReceiveStep(p, a.rounds, a.lent, a.fails);
      if Lend(p, a.lent).Some? { var q := ReceiveEmits(p, a.rounds, a.lent, a.fails); }
    }
  }

  /** The last record of a round broke the stream. */
  predicate BreaksOff(events: seq<Opened>) {
    events != [] && events[|events| - 1].Bad?
  }

  /** A round that calls for no reply says nothing exactly if no KeyUpdate is held back after
      it, or this side is closed, or the handshake goes on, or the stream broke. */
  lemma QuietRound(d: Duplex, events: seq<Opened>, closed: bool)
    requires forall i :: 0 <= i < |events| ==>
      !(events[i].Control? && events[i].reply != []) && !(events[i].Bad? && events[i].alert != [])
    ensures var r := Round(d, events, closed);
            && (r.out.log == d.out.log <==>
                  || HeldBackAfter(d.out.queued, events) == [] || closed || BreaksOff(events)
                  || (d.handshaking && forall i :: 0 <= i < |events| ==> !Finishes(events[i])))
            && (r.out.log == d.out.log ==> r.out.queued == HeldBackAfter(d.out.queued, events))
  {
    RespondEchoes(d.out, events);
    EchoesSilent(d.out.queued, events);
    NothingMore(d.out.log);
    var out := Respond(d.out, events);
    assert out.log == d.out.log;
    assert Publish(out).log == out.log <==> out.queued == [];
  }

  // ----- over every run -----

  /** `r` is `o` after these records came in and whatever was said. */
  ghost predicate Emits(w: Writer, o: Outgoing, events: seq<Opened>, r: Outgoing) {
    && o.log <= r.log && Replies(r.log) == Replies(o.log) + Answers(events)
    && (r.queued == [] || r.queued == o.queued || AskedFor(events, r.queued))
    && forall i :: |o.log| <= i < |r.log| ==> Accounted(w, o, events, i, r.log[i])
  }

  ghost predicate Accounted(w: Writer, o: Outgoing, events: seq<Opened>, i: nat, item: Item) {
    match item
    case Sealed(plain, cipher) => cipher == w.seal(i, plain)
    case Flushed(cipher) => cipher != [] && (cipher == o.queued || AskedFor(events, cipher))
    case Closing(cipher) => cipher == w.notify
    case Reply(_) => true
  }

  lemma SpeaksEmits(w: Writer, o: Outgoing, r: Outgoing)
    requires Speaks(w, o, r)
    ensures Emits(w, o, [], r)
  {
    SpeaksNoReply(w, o, r);
    NothingMore(Replies(o.log));
  }

  lemma EmitsTrans(w: Writer, o: Outgoing, a: seq<Opened>, m: Outgoing, b: seq<Opened>, r: Outgoing)
    requires Emits(w, o, a, m) && Emits(w, m, b, r)
    ensures Emits(w, o, a + b, r)
  {
    AnswersConcat(a, b);
    Regroup(Replies(o.log), Answers(a), Answers(b));
    forall update: seq<byte>
      ensures AskedFor(a + b, update) <==> AskedFor(a, update) || AskedFor(b, update)
    {
      AskedForMore(a, b, update);
    }
    forall i | |o.log| <= i < |r.log|
      ensures Accounted(w, o, a + b, i, r.log[i])
    {
      if i < |m.log| { assert Accounted(w, o, a, i, m.log[i]); } else { assert Accounted(w, m, b, i, r.log[i]); }
    }
  }

  lemma StepEmitsWhatItMay(w: Writer, p: Pipe, a: Action)
    ensures Emits(w, p.out, Brings(p, a), Step(w, p, a).out)
  {
    StepEmits(w, p, a);
    if !(a.Receiving? && Lend(p, a.lent).Some?) { SpeaksEmits(w, p.out, Step(w, p, a).out); }
  }

  /** Over every run: application data goes out sealed as it was given, each record under
      its own number; every reply that an incoming record calls for goes out, in order and
      once; a KeyUpdate goes out only if one was held back or a record asked for it; and
      what closes is close_notify. */
  lemma {:induction false} EveryRunEmits(w: Writer, p: Pipe, actions: seq<Action>)
    ensures Emits(w, p.out, Heard(w, p, actions), Run(w, p, actions).0.out)
    decreases |actions|
  {
    if actions == [] {
      NothingMore(Replies(p.out.log));
    } else {
      var q := Step(w, p, actions[0]);
      StepEmitsWhatItMay(w, p, actions[0]);
      EveryRunEmits(w, q, actions[1..]);
      EmitsTrans(w, p.out, Brings(p, actions[0]), q.out, Heard(w, q, actions[1..]), Run(w, q, actions[1..]).0.out);
    }
  }

  /** Every item of the log is what it says it is. */
  ghost predicate Authentic(w: Writer, log: seq<Item>) {
    forall i :: 0 <= i < |log| ==>
      && (log[i].Sealed? ==> log[i].cipher == w.seal(i, log[i].plain))
      && (log[i].Closing? ==> log[i].cipher == w.notify)
  }

  /** So all that ever was and will be sent is, in order, sealed application data, KeyUpdates,
      replies and one close_notify. */
  lemma TheWireIsAuthentic(w: Writer, p: Pipe, actions: seq<Action>, wire: seq<byte>)
    requires Sound(p, wire) && Authentic(w, p.out.log)
    ensures var (r, sent) := Run(w, p, actions);
            wire + sent + Unsent(r) + Flatten(r.out.pending) == Flatten(Ciphers(r.out.log)) &&
            Authentic(w, r.out.log)
  {
    var r := Run(w, p, actions).0;
    EveryRunIsSound(w, p, actions, wire);
    EveryRunEmits(w, p, actions);
    forall i | 0 <= i < |r.out.log|
      ensures r.out.log[i].Sealed? ==> r.out.log[i].cipher == w.seal(i, r.out.log[i].plain)
      ensures r.out.log[i].Closing? ==> r.out.log[i].cipher == w.notify
    {
      if i < |p.out.log| {
        assert r.out.log[i] == p.out.log[i];
      } else {
        assert Accounted(w, p.out, Heard(w, p, actions), i, r.out.log[i]);
      }
    }
  }

  // ----- what a write puts out -----

  lemma {:induction false} RetryExtends(w: Writer, p: Pipe, plain: seq<byte>, between: seq<seq<Action>>)
      returns (actions: seq<Action>)
    ensures Retry(w, p, plain, between).pipe == Run(w, p, actions).0
    decreases |between|
  {
    PrepareCommitsWhatItSeals(w, p, plain);
    var (q, a) := Prepare(w, p, plain);
    assert Step(w, p, Preparing(plain)) == q;
    if between == [] {
      actions := [Preparing(plain)];
      assert Run(w, q, actions[1..]).0 == q;
    } else {
      var later := RetryExtends(w, Run(w, q, between[0]).0, plain[a.used..], between[1..]);
      actions := [Preparing(plain)] + (between[0] + later);
      assert actions[1..] == between[0] + later;
      RunTwice(w, q, between[0], later);
    }
  }

  lemma {:induction false} RunTwice(w: Writer, p: Pipe, a: seq<Action>, b: seq<Action>)
    ensures Run(w, p, a + b).0 == Run(w, Run(w, p, a).0, b).0
    decreases |a|
  {
    if a == [] {
      assert a + b == b;
    } else {
      assert (a + b)[0] == a[0] && (a + b)[1..] == a[1..] + b;
      RunTwice(w, Step(w, p, a[0]), a[1..], b);
    }
  }

  lemma SameRest<T>(a: seq<T>, x: seq<T>, y: seq<T>)
    requires a + x == a + y
    ensures x == y
  {
    assert x == (a + x)[|a|..] && y == (a + y)[|a|..];
  }

  lemma SealsAmong(w: Writer, o: Outgoing, events: seq<Opened>, r: Outgoing, parts: seq<seq<byte>>)
    requires Emits(w, o, events, r) && SealedPlains(r.log) == SealedPlains(o.log) + parts
    ensures var added := r.log[|o.log|..];
            && SealedPlains(added) == parts
            && (forall i :: 0 <= i < |added| && added[i].Sealed? ==>
                  added[i].cipher == w.seal(|o.log| + i, added[i].plain))
  {
    var added := r.log[|o.log|..];
    assert r.log == o.log + added;
    SealedConcat(o.log, added);
    SameRest(SealedPlains(o.log), SealedPlains(added), parts);
    forall i | 0 <= i < |added| && added[i].Sealed?
      ensures added[i].cipher == w.seal(|o.log| + i, added[i].plain)
    {
      assert Accounted(w, o, events, |o.log| + i, r.log[|o.log| + i]);
    }
  }

  lemma RetriedEmits(w: Writer, p: Pipe, plain: seq<byte>, between: seq<seq<Action>>)
      returns (r: Retried, events: seq<Opened>)
    ensures r == Retry(w, p, plain, between) && Emits(w, p.out, events, r.pipe.out)
  {
    var actions := RetryExtends(w, p, plain, between);
    EveryRunEmits(w, p, actions);
    r, events := Retry(w, p, plain, between), Heard(w, p, actions);
  }

  /** Whatever the writer accepts and whatever happens in between, what the retries of a
      write put out are the seals, each under its own number, of exactly the prefix that
      was committed. */
  lemma RetryPutsOutSeals(w: Writer, p: Pipe, plain: seq<byte>, between: seq<seq<Action>>)
      returns (r: Retried, added: seq<Item>)
    requires forall i :: 0 <= i < |between| ==> NoWrites(between[i])
    ensures r == Retry(w, p, plain, between) && r.pipe.out.log == p.out.log + added
    ensures Flatten(SealedPlains(added)) == plain[..r.used]
    ensures forall i :: 0 <= i < |added| && added[i].Sealed? ==>
              added[i].cipher == w.seal(|p.out.log| + i, added[i].plain)
  {
    var events;
    r, events := RetriedEmits(w, p, plain, between);
    RetryCommitsExactPrefix(w, p, plain, between);
    RetrySeals(w, p, plain, between);
    SealsAmong(w, p.out, events, r.pipe.out, r.parts);
    added := r.pipe.out.log[|p.out.log|..];
  }

  // ----- the handshake -----

  predicate Finishes(e: Opened) {
    e.Control? && e.established
  }

  ghost predicate NoneFinishes(events: seq<Opened>) {
    forall e :: e in events ==> !Finishes(e)
  }

  lemma NoneFinishesMore(a: seq<Opened>, b: seq<Opened>)
    ensures NoneFinishes(a + b) <==> NoneFinishes(a) && NoneFinishes(b)
  {
    if NoneFinishes(a + b) {
      forall e | e in a || e in b
        ensures !Finishes(e)
      {
        assert e in a + b;
      }
    }
  }

  lemma RoundFinishes(events: seq<Opened>)
    ensures NoneFinishes(events) <==> !Establishes(events)
  {
    if Establishes(events) {
      var i :| 0 <= i < |events| && events[i].Control? && events[i].established;
      assert events[i] in events && Finishes(events[i]);
    }
  }

  lemma LastRound(rounds: seq<seq<Opened>>)
    requires rounds != []
    ensures Flatten(rounds) == Flatten(rounds[..|rounds| - 1]) + rounds[|rounds| - 1]
  {
    var before, events := rounds[..|rounds| - 1], rounds[|rounds| - 1];
    assert rounds == before + [events];
    FlattenConcat(before, [events]);
    FlattenOne(events);
  }

  lemma {:induction false} RoundsHandshake(d: Duplex, rounds: seq<seq<Opened>>, closed: bool)
    ensures Rounds(d, rounds, closed).handshaking <==> d.handshaking && NoneFinishes(Flatten(rounds))
    decreases |rounds|
  {
    if rounds != [] {
      var before, events := rounds[..|rounds| - 1], rounds[|rounds| - 1];
      RoundsHandshake(d, before, closed);
      RoundFinishes(events);
      LastRound(rounds);
      NoneFinishesMore(Flatten(before), events);
    }
  }

  lemma PrepareStaysInHandshake(w: Writer, p: Pipe, plain: seq<byte>)
    ensures Prepare(w, p, plain).0.handshaking == p.handshaking
  {
  }

  lemma DrainStaysInHandshake(p: Pipe, ending: bool)
    ensures PrepareDrain(p, ending).0.handshaking == p.handshaking
  {
  }

  lemma CloseStaysInHandshake(w: Writer, p: Pipe)
    ensures Close(w, p).0.handshaking == p.handshaking
  {
  }

  lemma CallStaysInHandshake(w: Writer, p: Pipe, a: Action)
    requires !a.Receiving?
    ensures Step(w, p, a).handshaking == p.handshaking
  {
    match a
    case Preparing(plain) => PrepareStaysInHandshake(w, p, plain);
    case AfterSending(n) =>
    case Settling(n, ending) => DrainStaysInHandshake(Advanced(p, n), ending);
    case Flushing =>
    case Draining(ending) => DrainStaysInHandshake(p, ending);
    case Closing => CloseStaysInHandshake(w, p);
    case Elsewhere(free) =>
  }

  lemma HandshakeStep(w: Writer, p: Pipe, a: Action)
    ensures Step(w, p, a).handshaking <==> p.handshaking && NoneFinishes(Brings(p, a))
  {
    if !a.Receiving? {
      CallStaysInHandshake(w, p, a);
    } else if Lend(p, a.lent).Some? {
      RoundsHandshake(Duplex(p.out, p.handshaking), a.rounds, p.localClosed);
    }
  }

  /** Over every run the handshake goes on until a record comes in that finishes it, and no
      longer. */
  lemma {:induction false} HandshakeEnds(w: Writer, p: Pipe, actions: seq<Action>)
    ensures Run(w, p, actions).0.handshaking <==> p.handshaking && NoneFinishes(Heard(w, p, actions))
    decreases |actions|
  {
    if actions != [] {
      var q := Step(w, p, actions[0]);
      HandshakeStep(w, p, actions[0]);
      HandshakeEnds(w, q, actions[1..]);
      NoneFinishesMore(Brings(p, actions[0]), Heard(w, q, actions[1..]));
    }
  }
}
