// What the send calls tell the driver, when they get on with a write, and what a partial
// send leaves behind.

module Answers {
  import opened Basics
  import opened Staging
  import opened Outbox
  import opened Buffers
  import opened Pipes
  import opened PipeRuns

  // ----- answers -----

  /** There is something to do about the connection's output. */
  predicate Busy(p: Pipe) {
    Unsent(p) != [] || p.out.pending != []
  }

  /** The call has something to put into a cursor. */
  predicate NeedsCursor(p: Pipe, a: Action) {
    match a
    case Preparing(plain) => plain != [] || Busy(p)
    case AfterSending(_) => false
    case Settling(_, ending) => ending && p.out.pending != []
    case Flushing => Busy(p)
    case Draining(ending) => ending && p.out.pending != []
    case Closing => true
    case Receiving(_, _, _) => false
    case Elsewhere(_) => false
  }

  /** The order to close comes with every answer about an ending connection, and of others
      with the answer of a call that handled a cursor of one that has failed. */
  predicate SaysClose(p: Pipe, a: Action, q: Pipe) {
    match a
    case Preparing(plain) => (plain != [] || Busy(p)) && (p.buffer.Some? || p.free > 0) && q.failed
    case AfterSending(_) => p.buffer.Some? && p.failed
    case Settling(_, _) => true
    case Flushing => Busy(p) && (p.buffer.Some? || p.free > 0) && p.failed
    case Draining(_) => true
    case Closing => false
    case Receiving(_, _, _) => false
    case Elsewhere(_) => false
  }

  /** A call asks to wait exactly if it needs a cursor, has none, and none is free; it says
      to close exactly when it should; it reports a failure exactly if a write just failed;
      and only writes use up plaintext. */
  ghost predicate AnswersWell(w: Writer, p: Pipe, a: Action) {
    var q, answer := Step(w, p, a), Told(w, p, a);
    && (answer.ready == BufferWait <==> NeedsCursor(p, a) && p.buffer.None? && p.free == 0)
    && (answer.closeAfter <==> SaysClose(p, a, q))
    && answer.failure == (if a.Preparing? && !p.failed && q.failed then Some(Io) else None)
    && (a.Preparing? || answer.used == 0)
    && (a.Preparing? || a.Receiving? || q.failed == p.failed)
  }

  lemma PrepareAnswers(w: Writer, p: Pipe, plain: seq<byte>)
    ensures AnswersWell(w, p, Preparing(plain))
  {
    if WithBuffer(p).Some? {
      var t := Transfer(WithBuffer(p).value);
      assert t.failed == p.failed;
    }
  }

  lemma DrainAnswers(w: Writer, p: Pipe, ending: bool)
    ensures AnswersWell(w, p, Draining(ending))
  {
  }

  lemma SettleAnswers(w: Writer, p: Pipe, n: nat, ending: bool)
    ensures AnswersWell(w, p, Settling(n, ending))
  {
    DrainAnswers(w, Advanced(p, n), ending);
  }

  lemma FlushAnswers(w: Writer, p: Pipe)
    ensures AnswersWell(w, p, Flushing)
  {
  }

  lemma CloseAnswers(w: Writer, p: Pipe)
    ensures AnswersWell(w, p, Action.Closing)
  {
  }

  lemma AfterSendAnswers(w: Writer, p: Pipe, n: nat)
    ensures AnswersWell(w, p, AfterSending(n))
  {
  }

  lemma EveryCallAnswersWell(w: Writer, p: Pipe, a: Action)
    ensures AnswersWell(w, p, a)
  {
    match a
    case Preparing(plain) => PrepareAnswers(w, p, plain);
    case AfterSending(n) => AfterSendAnswers(w, p, n);
    case Settling(n, ending) => SettleAnswers(w, p, n, ending);
    case Flushing => FlushAnswers(w, p);
    case Draining(ending) => DrainAnswers(w, p, ending);
    case Closing => CloseAnswers(w, p);
    case Receiving(rounds, lent, fails) =>
    case Elsewhere(free) =>
  }

  // ----- partial sends -----

  /** Consuming moves a cursor on within its slot, and an emptied one has all of it again. */
  lemma AdvanceKeepsRoom(c: Slot, n: nat)
    ensures c.start + |c.bytes| + Spare(c) == TLS_STAGING_CAP
    ensures if n < |c.bytes| then Advance(c, n).bytes == c.bytes[n..] && Spare(Advance(c, n)) == Spare(c)
            else Advance(c, n).bytes == [] && Spare(Advance(c, n)) == TLS_STAGING_CAP
  {
  }

  /** After a send that left some of the cursor unsent, the cursor is what is left of it, and
      the engine's output and the pool are as they were, whether the connection is ending or
      not. */
  lemma PartialSendKeepsSuffix(w: Writer, p: Pipe, n: nat, ending: bool)
    requires n < |Unsent(p)|
    ensures var q := p.(buffer := Some(Cursor(p.buffer.value.start + n, Unsent(p)[n..])));
            && Step(w, p, AfterSending(n)) == q
            && Step(w, p, Settling(n, ending)) == q
    ensures Wire(p, AfterSending(n)) == Unsent(p)[..n] == Wire(p, Settling(n, ending))
  {
  }

  lemma FillsTheEmpty(p: Pipe)
    requires p.buffer == Some(VACANT)
    ensures var q := FreeEmpty(Transfer(p));
            && Unsent(q) == Flatten(p.out.pending)[..Min(TLS_STAGING_CAP, |Flatten(p.out.pending)|)]
            && Unsent(q) + Flatten(q.out.pending) == Flatten(p.out.pending)
  {
    TransferExact(p.out, VACANT);
    assert GiveTo(p.out, VACANT).bytes == Flatten(p.out.pending)[..Moved(p.out, VACANT)];
  }

  /** And after one that emptied it, it holds as much of the engine's output as fits. */
  lemma CompletedSendRefills(w: Writer, p: Pipe, n: nat)
    requires p.buffer.Some? && n >= |Unsent(p)|
    ensures var q := Step(w, p, AfterSending(n));
            && Unsent(q) == Flatten(p.out.pending)[..Min(TLS_STAGING_CAP, |Flatten(p.out.pending)|)]
            && Unsent(q) + Flatten(q.out.pending) == Flatten(p.out.pending)
    ensures Wire(p, AfterSending(n)) == Unsent(p)
  {
    var a := p.(buffer := Some(VACANT));
    assert Advanced(p, n) == a && Step(w, p, AfterSending(n)) == FreeEmpty(Transfer(a));
    FillsTheEmpty(a);
    assert Unsent(p)[..|Unsent(p)|] == Unsent(p);
  }

  // ----- getting on -----

  /** Sealing stops only when the plaintext is used up, the cursor is full, output waits in
      the engine, or the writer took nothing; and it fails exactly if the writer failed. */
  lemma {:induction false} SealGoesOn(w: Writer, o: Outgoing, c: Slot, plain: seq<byte>)
    ensures var s := Seal(w, o, c, plain);
            && s.out.writes >= o.writes
            && (!s.ok ==> s.out.writes > o.writes && w.accept(s.out.writes - 1) == None)
            && (s.ok && s.used < |plain| && Spare(s.cursor) > 0 && s.out.pending == [] ==>
                  s.out.writes > o.writes && w.accept(s.out.writes - 1) == Some(0))
    decreases |plain|
  {
    if !(plain == [] || Spare(c) == 0 || WantsWrite(o)) {
      var part := plain[..Min(|plain|, MAX_PLAINTEXT)];
      match Accepts(w, o, |part|)
      case None =>
      case Some(n) =>
        var q := Write(w, o, part, n);
        assert TakeFrom(q, c).writes == o.writes + 1 && (n == 0 ==> w.accept(o.writes) == Some(0));
        if n != 0 { SealGoesOn(w, TakeFrom(q, c), GiveTo(q, c), plain[n..]); }
    }
  }

  /** A write gets on: on a connection that is open for writing, with an idle engine and
      room in its cursor, as much goes out at once as the writer takes of the first part. */
  lemma WriteGetsOn(w: Writer, p: Pipe, plain: seq<byte>, n: nat)
    requires !p.failed && !p.localClosed && !p.handshaking && p.out.pending == [] && plain != []
    requires if p.buffer.Some? then Spare(p.buffer.value) > 0 else p.free > 0
    requires w.accept(p.out.writes).Some? && n == Min(w.accept(p.out.writes).value, Min(MAX_PLAINTEXT, |plain|))
    ensures Prepare(w, p, plain).1.used >= n
  {
    var b := WithBuffer(p).value;
    assert Transfer(b) == b by { assert GiveTo(p.out, b.buffer.value) == b.buffer.value; }
  }
}
