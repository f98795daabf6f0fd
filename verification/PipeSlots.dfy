// Which calls of the send pipeline take a slot from the shared pool, and which give one
// back.

module PipeSlots {
  import opened Basics
  import opened Staging
  import opened Outbox
  import opened Buffers
  import opened Pipes
  import opened PipeRuns

  function SlotIn(p: Pipe): nat {
    if p.buffer.Some? then 1 else 0
  }

  lemma {:induction false} SealOnlyAdds(w: Writer, o: Outgoing, c: Slot, plain: seq<byte>)
    ensures |Seal(w, o, c, plain).cursor.bytes| >= |c.bytes|
    decreases |plain|
  {
    if !(plain == [] || Spare(c) == 0 || WantsWrite(o)) {
      var part := plain[..Min(|plain|, MAX_PLAINTEXT)];
      match Accepts(w, o, |part|)
      case None =>
      case Some(n) =>
        var q := Write(w, o, part, n);
        if n != 0 { SealOnlyAdds(w, TakeFrom(q, c), GiveTo(q, c), plain[n..]); }
    }
  }

  lemma SealIntoKeepsSlots(w: Writer, p: Pipe, plain: seq<byte>)
    requires p.buffer.Some?
    ensures var q := FreeEmpty(SealInto(w, p, plain).0);
            && q.free + SlotIn(q) == p.free + SlotIn(p)
            && (Unsent(p) != [] ==> q.buffer.Some?)
  {
    SealOnlyAdds(w, p.out, p.buffer.value, plain);
  }

  lemma PrepareKeepsSlots(w: Writer, p: Pipe, plain: seq<byte>)
    ensures var q := Prepare(w, p, plain).0;
            && q.free + SlotIn(q) == p.free + SlotIn(p)
            && (p.buffer.Some? && Unsent(p) != [] ==> q.buffer.Some?)
  {
    if WithBuffer(p).Some? {
      SealIntoKeepsSlots(w, Transfer(WithBuffer(p).value), plain);
    }
  }

  lemma DrainKeepsSlots(p: Pipe, ending: bool)
    ensures var q := PrepareDrain(p, ending).0;
            && q.free + SlotIn(q) == p.free + SlotIn(p)
            && (p.buffer.Some? && Unsent(p) != [] ==> q.buffer.Some?)
  {
  }

  lemma TransferKeepsSlots(p: Pipe)
    requires p.buffer.Some?
    ensures var q := FreeEmpty(Transfer(p));
            && q.free + SlotIn(q) == p.free + SlotIn(p)
            && (Unsent(p) != [] ==> q.buffer.Some?)
  {
  }

  lemma AfterSendKeepsSlots(p: Pipe, n: nat)
    ensures var q := AfterSend(p, n).0; q.free + SlotIn(q) == p.free + SlotIn(p)
  {
    var a := Advanced(p, n);
    if a.buffer.Some? && a.buffer.value.bytes == [] { TransferKeepsSlots(a); }
  }

  lemma FlushKeepsSlots(p: Pipe)
    ensures var q := Flush(p).0;
            && q.free + SlotIn(q) == p.free + SlotIn(p)
            && (p.buffer.Some? && Unsent(p) != [] ==> q.buffer.Some?)
  {
    if WithBuffer(p).Some? { TransferKeepsSlots(WithBuffer(p).value); }
  }

  lemma CloseKeepsSlots(w: Writer, p: Pipe)
    ensures var q := Close(w, p).0;
            && q.free + SlotIn(q) == p.free + SlotIn(p)
            && (p.buffer.Some? && Unsent(p) != [] ==> q.buffer.Some?)
  {
    if WithBuffer(p).Some? { TransferKeepsSlots(QueueClose(w, WithBuffer(p).value)); }
  }

  /** A send call takes a slot from the pool or gives one back, and gives back one held
      from earlier only if it is a completion, which reports it. */
  lemma CallKeepsSlots(w: Writer, p: Pipe, a: Action)
    requires !a.Elsewhere? && !a.Receiving?
    ensures var q := Step(w, p, a);
            && q.free + SlotIn(q) == p.free + SlotIn(p)
            && (HoldsForSending(p) && p.buffer.Some? && q.buffer.None? ==> a.AfterSending? || a.Settling?)
  {
    match a
    case Preparing(plain) => PrepareKeepsSlots(w, p, plain);
    case AfterSending(n) => AfterSendKeepsSlots(p, n);
    case Settling(n, ending) => DrainKeepsSlots(Advanced(p, n), ending);
    case Flushing => FlushKeepsSlots(p);
    case Draining(ending) => DrainKeepsSlots(p, ending);
    case Closing => CloseKeepsSlots(w, p);
  }

  /** What makes a call of a connection without a slot come away with one, while the
      handshake goes on: output that waits in the engine, or a first close. */
  predicate ComesAway(w: Writer, p: Pipe, a: Action) {
    p.free > 0 &&
    match a
    case Preparing(_) => WantsWrite(p.out)
    case Flushing => WantsWrite(p.out)
    case Draining(ending) => ending && WantsWrite(p.out)
    case Settling(_, ending) => ending && WantsWrite(p.out)
    case Closing => WantsWrite(p.out) || (!p.localClosed && !p.failed && (w.notify != [] || p.out.queued != []))
    case _ => false
  }

  lemma EmptyHanded(p: Pipe)
    requires p.buffer == Some(VACANT) && NoneEmpty(p.out.pending)
    ensures FreeEmpty(Transfer(p)).buffer.Some? <==> WantsWrite(p.out)
  {
    MovesUp(p);
  }

  lemma PrepareComesAway(w: Writer, p: Pipe, plain: seq<byte>)
    requires p.handshaking && p.buffer.None? && NoneEmpty(p.out.pending)
    ensures Prepare(w, p, plain).0.buffer.Some? <==> p.free > 0 && WantsWrite(p.out)
  {
    if p.free > 0 { EmptyHanded(WithBuffer(p).value); }
  }

  lemma DrainComesAway(p: Pipe, ending: bool)
    requires p.buffer.None? && NoneEmpty(p.out.pending)
    ensures PrepareDrain(p, ending).0.buffer.Some? <==> p.free > 0 && ending && WantsWrite(p.out)
  {
    if p.free > 0 { EmptyHanded(WithBuffer(p).value); }
  }

  lemma FlushComesAway(p: Pipe)
    requires p.buffer.None? && NoneEmpty(p.out.pending)
    ensures Flush(p).0.buffer.Some? <==> p.free > 0 && WantsWrite(p.out)
  {
    if p.free > 0 { EmptyHanded(WithBuffer(p).value); }
  }

  lemma CloseComesAway(w: Writer, p: Pipe)
    requires p.buffer.None? && NoneEmpty(p.out.pending)
    ensures Close(w, p).0.buffer.Some? <==>
      p.free > 0 &&
      (WantsWrite(p.out) || (!p.localClosed && !p.failed && (w.notify != [] || p.out.queued != [])))
  {
    if p.free > 0 {
      CloseGrows(w, p.out);
      EmptyHanded(QueueClose(w, WithBuffer(p).value));
    }
  }

  /** Of such a connection with an idle engine only a close comes away with a slot. */
  lemma SlotsAreTakenToSend(w: Writer, p: Pipe, a: Action)
    requires p.handshaking && p.buffer.None? && NoneEmpty(p.out.pending) && !a.Receiving?
    ensures Step(w, p, a).buffer.Some? <==> ComesAway(w, p, a)
  {
    match a
    case Preparing(plain) => PrepareComesAway(w, p, plain);
    case AfterSending(n) =>
    case Settling(n, ending) => DrainComesAway(p, ending);
    case Flushing => FlushComesAway(p);
    case Draining(ending) => DrainComesAway(p, ending);
    case Closing => CloseComesAway(w, p);
    case Elsewhere(free) =>
  }
}
