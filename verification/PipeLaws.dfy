// What holds of the send pipeline over every run: nothing is lost or reordered, no
// application data follows close_notify, and sealed data never piles up in the engine.

module PipeLaws {
  import opened Basics
  import opened Staging
  import opened Records
  import opened Outbox
  import opened Buffers
  import opened Pipes

  // ----- the laws of a stretch of output -----

  /** What has been produced and not been sent. */
  function Held(p: Pipe): seq<byte> {
    Unsent(p) + Flatten(p.out.pending)
  }

  /** Of the items emitted while `localClosed` went from `before` to `after`: one
      close_notify at the change, and once it is out no application data and no other one,
      but only what incoming records cause. */
  ghost predicate Lawful(before: bool, after: bool, items: seq<Item>) {
    && (before ==> after)
    && (before ==> forall i :: 0 <= i < |items| ==> IsEcho(items[i]))
    && (!after ==> forall i :: 0 <= i < |items| ==> !items[i].Closing?)
    && (!before && after ==> exists k :: 0 <= k < |items| && ClosesAt(items, k))
  }

  ghost predicate ClosesAt(items: seq<Item>, k: nat)
    requires k < |items|
  {
    && items[k].Closing?
    && (forall i :: 0 <= i < k ==> !items[i].Closing?)
    && (forall i :: k < i < |items| ==> IsEcho(items[i]))
  }

  lemma LawfulConcat(a: bool, b: bool, c: bool, x: seq<Item>, y: seq<Item>)
    requires Lawful(a, b, x) && Lawful(b, c, y)
    ensures Lawful(a, c, x + y)
  {
    if !a && b {
      var k :| 0 <= k < |x| && ClosesAt(x, k);
      assert ClosesAt(x + y, k);
    } else if !b && c {
      var k :| 0 <= k < |y| && ClosesAt(y, k);
      assert ClosesAt(x + y, |x| + k);
    }
  }

  /** Application data whose records reach into the last `k` bytes of the output. */
  function Behind(log: seq<Item>, k: nat): nat
    decreases |log|
  {
    if log == [] || k == 0 then 0
    else
      var last := log[|log| - 1];
      (if last.Sealed? then |last.plain| else 0) +
      Behind(log[..|log| - 1], if k > |last.cipher| then k - |last.cipher| else 0)
  }

  /** At most one take of application data has been sealed and is not wholly in a cursor. */
  ghost predicate Tight(o: Outgoing) {
    NoneEmpty(o.pending) && Behind(o.log, |Flatten(o.pending)|) <= MAX_PLAINTEXT
  }

  lemma {:induction false} BehindMonotone(log: seq<Item>, j: nat, k: nat)
    requires j <= k
    ensures Behind(log, j) <= Behind(log, k)
    decreases |log|
  {
    if log != [] && j != 0 {
      var n := |log[|log| - 1].cipher|;
      BehindMonotone(log[..|log| - 1], if j > n then j - n else 0, if k > n then k - n else 0);
    }
  }

  lemma BehindAppend(log: seq<Item>, k: nat, item: Item)
    ensures Behind(log + [item], k + |item.cipher|) <=
            Behind(log, k) + if item.Sealed? then |item.plain| else 0
  {
    assert (log + [item])[..|log|] == log;
  }

  // ----- one evolution of a pipe, and that evolutions compose -----

  /** From `p` to `q` the log grew by lawful items sealing `plains`, exactly their
      ciphertext was added behind what was held, and tightness was kept. */
  ghost predicate Evolves(p: Pipe, q: Pipe, plains: seq<seq<byte>>) {
    && p.out.log <= q.out.log
    && var added := q.out.log[|p.out.log|..];
    && Held(q) == Held(p) + Flatten(Ciphers(added))
    && Lawful(p.localClosed, q.localClosed, added)
    && SealedPlains(added) == plains
    && (Tight(p.out) ==> Tight(q.out))
  }

  lemma EvolvesTrans(p: Pipe, q: Pipe, r: Pipe, x: seq<seq<byte>>, y: seq<seq<byte>>)
    requires Evolves(p, q, x) && Evolves(q, r, y)
    ensures Evolves(p, r, x + y)
  {
    var a, b := q.out.log[|p.out.log|..], r.out.log[|q.out.log|..];
    assert r.out.log[|p.out.log|..] == a + b;
    CiphersConcat(a, b);
    FlattenConcat(Ciphers(a), Ciphers(b));
    SealedConcat(a, b);
    LawfulConcat(p.localClosed, q.localClosed, r.localClosed, a, b);
    Regroup(Held(p), Flatten(Ciphers(a)), Flatten(Ciphers(b)));
  }

  lemma EvolvesStill(p: Pipe, q: Pipe)
    requires q.out.log == p.out.log && Held(q) == Held(p) && q.localClosed == p.localClosed
    requires Tight(p.out) ==> Tight(q.out)
    ensures Evolves(p, q, [])
  {
    assert q.out.log[|p.out.log|..] == [];
    NothingMore(Held(p));
  }

  lemma TransferEvolves(p: Pipe)
    requires p.buffer.Some?
    ensures Evolves(p, Transfer(p), [])
  {
    var q := Transfer(p);
    TransferExact(p.out, p.buffer.value);
    BehindMonotone(p.out.log, |Flatten(q.out.pending)|, |Flatten(p.out.pending)|);
    EvolvesStill(p, q);
  }

  lemma WithBufferEvolves(p: Pipe)
    requires WithBuffer(p).Some?
    ensures Evolves(p, WithBuffer(p).value, []) && WithBuffer(p).value.buffer.Some?
  {
    EvolvesStill(p, WithBuffer(p).value);
  }

  lemma FreeEmptyEvolves(p: Pipe)
    ensures Evolves(p, FreeEmpty(p), [])
  {
    EvolvesStill(p, FreeEmpty(p));
  }

  lemma {:induction false} QuietSealsNothing(items: seq<Item>)
    requires forall i :: 0 <= i < |items| ==> !items[i].Sealed?
    ensures SealedPlains(items) == []
  {
    if items != [] { QuietSealsNothing(items[1..]); }
  }

  /** Growth without application data keeps tightness. */
  lemma {:induction false} QuietGrowthIsTight(a: seq<Item>, items: seq<Item>, k: nat)
    requires forall i :: 0 <= i < |items| ==> !items[i].Sealed?
    ensures Behind(a + items, k + |Flatten(Ciphers(items))|) <= Behind(a, k)
    decreases |items|
  {
    if items == [] {
      assert a + items == a;
    } else {
      var last := items[|items| - 1];
      var rest := items[..|items| - 1];
      assert items == rest + [last] && a + items == (a + rest) + [last];
      CiphersConcat(rest, [last]);
      FlattenConcat(Ciphers(rest), Ciphers([last]));
      assert Ciphers([last]) == [last.cipher];
      FlattenOne(last.cipher);
      BehindAppend(a + rest, k + |Flatten(Ciphers(rest))|, last);
      QuietGrowthIsTight(a, rest, k);
    }
  }

  lemma GrowthIsTight(a: Outgoing, b: Outgoing)
    requires Grew(a, b) && Tight(a)
    requires forall i :: |a.log| <= i < |b.log| ==> !b.log[i].Sealed?
    ensures Tight(b)
  {
    var added := b.log[|a.log|..];
    assert b.log == a.log + added;
    QuietGrowthIsTight(a.log, added, |Flatten(a.pending)|);
  }

  lemma GrowthEvolves(p: Pipe, q: Pipe)
    requires Grew(p.out, q.out) && q.buffer == p.buffer
    requires Lawful(p.localClosed, q.localClosed, q.out.log[|p.out.log|..])
    requires forall i :: |p.out.log| <= i < |q.out.log| ==> !q.out.log[i].Sealed?
    ensures Evolves(p, q, [])
  {
    var added := q.out.log[|p.out.log|..];
    QuietSealsNothing(added);
    if Tight(p.out) { GrowthIsTight(p.out, q.out); }
    Regroup(Unsent(p), Flatten(p.out.pending), Flatten(Ciphers(added)));
  }

  // ----- sealing -----

  lemma PublishEvolves(p: Pipe)
    requires !p.localClosed
    ensures Evolves(p, p.(out := Publish(p.out)), [])
  {
    PublishGrows(p.out);
    GrowthEvolves(p, p.(out := Publish(p.out)));
  }

  /** A record of application data, sealed when nothing else of it waits in the engine. */
  lemma SealedEvolves(p: Pipe, plain: seq<byte>, cipher: seq<byte>)
    requires !p.localClosed && |plain| <= MAX_PLAINTEXT
    requires Behind(p.out.log, |Flatten(p.out.pending)|) == 0
    ensures Evolves(p, p.(out := Emit(p.out, Sealed(plain, cipher))), [plain])
  {
    var item := Sealed(plain, cipher);
    var q := p.(out := Emit(p.out, item));
    EmitGrows(p.out, item);
    assert q.out.log[|p.out.log|..] == [item];
    assert Ciphers([item]) == [cipher];
    FlattenOne(cipher);
    BehindAppend(p.out.log, |Flatten(p.out.pending)|, item);
    Regroup(Unsent(p), Flatten(p.out.pending), cipher);
    assert SealedPlains([item]) == [plain] + SealedPlains([item][1..]);
  }

  lemma PublishIdle(o: Outgoing)
    requires o.pending == []
    ensures Behind(Publish(o).log, |Flatten(Publish(o).pending)|) == 0
  {
    if o.queued != [] {
      FlattenOne(o.queued);
      BehindAppend(o.log, 0, Flushed(o.queued));
    }
  }

  function Counted(p: Pipe, part: seq<byte>): Pipe {
    p.(out := p.out.(writes := if part == [] then p.out.writes else p.out.writes + 1))
  }

  lemma WriteEvolves(w: Writer, p: Pipe, part: seq<byte>, n: nat)
    requires !p.localClosed && n <= |part| <= MAX_PLAINTEXT && p.out.pending == []
    ensures Evolves(p, p.(out := Write(w, p.out, part, n)), if n == 0 then [] else [part[..n]])
  {
    var a := Counted(p, part);
    var b := a.(out := Publish(a.out));
    EvolvesStill(p, a);
    PublishEvolves(a);
    EvolvesTrans(p, a, b, [], []);
    if n != 0 {
      PublishIdle(a.out);
      var cipher := w.seal(|b.out.log|, part[..n]);
      SealedEvolves(b, part[..n], cipher);
      EvolvesTrans(p, b, b.(out := Emit(b.out, Sealed(part[..n], cipher))), [], [part[..n]]);
    }
  }

  function At(p: Pipe, o: Outgoing, c: Slot): Pipe {
    p.(out := o, buffer := Some(c))
  }

  /** The pipe after a write of which `n` bytes were taken, and the drain that follows. */
  function Written(w: Writer, p: Pipe, part: seq<byte>, n: nat): Pipe
    requires p.buffer.Some? && n <= |part| <= MAX_PLAINTEXT
  {
    Transfer(p.(out := Write(w, p.out, part, n)))
  }

  lemma WrittenEvolves(w: Writer, p: Pipe, part: seq<byte>, n: nat)
    requires p.buffer.Some? && !p.localClosed && n <= |part| <= MAX_PLAINTEXT && p.out.pending == []
    ensures Evolves(p, Written(w, p, part, n), if n == 0 then [] else [part[..n]])
  {
    var first := if n == 0 then [] else [part[..n]];
    var a := p.(out := Write(w, p.out, part, n));
    WriteEvolves(w, p, part, n);
    TransferEvolves(a);
    EvolvesTrans(p, a, Transfer(a), first, []);
    NothingMore(first);
  }

  /** The contents of the records one sealing makes. */
  function SealedParts(w: Writer, o: Outgoing, c: Slot, plain: seq<byte>): seq<seq<byte>>
    decreases |plain|
  {
    if plain == [] || Spare(c) == 0 || WantsWrite(o) then []
    else
      var part := plain[..Min(|plain|, MAX_PLAINTEXT)];
      match Accepts(w, o, |part|)
      case None => []
      case Some(n) =>
        var q := Write(w, o, part, n);
        if n == 0 then [] else [plain[..n]] + SealedParts(w, TakeFrom(q, c), GiveTo(q, c), plain[n..])
  }

  /** They are exactly the accepted prefix of the plaintext: nothing is skipped, and
      nothing is sealed twice. */
  lemma {:induction false} SealedPartsArePrefix(w: Writer, o: Outgoing, c: Slot, plain: seq<byte>)
    ensures Flatten(SealedParts(w, o, c, plain)) == plain[..Seal(w, o, c, plain).used]
    decreases |plain|
  {
    if plain == [] || Spare(c) == 0 || WantsWrite(o) {
    } else {
      var part := plain[..Min(|plain|, MAX_PLAINTEXT)];
      match Accepts(w, o, |part|)
      case None =>
      case Some(n) =>
        if n != 0 {
          var q := Write(w, o, part, n);
          SealedPartsArePrefix(w, TakeFrom(q, c), GiveTo(q, c), plain[n..]);
          PrefixThen(plain, n, SealedParts(w, TakeFrom(q, c), GiveTo(q, c), plain[n..]),
                     Seal(w, TakeFrom(q, c), GiveTo(q, c), plain[n..]).used);
        }
    }
  }

  lemma PrefixThen(plain: seq<byte>, n: nat, rest: seq<seq<byte>>, used: nat)
    requires n + used <= |plain| && Flatten(rest) == plain[n..][..used]
    ensures Flatten([plain[..n]] + rest) == plain[..n + used]
  {
    FlattenConcat([plain[..n]], rest);
    FlattenOne(plain[..n]);
  }

  /** Sealing evolves the pipe by those records. */
  lemma {:induction false} SealEvolves(w: Writer, p: Pipe, plain: seq<byte>)
    requires p.buffer.Some? && !p.localClosed
    ensures var s := Seal(w, p.out, p.buffer.value, plain);
            Evolves(p, At(p, s.out, s.cursor), SealedParts(w, p.out, p.buffer.value, plain))
    decreases |plain|
  {
    var o, c := p.out, p.buffer.value;
    if plain == [] || Spare(c) == 0 || WantsWrite(o) {
      EvolvesStill(p, At(p, o, c));
    } else {
      var part := plain[..Min(|plain|, MAX_PLAINTEXT)];
      match Accepts(w, o, |part|)
      case None =>
        EvolvesStill(p, At(p, o.(writes := o.writes + 1), c));
      case Some(n) =>
        var b := Written(w, p, part, n);
        WrittenEvolves(w, p, part, n);
        if n != 0 {
          assert part[..n] == plain[..n];
          SealEvolves(w, b, plain[n..]);
          var s := Seal(w, b.out, b.buffer.value, plain[n..]);
          EvolvesTrans(p, b, At(b, s.out, s.cursor), [plain[..n]], SealedParts(w, b.out, b.buffer.value, plain[n..]));
        }
    }
  }

  // ----- each call -----

  lemma RefillEvolves(p: Pipe)
    requires p.buffer.Some?
    ensures Evolves(p, FreeEmpty(Refill(p)), [])
  {
    var q := Refill(p);
    if p.buffer.value.bytes == [] { TransferEvolves(p); } else { EvolvesStill(p, q); }
    FreeEmptyEvolves(q);
    EvolvesTrans(p, q, FreeEmpty(q), [], []);
  }

  lemma DrainEvolves(p: Pipe)
    requires p.buffer.Some?
    ensures Evolves(p, FreeEmpty(Transfer(p)), [])
  {
    TransferEvolves(p);
    FreeEmptyEvolves(Transfer(p));
    EvolvesTrans(p, Transfer(p), FreeEmpty(Transfer(p)), [], []);
  }

  /** The contents of the records one prepare makes. */
  function PreparedParts(w: Writer, p: Pipe, plain: seq<byte>): seq<seq<byte>> {
    if (plain == [] && Unsent(p) == [] && !WantsWrite(p.out)) || WithBuffer(p).None? then []
    else
      var q := Transfer(WithBuffer(p).value);
      if WantsWrite(q.out) || !CanWrite(q) then [] else SealedParts(w, q.out, q.buffer.value, plain)
  }

  /** Exact-prefix accounting: one prepare commits exactly what it sealed, and waiting for
      a slot, or for earlier output to leave the engine, commits nothing. */
  lemma PrepareCommitsWhatItSeals(w: Writer, p: Pipe, plain: seq<byte>)
    ensures var a := Prepare(w, p, plain).1;
            && a.used <= |plain|
            && Flatten(PreparedParts(w, p, plain)) == plain[..a.used]
            && (a.ready == BufferWait ==> a.used == 0 && Prepare(w, p, plain).0 == p)
  {
    if WithBuffer(p).Some? {
      var q := Transfer(WithBuffer(p).value);
      SealedPartsArePrefix(w, q.out, q.buffer.value, plain);
    }
  }

  lemma SealIntoEvolves(w: Writer, p: Pipe, plain: seq<byte>)
    requires p.buffer.Some?
    ensures Evolves(p, SealInto(w, p, plain).0,
                    if CanWrite(p) then SealedParts(w, p.out, p.buffer.value, plain) else [])
  {
    if CanWrite(p) {
      SealEvolves(w, p, plain);
      var parts := SealedParts(w, p.out, p.buffer.value, plain);
      var s := Seal(w, p.out, p.buffer.value, plain);
      var q := At(p, s.out, s.cursor);
      EvolvesStill(q, SealInto(w, p, plain).0);
      EvolvesTrans(p, q, SealInto(w, p, plain).0, parts, []);
      NothingMore(parts);
    } else {
      EvolvesStill(p, p);
    }
  }

  lemma PrepareEvolves(w: Writer, p: Pipe, plain: seq<byte>)
    ensures Evolves(p, Prepare(w, p, plain).0, PreparedParts(w, p, plain))
  {
    if (plain == [] && Unsent(p) == [] && !WantsWrite(p.out)) || WithBuffer(p).None? {
      EvolvesStill(p, p);
    } else {
      var b := WithBuffer(p).value;
      var q := Transfer(b);
      WithBufferEvolves(p);
      TransferEvolves(b);
      EvolvesTrans(p, b, q, [], []);
      if WantsWrite(q.out) {
        FreeEmptyEvolves(q);
        EvolvesTrans(p, q, FreeEmpty(q), [], []);
      } else {
        var parts := if CanWrite(q) then SealedParts(w, q.out, q.buffer.value, plain) else [];
        var r := SealInto(w, q, plain).0;
        SealIntoEvolves(w, q, plain);
        EvolvesTrans(p, q, r, [], parts);
        FreeEmptyEvolves(r);
        EvolvesTrans(p, r, FreeEmpty(r), parts, []);
        NothingMore(parts);
      }
    }
  }

  lemma PrepareDrainEvolves(p: Pipe, ending: bool)
    ensures Evolves(p, PrepareDrain(p, ending).0, [])
  {
    if !ending || !WantsWrite(p.out) {
      FreeEmptyEvolves(p);
    } else if WithBuffer(p).Some? {
      var b := WithBuffer(p).value;
      WithBufferEvolves(p);
      RefillEvolves(b);
      EvolvesTrans(p, b, FreeEmpty(Refill(b)), [], []);
    } else {
      EvolvesStill(p, p);
    }
  }

  lemma FlushEvolves(p: Pipe)
    ensures Evolves(p, Flush(p).0, [])
  {
    if (Unsent(p) == [] && !WantsWrite(p.out)) || WithBuffer(p).None? {
      EvolvesStill(p, p);
    } else {
      var b := WithBuffer(p).value;
      WithBufferEvolves(p);
      DrainEvolves(b);
      EvolvesTrans(p, b, Flush(p).0, [], []);
    }
  }

  lemma QueueCloseEvolves(w: Writer, p: Pipe)
    ensures Evolves(p, QueueClose(w, p), [])
  {
    if p.localClosed || p.failed {
      EvolvesStill(p, p);
    } else {
      var q := QueueClose(w, p);
      var added := if p.out.queued == [] then [Item.Closing(w.notify)]
                   else [Flushed(p.out.queued), Item.Closing(w.notify)];
      assert q.out.log[|p.out.log|..] == added;
      assert ClosesAt(added, |added| - 1);
      CloseGrows(w, p.out);
      GrowthEvolves(p, q);
    }
  }

  lemma CloseEvolves(w: Writer, p: Pipe)
    ensures Evolves(p, Close(w, p).0, [])
  {
    if WithBuffer(p).None? {
      EvolvesStill(p, p);
    } else {
      var b := WithBuffer(p).value;
      WithBufferEvolves(p);
      QueueCloseEvolves(w, b);
      EvolvesTrans(p, b, QueueClose(w, b), [], []);
      DrainEvolves(QueueClose(w, b));
      EvolvesTrans(p, QueueClose(w, b), Close(w, p).0, [], []);
    }
  }

  lemma ReceivedEvolves(p: Pipe, rounds: seq<seq<Opened>>, fails: bool)
    ensures Evolves(p, Received(p, rounds, fails), [])
  {
    RoundsGrow(Duplex(p.out, p.handshaking), rounds, p.localClosed);
    var q := Received(p, rounds, fails);
    var added := q.out.log[|p.out.log|..];
    assert forall i :: 0 <= i < |added| ==> added[i] == q.out.log[|p.out.log| + i];
    GrowthEvolves(p, q);
  }

  lemma ReceiveEvolves(p: Pipe, rounds: seq<seq<Opened>>, lent: bool, fails: bool)
    ensures Evolves(p, ReceiveStep(p, rounds, lent, fails), [])
  {
    if !(p.handshaking && lent) {
      ReceivedEvolves(p, rounds, fails);
    } else if WithBuffer(p).None? {
      EvolvesStill(p, p);
    } else {
      var b := WithBuffer(p).value;
      WithBufferEvolves(p);
      ReceivedEvolves(b, rounds, fails);
      var q := Received(b, rounds, fails);
      EvolvesTrans(p, b, q, [], []);
      DrainEvolves(q);
      EvolvesTrans(p, q, FreeEmpty(Transfer(q)), [], []);
    }
  }

  lemma AfterSendEvolves(p: Pipe, n: nat)
    ensures Evolves(Advanced(p, n), AfterSend(p, n).0, [])
  {
    var a := Advanced(p, n);
    if a.buffer.None? { EvolvesStill(a, a); } else { RefillEvolves(a); }
  }

  // ----- every run -----

  /** A reachable state: everything the engine ever produced is, in order, on the wire, in
      the cursor or still in the engine; at most one close_notify went out, with no
      application data after it; and at most one take of application data waits in the
      engine. */
  ghost predicate Sound(p: Pipe, wire: seq<byte>) {
    && wire + Unsent(p) + Flatten(p.out.pending) == Produced(p.out)
    && Lawful(false, p.localClosed, p.out.log)
    && Tight(p.out)
  }

  lemma EvolvesSound(p: Pipe, q: Pipe, plains: seq<seq<byte>>, wire: seq<byte>)
    requires Sound(p, wire) && Evolves(p, q, plains)
    ensures Sound(q, wire)
  {
    var added := q.out.log[|p.out.log|..];
    assert q.out.log == p.out.log + added;
    CiphersConcat(p.out.log, added);
    FlattenConcat(Ciphers(p.out.log), Ciphers(added));
    LawfulConcat(false, p.localClosed, q.localClosed, p.out.log, added);
    Regroup(wire, Unsent(p), Flatten(p.out.pending));
    Regroup(wire, Unsent(q), Flatten(q.out.pending));
    Regroup(wire, Held(p), Flatten(Ciphers(added)));
  }

  lemma AdvancedSound(p: Pipe, n: nat, wire: seq<byte>)
    requires Sound(p, wire)
    ensures Sound(Advanced(p, n), wire + Sent(p, n))
  {
    assert Unsent(p) == Sent(p, n) + Unsent(Advanced(p, n));
    Regroup(wire, Sent(p, n), Unsent(Advanced(p, n)));
  }

  /** What a completed native send leaves behind. */
  function Before(p: Pipe, a: Action): Pipe {
    match a
    case AfterSending(n) => Advanced(p, n)
    case Settling(n, _) => Advanced(p, n)
    case _ => p
  }

  function Parts(w: Writer, p: Pipe, a: Action): seq<seq<byte>> {
    if a.Preparing? then PreparedParts(w, p, a.plain) else []
  }

  lemma StepEvolves(w: Writer, p: Pipe, a: Action)
    ensures Evolves(Before(p, a), Step(w, p, a), Parts(w, p, a))
  {
    match a
    case Preparing(plain) => PrepareEvolves(w, p, plain);
    case AfterSending(n) => AfterSendEvolves(p, n);
    case Settling(n, ending) => PrepareDrainEvolves(Advanced(p, n), ending);
    case Flushing => FlushEvolves(p);
    case Draining(ending) => PrepareDrainEvolves(p, ending);
    case Closing => CloseEvolves(w, p);
    case Receiving(rounds, lent, fails) => ReceiveEvolves(p, rounds, lent, fails);
    case Elsewhere(free) => EvolvesStill(p, p.(free := free));
  }

  lemma StepSound(w: Writer, p: Pipe, a: Action, wire: seq<byte>)
    requires Sound(p, wire)
    ensures Sound(Step(w, p, a), wire + Wire(p, a))
  {
    NothingMore(wire);
    if a.AfterSending? || a.Settling? { AdvancedSound(p, a.n, wire); }
    StepEvolves(w, p, a);
    EvolvesSound(Before(p, a), Step(w, p, a), Parts(w, p, a), wire + Wire(p, a));
  }

  /** Wire-order conservation, close ordering and the bounded backlog, over every run. */
  lemma {:induction false} EveryRunIsSound(w: Writer, p: Pipe, actions: seq<Action>, wire: seq<byte>)
    requires Sound(p, wire)
    ensures Sound(Run(w, p, actions).0, wire + Run(w, p, actions).1)
    decreases |actions|
  {
    if actions == [] {
      NothingMore(wire);
    } else {
      var q := Step(w, p, actions[0]);
      StepSound(w, p, actions[0], wire);
      EveryRunIsSound(w, q, actions[1..], wire + Wire(p, actions[0]));
      Regroup(wire, Wire(p, actions[0]), Run(w, q, actions[1..]).1);
    }
  }
}
