// Consequences for whole conversations: retried writes, record counts, closing, and that
// sending runs dry.

module PipeRuns {
  import opened Basics
  import opened Staging
  import opened Records
  import opened Outbox
  import opened Buffers
  import opened Pipes
  import opened PipeLaws

  // ----- one write, retried until it is committed -----

  ghost predicate NoWrites(actions: seq<Action>) {
    forall i :: 0 <= i < |actions| ==> !actions[i].Preparing?
  }

  // A write retried with what is left of it: how much was committed, and in which records.
  datatype Retried = Retried(pipe: Pipe, used: nat, parts: seq<seq<byte>>)

  /** Prepares `plain`, lets the connection do other things, prepares the rest, and so on. */
  function Retry(w: Writer, p: Pipe, plain: seq<byte>, between: seq<seq<Action>>): (r: Retried)
    ensures r.used <= |plain|
    decreases |between|
  {
    PrepareCommitsWhatItSeals(w, p, plain);
    var (q, a) := Prepare(w, p, plain);
    var parts := PreparedParts(w, p, plain);
    if between == [] then Retried(q, a.used, parts)
    else
      var r := Retry(w, Run(w, q, between[0]).0, plain[a.used..], between[1..]);
      Retried(r.pipe, a.used + r.used, parts + r.parts)
  }

  lemma StepSealsNothing(w: Writer, p: Pipe, a: Action)
    requires !a.Preparing?
    ensures SealedPlains(Step(w, p, a).out.log) == SealedPlains(p.out.log)
  {
    StepEvolves(w, p, a);
    NoneSealed(Before(p, a).out.log, Step(w, p, a).out.log);
  }

  lemma NoneSealed(a: seq<Item>, b: seq<Item>)
    requires a <= b && SealedPlains(b[|a|..]) == []
    ensures SealedPlains(b) == SealedPlains(a)
  {
    assert b == a + b[|a|..];
    SealedConcat(a, b[|a|..]);
    NothingMore(SealedPlains(a));
  }

  lemma {:induction false} RunSealsNothing(w: Writer, p: Pipe, actions: seq<Action>)
    requires NoWrites(actions)
    ensures SealedPlains(Run(w, p, actions).0.out.log) == SealedPlains(p.out.log)
    decreases |actions|
  {
    if actions != [] {
      StepSealsNothing(w, p, actions[0]);
      RunSealsNothing(w, Step(w, p, actions[0]), actions[1..]);
    }
  }

  lemma PrepareSeals(w: Writer, p: Pipe, plain: seq<byte>)
    ensures SealedPlains(Prepare(w, p, plain).0.out.log) == SealedPlains(p.out.log) + PreparedParts(w, p, plain)
  {
    PrepareEvolves(w, p, plain);
    var q := Prepare(w, p, plain).0;
    assert q.out.log == p.out.log + q.out.log[|p.out.log|..];
    SealedConcat(p.out.log, q.out.log[|p.out.log|..]);
  }

  ghost predicate IsPrefix(parts: seq<seq<byte>>, plain: seq<byte>, used: nat)
    requires used <= |plain|
  {
    Flatten(parts) == plain[..used]
  }

  lemma PrefixTwice(plain: seq<byte>, a: seq<seq<byte>>, m: nat, b: seq<seq<byte>>, n: nat)
    requires m + n <= |plain| && IsPrefix(a, plain, m) && IsPrefix(b, plain[m..], n)
    ensures IsPrefix(a + b, plain, m + n)
  {
    FlattenConcat(a, b);
    assert plain[..m] + plain[m..][..n] == plain[..m + n];
  }

  /** Whatever the writer accepts and whatever happens in between, the records of all
      retries of a write hold exactly the prefix the retries committed. */
  lemma {:induction false} RetryCommitsExactPrefix(w: Writer, p: Pipe, plain: seq<byte>, between: seq<seq<Action>>)
    ensures var r := Retry(w, p, plain, between); IsPrefix(r.parts, plain, r.used)
    decreases |between|
  {
    PrepareCommitsWhatItSeals(w, p, plain);
    if between != [] {
      var (q, a) := Prepare(w, p, plain);
      var m := Run(w, q, between[0]).0;
      RetryCommitsExactPrefix(w, m, plain[a.used..], between[1..]);
      var r := Retry(w, m, plain[a.used..], between[1..]);
      PrefixTwice(plain, PreparedParts(w, p, plain), a.used, r.parts, r.used);
    }
  }

  /** And those records are what the engine sealed meanwhile. */
  lemma {:induction false} RetrySeals(w: Writer, p: Pipe, plain: seq<byte>, between: seq<seq<Action>>)
    requires forall i :: 0 <= i < |between| ==> NoWrites(between[i])
    ensures var r := Retry(w, p, plain, between);
            SealedPlains(r.pipe.out.log) == SealedPlains(p.out.log) + r.parts
    decreases |between|
  {
    PrepareSeals(w, p, plain);
    PrepareCommitsWhatItSeals(w, p, plain);
    if between != [] {
      var (q, a) := Prepare(w, p, plain);
      var m := Run(w, q, between[0]).0;
      RunSealsNothing(w, q, between[0]);
      RetrySeals(w, m, plain[a.used..], between[1..]);
      var r := Retry(w, m, plain[a.used..], between[1..]);
      Regroup(SealedPlains(p.out.log), PreparedParts(w, p, plain), r.parts);
    }
  }

  // ----- record boundaries -----

  /** The writer never takes less than a whole part. */
  ghost predicate TakesAll(w: Writer) {
    forall k: nat :: w.accept(k).Some? && w.accept(k).value >= MAX_PLAINTEXT
  }

  /** A plaintext in records of 2^14 bytes and a last one with the rest. */
  function Split(plain: seq<byte>): seq<seq<byte>> {
    if plain == [] then []
    else if |plain| <= MAX_PLAINTEXT then [plain]
    else [plain[..MAX_PLAINTEXT]] + Split(plain[MAX_PLAINTEXT..])
  }

  lemma {:induction false} SplitCount(plain: seq<byte>)
    ensures |Split(plain)| == (|plain| + MAX_PLAINTEXT - 1) / MAX_PLAINTEXT
    decreases |plain|
  {
    if |plain| > MAX_PLAINTEXT {
      SplitCount(plain[MAX_PLAINTEXT..]);
    }
  }

  /** `parts` begin the split of `plain`, and what is unused splits into the rest of it. */
  ghost predicate BeginsSplit(parts: seq<seq<byte>>, plain: seq<byte>, used: nat)
    requires used <= |plain|
  {
    Split(plain) == parts + Split(plain[used..])
  }

  lemma {:induction false} SealSplits(w: Writer, o: Outgoing, c: Slot, plain: seq<byte>)
    requires TakesAll(w)
    ensures BeginsSplit(SealedParts(w, o, c, plain), plain, Seal(w, o, c, plain).used)
    decreases |plain|
  {
    if plain == [] || Spare(c) == 0 || WantsWrite(o) {
      assert [] + Split(plain) == Split(plain);
    } else {
      var n := Min(|plain|, MAX_PLAINTEXT);
      assert Accepts(w, o, n) == Some(n);
      var q := Write(w, o, plain[..n], n);
      SealSplits(w, TakeFrom(q, c), GiveTo(q, c), plain[n..]);
      var rest := SealedParts(w, TakeFrom(q, c), GiveTo(q, c), plain[n..]);
      var used := Seal(w, TakeFrom(q, c), GiveTo(q, c), plain[n..]).used;
      DropTwice(plain, n, used);
      assert Split(plain) == [plain[..n]] + Split(plain[n..]) by {
        if n == |plain| { assert plain[n..] == [] && plain[..n] == plain; }
      }
      Regroup([plain[..n]], rest, Split(plain[n..][used..]));
    }
  }

  lemma PrepareSplits(w: Writer, p: Pipe, plain: seq<byte>)
    requires TakesAll(w)
    ensures BeginsSplit(PreparedParts(w, p, plain), plain, Prepare(w, p, plain).1.used)
  {
    PrepareCommitsWhatItSeals(w, p, plain);
    assert [] + Split(plain) == Split(plain);
    if WithBuffer(p).Some? {
      var b := Transfer(WithBuffer(p).value);
      SealSplits(w, b.out, b.buffer.value, plain);
    }
  }

  // The same, with Split as a value so that it is not unfolded.
  ghost predicate IsSplit(split: seq<byte> -> seq<seq<byte>>) {
    forall plain: seq<byte> {:trigger Split(plain)} :: split(plain) == Split(plain)
  }

  ghost predicate Begins(split: seq<byte> -> seq<seq<byte>>, parts: seq<seq<byte>>, plain: seq<byte>, used: nat)
    requires used <= |plain|
  {
    split(plain) == parts + split(plain[used..])
  }

  lemma BeginsTwice(split: seq<byte> -> seq<seq<byte>>, plain: seq<byte>,
                    a: seq<seq<byte>>, m: nat, b: seq<seq<byte>>, n: nat)
    requires m + n <= |plain| && Begins(split, a, plain, m) && Begins(split, b, plain[m..], n)
    ensures Begins(split, a + b, plain, m + n)
  {
    DropTwice(plain, m, n);
    Regroup(a, b, split(plain[m + n..]));
  }

  lemma PrepareBegins(w: Writer, p: Pipe, plain: seq<byte>, split: seq<byte> -> seq<seq<byte>>)
    requires TakesAll(w) && IsSplit(split)
    ensures Begins(split, PreparedParts(w, p, plain), plain, Prepare(w, p, plain).1.used)
  {
    PrepareCommitsWhatItSeals(w, p, plain);
    PrepareSplits(w, p, plain);
    assert split(plain) == Split(plain);
    assert split(plain[Prepare(w, p, plain).1.used..]) == Split(plain[Prepare(w, p, plain).1.used..]);
  }

  lemma JoinsOn(split: seq<byte> -> seq<seq<byte>>, plain: seq<byte>,
                parts: seq<seq<byte>>, used: nat, r: Retried, whole: Retried)
    requires used + r.used <= |plain|
    requires Begins(split, parts, plain, used) && Begins(split, r.parts, plain[used..], r.used)
    requires whole.used == used + r.used && whole.parts == parts + r.parts
    ensures Begins(split, whole.parts, plain, whole.used)
  {
    BeginsTwice(split, plain, parts, used, r.parts, r.used);
  }

  lemma {:induction false} RetrySplits(w: Writer, p: Pipe, plain: seq<byte>, between: seq<seq<Action>>,
                                       split: seq<byte> -> seq<seq<byte>>)
    requires TakesAll(w) && IsSplit(split)
    ensures var r := Retry(w, p, plain, between); Begins(split, r.parts, plain, r.used)
    decreases |between|
  {
    PrepareBegins(w, p, plain, split);
    if between != [] {
      var (q, a) := Prepare(w, p, plain);
      var m := Run(w, q, between[0]).0;
      var r := Retry(w, m, plain[a.used..], between[1..]);
      RetrySplits(w, m, plain[a.used..], between[1..], split);
      JoinsOn(split, plain, PreparedParts(w, p, plain), a.used, r, Retry(w, p, plain, between));
    }
  }

  /** A write that is committed in full takes ceil(total / 2^14) records, however many
      retries and chunks it came in. */
  lemma RecordsPerWrite(w: Writer, p: Pipe, plain: seq<byte>, between: seq<seq<Action>>)
    requires TakesAll(w) && Retry(w, p, plain, between).used == |plain|
    requires forall i :: 0 <= i < |between| ==> NoWrites(between[i])
    ensures var r := Retry(w, p, plain, between);
            && r.parts == Split(plain)
            && |SealedPlains(r.pipe.out.log)| ==
               |SealedPlains(p.out.log)| + (|plain| + MAX_PLAINTEXT - 1) / MAX_PLAINTEXT
  {
    var r := Retry(w, p, plain, between);
    RetrySeals(w, p, plain, between);
    var split := (plain: seq<byte>) => Split(plain);
    RetrySplits(w, p, plain, between, split);
    assert plain[r.used..] == [];
    assert split(plain) == Split(plain) && split([]) == [];
    NothingMore(r.parts);
    SplitCount(plain);
  }

  // ----- the first record, closing, and running dry -----

  /** A side that may write holds back no KeyUpdate: receiving publishes it at once. */
  predicate HoldsNothingBack(p: Pipe) {
    CanWrite(p) ==> p.out.queued == []
  }

  lemma {:induction false} SealHoldsNothingBack(w: Writer, o: Outgoing, c: Slot, plain: seq<byte>)
    requires o.queued == []
    ensures Seal(w, o, c, plain).out.queued == []
    decreases |plain|
  {
    if !(plain == [] || Spare(c) == 0 || WantsWrite(o)) {
      var part := plain[..Min(|plain|, MAX_PLAINTEXT)];
      match Accepts(w, o, |part|)
      case None =>
      case Some(n) =>
        var q := Write(w, o, part, n);
        if n != 0 { SealHoldsNothingBack(w, TakeFrom(q, c), GiveTo(q, c), plain[n..]); }
    }
  }

  lemma PrepareHoldsNothingBack(w: Writer, p: Pipe, plain: seq<byte>)
    requires HoldsNothingBack(p)
    ensures HoldsNothingBack(Prepare(w, p, plain).0)
  {
    if WithBuffer(p).Some? && CanWrite(p) {
      var q := Transfer(WithBuffer(p).value);
      SealHoldsNothingBack(w, q.out, q.buffer.value, plain);
    }
  }

  lemma ReceiveHoldsNothingBack(p: Pipe, rounds: seq<seq<Opened>>, fails: bool)
    requires HoldsNothingBack(p)
    ensures HoldsNothingBack(Received(p, rounds, fails))
  {
    if rounds != [] { assert Unbroken(rounds) ==> !Cracks(rounds[|rounds| - 1]); }
  }

  lemma DrainHoldsNothingBack(p: Pipe, ending: bool)
    requires HoldsNothingBack(p)
    ensures HoldsNothingBack(PrepareDrain(p, ending).0)
  {
  }

  lemma StepHoldsNothingBack(w: Writer, p: Pipe, a: Action)
    requires HoldsNothingBack(p)
    ensures HoldsNothingBack(Step(w, p, a))
  {
    match a
    case Preparing(plain) => PrepareHoldsNothingBack(w, p, plain);
    case AfterSending(n) =>
    case Settling(n, ending) => DrainHoldsNothingBack(Advanced(p, n), ending);
    case Flushing =>
    case Draining(ending) => DrainHoldsNothingBack(p, ending);
    case Closing =>
    case Receiving(rounds, lent, fails) =>
      if Lend(p, lent).Some? { ReceiveHoldsNothingBack(Lend(p, lent).value, rounds, fails); }
    case Elsewhere(free) =>
  }

  /** And so it is over every run. */
  lemma {:induction false} RunHoldsNothingBack(w: Writer, p: Pipe, actions: seq<Action>)
    requires HoldsNothingBack(p)
    ensures HoldsNothingBack(Run(w, p, actions).0)
    decreases |actions|
  {
    if actions != [] {
      StepHoldsNothingBack(w, p, actions[0]);
      RunHoldsNothingBack(w, Step(w, p, actions[0]), actions[1..]);
    }
  }

  /** From an empty cursor and an idle engine, what the writer takes of the first part
      moves into the cursor whole, with room to spare. */
  lemma FirstRecordFits(w: Writer, p: Pipe, plain: seq<byte>)
    requires CanWrite(p) && HoldsNothingBack(p) && p.out.pending == [] && plain != []
    requires p.buffer == Some(VACANT)
    requires Accepts(w, p.out, Min(|plain|, MAX_PLAINTEXT)).Some?
    ensures var n := Accepts(w, p.out, Min(|plain|, MAX_PLAINTEXT)).value;
            var q := Written(w, p, plain[..Min(|plain|, MAX_PLAINTEXT)], n);
            && q.out.pending == []
            && |q.buffer.value.bytes| <= MAX_TLS_RECORD < TLS_STAGING_CAP
            && Seal(w, p.out, VACANT, plain).used >= n
  {
    var part := plain[..Min(|plain|, MAX_PLAINTEXT)];
    var n := Accepts(w, p.out, |part|).value;
    if n != 0 {
      var cipher := w.seal(|p.out.log|, part[..n]);
      assert n < |cipher| <= n + 261;
      assert Write(w, p.out, part, n).pending == [cipher];
      FlattenOne(cipher);
      assert DropBytes([cipher], |cipher|) == DropBytes([cipher][1..], 0);
    }
  }

  /** A close that gets a slot closes this side for good; one that does not changes
      nothing, and may be retried. A side that has closed, or failed, says nothing more. */
  lemma CloseIsFinal(w: Writer, p: Pipe, actions: seq<Action>)
    ensures (Close(w, p).1.ready == BufferWait) == (p.buffer.None? && p.free == 0)
    ensures Close(w, p).1.ready == BufferWait ==> Close(w, p).0 == p
    ensures Close(w, p).1.ready == Buffered && !p.failed ==> Run(w, Close(w, p).0, actions).0.localClosed
    ensures p.failed || p.localClosed ==>
      Close(w, p).0.localClosed == p.localClosed && Close(w, p).0.out.log == p.out.log
  {
    if Close(w, p).0.localClosed {
      StaysClosed(w, Close(w, p).0, actions);
    }
  }

  lemma StepStaysClosed(w: Writer, p: Pipe, a: Action)
    requires p.localClosed
    ensures Step(w, p, a).localClosed
  {
    StepEvolves(w, p, a);
  }

  lemma PrepareStaysFailed(w: Writer, p: Pipe, plain: seq<byte>)
    requires p.failed
    ensures Prepare(w, p, plain).0.failed
  {
  }

  lemma DrainStaysFailed(p: Pipe, ending: bool)
    requires p.failed
    ensures PrepareDrain(p, ending).0.failed
  {
  }

  lemma CloseStaysFailed(w: Writer, p: Pipe)
    requires p.failed
    ensures Close(w, p).0.failed
  {
  }

  lemma ReceiveStaysFailed(p: Pipe, rounds: seq<seq<Opened>>, lent: bool, fails: bool)
    requires p.failed
    ensures ReceiveStep(p, rounds, lent, fails).failed
  {
  }

  lemma StepStaysFailed(w: Writer, p: Pipe, a: Action)
    requires p.failed
    ensures Step(w, p, a).failed
  {
    match a
    case Preparing(plain) => PrepareStaysFailed(w, p, plain);
    case AfterSending(n) =>
    case Settling(n, ending) => DrainStaysFailed(Advanced(p, n), ending);
    case Flushing =>
    case Draining(ending) => DrainStaysFailed(p, ending);
    case Closing => CloseStaysFailed(w, p);
    case Receiving(rounds, lent, fails) => ReceiveStaysFailed(p, rounds, lent, fails);
    case Elsewhere(free) =>
  }

  /** A closed side stays closed and a failed connection failed. */
  lemma {:induction false} StaysClosed(w: Writer, p: Pipe, actions: seq<Action>)
    ensures p.localClosed ==> Run(w, p, actions).0.localClosed
    ensures p.failed ==> Run(w, p, actions).0.failed
    decreases |actions|
  {
    if actions != [] {
      if p.localClosed { StepStaysClosed(w, p, actions[0]); }
      if p.failed { StepStaysFailed(w, p, actions[0]); }
      StaysClosed(w, Step(w, p, actions[0]), actions[1..]);
    }
  }

  /** A write commits nothing and seals nothing before the handshake is over, after this
      side closed and after a failure; and a failure is reported by the write it happens
      to and by no other, together with the order to close. */
  lemma WritesNeedAnOpenSide(w: Writer, p: Pipe, plain: seq<byte>)
    ensures var (q, a) := Prepare(w, p, plain);
            && (p.failed || p.localClosed || p.handshaking ==>
                  a.used == 0 && SealedPlains(q.out.log) == SealedPlains(p.out.log))
            && (a.failure.Some? <==> !p.failed && q.failed)
            && (a.failure.Some? ==> a.closeAfter)
  {
    PrepareSeals(w, p, plain);
    if !CanWrite(p) { assert SealedPlains(p.out.log) + [] == SealedPlains(p.out.log); }
  }

  /** After this side closed, or failed, a write commits nothing, ever. */
  lemma NothingAfterClose(w: Writer, p: Pipe, actions: seq<Action>, plain: seq<byte>)
    requires p.localClosed || p.failed
    ensures Prepare(w, Run(w, p, actions).0, plain).1.used == 0
  {
    StaysClosed(w, p, actions);
  }

  // ----- no output is stranded -----

  /** Between calls a connection holds a slot only for ciphertext it has yet to send. */
  predicate HoldsForSending(p: Pipe) {
    p.buffer.Some? ==> p.buffer.value.bytes != []
  }

  /** The cursor is empty only if the engine has nothing more to put in it. */
  ghost predicate Clear(o: Outgoing, c: Slot) {
    NoneEmpty(o.pending) && (c.bytes == [] ==> c == VACANT && o.pending == [])
  }

  lemma MovedClears(o: Outgoing, c: Slot)
    requires NoneEmpty(o.pending) && (c.bytes == [] ==> c == VACANT)
    ensures Clear(TakeFrom(o, c), GiveTo(o, c))
  {
    TransferExact(o, c);
  }

  lemma {:induction false} SealClears(w: Writer, o: Outgoing, c: Slot, plain: seq<byte>)
    requires Clear(o, c)
    ensures var s := Seal(w, o, c, plain); Clear(s.out, s.cursor)
    decreases |plain|
  {
    if !(plain == [] || Spare(c) == 0 || WantsWrite(o)) {
      var part := plain[..Min(|plain|, MAX_PLAINTEXT)];
      match Accepts(w, o, |part|)
      case None =>
      case Some(n) =>
        var q := Write(w, o, part, n);
        WriteGrows(w, o, part, n);
        MovedClears(q, c);
        if n != 0 { SealClears(w, TakeFrom(q, c), GiveTo(q, c), plain[n..]); }
    }
  }

  /** What the driver is told when the action is over. */
  function Told(w: Writer, p: Pipe, a: Action): Answer {
    match a
    case Preparing(plain) => Prepare(w, p, plain).1
    case AfterSending(n) => AfterSend(p, n).1
    case Settling(n, ending) => Settle(p, n, ending).1
    case Flushing => Flush(p).1
    case Draining(ending) => PrepareDrain(p, ending).1
    case Closing => Close(w, p).1
    case Receiving(_, _, _) => Answer(Buffered, 0, false, None)
    case Elsewhere(_) => Answer(Buffered, 0, false, None)
  }

  /** The actions that see to the engine's output: every send call, a completion if there
      was something to complete, and draining if the connection is ending. */
  predicate SendsOn(p: Pipe, a: Action) {
    match a
    case Preparing(_) => true
    case AfterSending(_) => p.buffer.Some?
    case Settling(_, ending) => ending
    case Flushing => true
    case Draining(ending) => ending
    case Closing => true
    case Receiving(_, lent, _) => p.handshaking && lent && WithBuffer(p).Some?
    case Elsewhere(_) => false
  }

  lemma TransferClears(p: Pipe)
    requires p.buffer.Some? && NoneEmpty(p.out.pending) && (p.buffer.value.bytes == [] ==> p.buffer.value == VACANT)
    ensures var q := FreeEmpty(Transfer(p)); HoldsForSending(q) && (Unsent(q) == [] ==> q.out.pending == [])
  {
    MovedClears(p.out, p.buffer.value);
  }

  lemma SealIntoClears(w: Writer, p: Pipe, plain: seq<byte>)
    requires p.buffer.Some? && Clear(p.out, p.buffer.value)
    ensures var q := FreeEmpty(SealInto(w, p, plain).0); HoldsForSending(q) && (Unsent(q) == [] ==> q.out.pending == [])
  {
    SealClears(w, p.out, p.buffer.value, plain);
  }

  lemma PrepareClears(w: Writer, p: Pipe, plain: seq<byte>)
    requires HoldsForSending(p) && NoneEmpty(p.out.pending)
    ensures var (q, a) := Prepare(w, p, plain);
            HoldsForSending(q) && (a.ready == Buffered && Unsent(q) == [] ==> q.out.pending == [])
  {
    if WithBuffer(p).Some? {
      var t := Transfer(WithBuffer(p).value);
      MovedClears(p.out, WithBuffer(p).value.buffer.value);
      SealIntoClears(w, t, plain);
    }
  }

  /** Nothing is stranded: when such a call does not ask to wait for a slot, there is
      ciphertext to submit or nothing is held at all; and no call leaves a connection with
      a slot it does not need. */
  lemma NothingStranded(w: Writer, p: Pipe, a: Action)
    requires HoldsForSending(p) && NoneEmpty(p.out.pending)
    ensures var q := Step(w, p, a);
            && HoldsForSending(q)
            && (SendsOn(p, a) && Told(w, p, a).ready == Buffered && Unsent(q) == [] ==> Held(q) == [])
  {
    match a
    case Preparing(plain) => PrepareClears(w, p, plain);
    case AfterSending(n) => if p.buffer.Some? { RefillClears(Advanced(p, n)); }
    case Settling(n, ending) => DrainClears(Advanced(p, n), ending);
    case Flushing => FlushClears(p);
    case Draining(ending) => DrainClears(p, ending);
    case Closing => CloseClears(w, p);
    case Receiving(rounds, lent, fails) => ReceiveClears(p, rounds, lent, fails);
    case Elsewhere(free) =>
  }

  lemma FlushClears(p: Pipe)
    requires HoldsForSending(p) && NoneEmpty(p.out.pending)
    ensures var (q, a) := Flush(p);
            HoldsForSending(q) && (a.ready == Buffered && Unsent(q) == [] ==> q.out.pending == [])
  {
    if WithBuffer(p).Some? { TransferClears(WithBuffer(p).value); }
  }

  lemma CloseClears(w: Writer, p: Pipe)
    requires HoldsForSending(p) && NoneEmpty(p.out.pending)
    ensures var (q, a) := Close(w, p);
            HoldsForSending(q) && (a.ready == Buffered && Unsent(q) == [] ==> q.out.pending == [])
  {
    if WithBuffer(p).Some? {
      CloseGrows(w, p.out);
      TransferClears(QueueClose(w, WithBuffer(p).value));
    }
  }

  lemma ReceiveClears(p: Pipe, rounds: seq<seq<Opened>>, lent: bool, fails: bool)
    requires HoldsForSending(p) && NoneEmpty(p.out.pending)
    ensures var q := ReceiveStep(p, rounds, lent, fails);
            && HoldsForSending(q)
            && (p.handshaking && lent && WithBuffer(p).Some? && Unsent(q) == [] ==> q.out.pending == [])
  {
    if p.handshaking && lent && WithBuffer(p).Some? {
      RoundsGrow(Duplex(p.out, p.handshaking), rounds, p.localClosed);
      TransferClears(Received(WithBuffer(p).value, rounds, fails));
    }
  }

  lemma RefillClears(p: Pipe)
    requires p.buffer.Some? && NoneEmpty(p.out.pending) && (p.buffer.value.bytes == [] ==> p.buffer.value == VACANT)
    ensures var q := FreeEmpty(Refill(p)); HoldsForSending(q) && (Unsent(q) == [] ==> q.out.pending == [])
  {
    if p.buffer.value.bytes == [] { TransferClears(p); }
  }

  lemma DrainClears(p: Pipe, ending: bool)
    requires NoneEmpty(p.out.pending)
    requires p.buffer.Some? && p.buffer.value.bytes == [] ==> p.buffer.value == VACANT
    ensures var (q, a) := PrepareDrain(p, ending);
            && HoldsForSending(q)
            && (ending && a.ready == Buffered && Unsent(q) == [] ==> q.out.pending == [])
  {
    if ending && WantsWrite(p.out) && WithBuffer(p).Some? { RefillClears(WithBuffer(p).value); }
  }

  lemma {:induction false} RunHoldsForSending(w: Writer, p: Pipe, actions: seq<Action>, wire: seq<byte>)
    requires Sound(p, wire) && HoldsForSending(p)
    ensures HoldsForSending(Run(w, p, actions).0)
    decreases |actions|
  {
    if actions != [] {
      StepSound(w, p, actions[0], wire);
      NothingStranded(w, p, actions[0]);
      RunHoldsForSending(w, Step(w, p, actions[0]), actions[1..], wire + Wire(p, actions[0]));
    }
  }

  /** Over every run: once such a call neither asks to wait nor has anything to submit, all
      ciphertext ever produced is on the wire. */
  lemma NothingLeftUnsent(w: Writer, p: Pipe, actions: seq<Action>, a: Action, wire: seq<byte>)
    requires Sound(p, wire) && HoldsForSending(p)
    ensures var (r, sent) := Run(w, p, actions);
            var q := Step(w, r, a);
            SendsOn(r, a) && Told(w, r, a).ready == Buffered && Unsent(q) == [] ==>
              wire + sent + Wire(r, a) == Produced(q.out)
  {
    var (r, sent) := Run(w, p, actions);
    var q := Step(w, r, a);
    EveryRunIsSound(w, p, actions, wire);
    RunHoldsForSending(w, p, actions, wire);
    StepSound(w, r, a, wire + sent);
    NothingStranded(w, r, a);
    if Held(q) == [] { Regroup(wire + sent + Wire(r, a), Unsent(q), Flatten(q.out.pending)); }
    NothingMore(wire + sent + Wire(r, a));
  }

  /** `k` complete sends of a connection nobody else writes to: the pipe after them, and
      what they put on the wire. */
  function CompleteSends(p: Pipe, k: nat): (Pipe, seq<byte>)
    decreases k
  {
    if k == 0 then (p, [])
    else
      var (q, wire) := CompleteSends(AfterSend(p, TLS_STAGING_CAP).0, k - 1);
      (q, Sent(p, TLS_STAGING_CAP) + wire)
  }

  /** The engine's output moves up into an empty cursor, which is given back if there
      was none. */
  lemma MovesUp(p: Pipe)
    requires p.buffer == Some(VACANT) && NoneEmpty(p.out.pending)
    ensures var q := FreeEmpty(Transfer(p));
            && Held(q) == Flatten(p.out.pending)
            && NoneEmpty(q.out.pending)
            && (if p.out.pending == [] then q.buffer.None? && q.free == p.free + 1
                else q.buffer.Some? && q.free == p.free &&
                     |Flatten(q.out.pending)| <= Max0(|Flatten(p.out.pending)| - TLS_STAGING_CAP))
  {
    var t := Transfer(p);
    TransferExact(p.out, VACANT);
    assert Held(t) == [] + Flatten(p.out.pending) == Flatten(p.out.pending);
    if p.out.pending == [] {
      assert t.buffer.value.bytes == [];
    } else {
      assert |Flatten(p.out.pending)| >= |p.out.pending[0]| > 0;
    }
  }

  function Max0(n: int): nat {
    if n < 0 then 0 else n
  }

  /** One complete send: the cursor goes on the wire, and the engine's output moves up. */
  lemma CompleteSend(p: Pipe)
    requires p.buffer.Some? && NoneEmpty(p.out.pending)
    ensures Sent(p, TLS_STAGING_CAP) == Unsent(p)
    ensures var q := AfterSend(p, TLS_STAGING_CAP).0;
            && Held(q) == Flatten(p.out.pending)
            && NoneEmpty(q.out.pending)
            && (if p.out.pending == [] then q.buffer.None? && q.free == p.free + 1
                else q.buffer.Some? && q.free == p.free &&
                     |Flatten(q.out.pending)| <= Max0(|Flatten(p.out.pending)| - TLS_STAGING_CAP))
  {
    var a := p.(buffer := Some(VACANT));
    assert Advanced(p, TLS_STAGING_CAP) == a;
    MovesUp(a);
  }

  /** Sending runs dry: complete sends put everything that is held on the wire, in order,
      and give the slot back. */
  lemma {:induction false} SendsRunDry(p: Pipe, k: nat)
    requires p.buffer.Some? && NoneEmpty(p.out.pending)
    requires |Flatten(p.out.pending)| <= k * TLS_STAGING_CAP
    ensures var (q, wire) := CompleteSends(p, k + 1);
            && wire == Held(p) && Held(q) == []
            && q.buffer.None? && q.free == p.free + 1
    decreases k
  {
    var q := AfterSend(p, TLS_STAGING_CAP).0;
    CompleteSend(p);
    if p.out.pending == [] {
      EmptySends(q, k);
      NothingMore(Unsent(p));
    } else {
      assert |Flatten(p.out.pending)| > 0 by { assert |p.out.pending[0]| > 0; }
      OneCursorLess(|Flatten(p.out.pending)|, k);
      SendsRunDry(q, k - 1);
    }
  }

  lemma OneCursorLess(left: nat, k: nat)
    requires 0 < left <= k * TLS_STAGING_CAP
    ensures k > 0 && Max0(left - TLS_STAGING_CAP) <= (k - 1) * TLS_STAGING_CAP
  {
  }

  lemma {:induction false} EmptySends(p: Pipe, k: nat)
    requires p.buffer.None?
    ensures CompleteSends(p, k) == (p, [])
    decreases k
  {
    if k > 0 {
      EmptySends(p, k - 1);
      assert Sent(p, TLS_STAGING_CAP) + [] == [];
    }
  }
}
