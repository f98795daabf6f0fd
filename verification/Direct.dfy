// src/state/staged.rs and src/state/direct/input.rs: decryption in place, with at most
// one spill into the pool slot that admitted the read.

module Direct {
  import opened Basics
  import opened Staging
  import opened Records
  import opened Outbox
  import opened Native
  import opened Connections

  datatype Release = Released | Retained

  // The admitted slot: still exclusive, published once, or lost to a failed publication.
  datatype Stage = Ready | Kept(chunk: seq<byte>) | Gone

  function Spilled(stage: Stage): seq<byte> {
    if stage.Kept? then stage.chunk else []
  }

  /** Everything handed over so far, in order: the spill, then the input's prefix. */
  function Handed(stage: Stage, prefix: seq<byte>): seq<byte> {
    Spilled(stage) + prefix
  }

  /** Plaintext outruns the consumed input by at most `lead` bytes, the content of the
      one record that began earlier, and those come first. */
  ghost predicate Credit(stage: Stage, used: nat, len: nat, received: seq<seq<byte>>, lead: nat) {
    && |Spilled(stage)| + len + |Flatten(received)| <= used + lead
    && lead <= MAX_PLAINTEXT
    && match stage
       case Ready => if len == 0 then received == [] || |received[0]| >= lead else len >= lead
       case Kept(chunk) => |chunk| >= lead > 0 && |chunk| <= MAX_PLAINTEXT
       case Gone => false
  }

  // Where a chunk ends up: the stage, the input's prefix, and whether it was taken.
  datatype Placed = Placed(stage: Stage, prefix: seq<byte>, ok: bool)

  /** A chunk goes behind the prefix if it fits in the consumed input. Otherwise the slot
      takes the chunk itself, or as much of the prefix as it holds. */
  function Place(stage: Stage, prefix: seq<byte>, used: nat, plain: seq<byte>): Placed {
    if |prefix| + |plain| <= used then Placed(stage, prefix + plain, true)
    else if stage != Ready then Placed(stage, prefix, false)
    else if prefix == [] then
      if |plain| <= MAX_PLAINTEXT then Placed(Kept(plain), [], true) else Placed(Gone, [], false)
    else
      var n := Min(|prefix|, MAX_PLAINTEXT);
      var fits := |prefix| - n + |plain| <= used;
      Placed(Kept(prefix[..n]), prefix[n..] + if fits then plain else [], fits)
  }

  lemma PlaceAppends(stage: Stage, prefix: seq<byte>, used: nat, plain: seq<byte>)
    requires |prefix| <= used
    ensures var p := Place(stage, prefix, used, plain);
            && |p.prefix| <= used
            && Handed(p.stage, p.prefix) == Handed(stage, prefix) + if p.ok then plain else []
  {
    if |prefix| + |plain| > used && stage == Ready && prefix != [] {
      assert prefix == prefix[..Min(|prefix|, MAX_PLAINTEXT)] + prefix[Min(|prefix|, MAX_PLAINTEXT)..];
    }
  }

  /** Placing the next chunk loses nothing and reorders nothing. */
  lemma PlaceHandsOver(stage: Stage, prefix: seq<byte>, used: nat, received: seq<seq<byte>>)
    requires received != [] && |prefix| <= used
    ensures var p := Place(stage, prefix, used, received[0]);
            && |p.prefix| <= used
            && Handed(p.stage, p.prefix) + Flatten(received[if p.ok then 1 else 0..]) ==
               Handed(stage, prefix) + Flatten(received)
  {
    PlaceAppends(stage, prefix, used, received[0]);
    Regroup(Handed(stage, prefix), received[0], Flatten(received[1..]));
  }

  /** Why no chunk is refused: it fits, or the slot is still there and takes the open
      record's content, after which nothing outruns the input any more. */
  lemma CreditSuffices(stage: Stage, prefix: seq<byte>, used: nat, received: seq<seq<byte>>, lead: nat)
    requires received != [] && NoneEmpty(received) && |received[0]| <= MAX_PLAINTEXT && |prefix| <= used
    requires Credit(stage, used, |prefix|, received, lead)
    ensures var p := Place(stage, prefix, used, received[0]);
            p.ok && Credit(p.stage, used, |p.prefix|, received[1..], lead)
  {
  }

  class Staged {
    var state: Stage

    constructor ()
      ensures state == Ready
    {
      state := Ready;
    }

    method Copy(plain: seq<byte>) returns (r: Result<()>)
      modifies this
      ensures old(state) == Ready && |plain| <= MAX_PLAINTEXT ==> r == Ok(()) && state == Kept(plain)
      ensures old(state) == Ready && |plain| > MAX_PLAINTEXT ==> r == Err(Consume) && state == Gone
      ensures old(state) != Ready ==> r == Err(InvalidBufferProgress) && state == old(state)
    {
      var taken := state;
      state := Gone;
      if taken != Ready {
        state := taken;
        return Err(InvalidBufferProgress);
      }
      if |plain| > MAX_PLAINTEXT {
        return Err(Consume);
      }
      state := Kept(plain);
      return Ok(());
    }
  }

  // What one read publishes besides the prefix of its own input.
  datatype Output = Output(chunk: Option<seq<byte>>, control: Result<()>, released: Release)

  function OutputOf(stage: Stage, result: Result<()>): Output {
    match stage
    case Ready => Output(None, result, Released)
    case Kept(chunk) => Output(Some(chunk), result, Release.Retained)
    case Gone => Output(None, result, Released)
  }

  class Input {
    const bytes: array<byte>
    var used: nat
    var len: nat

    constructor (bytes: array<byte>)
      ensures this.bytes == bytes && used == 0 && len == 0
    {
      this.bytes, used, len := bytes, 0, 0;
    }

    ghost predicate InBounds()
      reads this
    {
      len <= used <= bytes.Length
    }

    /** Copies a chunk behind the prefix. */
    method Append(plain: seq<byte>)
      requires InBounds() && |plain| <= used - len
      modifies this`len, bytes
      ensures InBounds() && len == old(len) + |plain|
      ensures bytes[..len] == old(bytes[..len]) + plain
      ensures bytes[used..] == old(bytes[used..])
    {
      ghost var before := bytes[..];
      forall i | 0 <= i < |plain| {
        bytes[len + i] := plain[i];
      }
      len := len + |plain|;
      assert bytes[..old(len)] == before[..old(len)];
    }

    /** Spills as much of the prefix as the slot takes and moves the rest to the front. */
    method Spill(staged: Staged) returns (r: Result<()>)
      requires InBounds()
      modifies this`len, bytes, staged
      ensures InBounds() && bytes[used..] == old(bytes[used..])
      ensures r.Ok? <==> old(staged.state) == Ready
      ensures r.Ok? ==> var n := Min(old(len), MAX_PLAINTEXT);
                        staged.state == Kept(old(bytes[..len])[..n]) && bytes[..len] == old(bytes[..len])[n..]
      ensures r.Err? ==> staged.state == old(staged.state) && bytes[..len] == old(bytes[..len])
    {
      ghost var before := bytes[..len];
      var prefix := Min(len, MAX_PLAINTEXT);
      r := staged.Copy(bytes[..prefix]);
      if r.Ok? {
        forall i | 0 <= i < len - prefix {
          bytes[i] := bytes[prefix + i];
        }
        len := len - prefix;
        assert bytes[..len] == before[prefix..];
      }
    }

    method CopyChunk(conn: Connection, staged: Staged) returns (r: Result<()>)
      requires InBounds() && conn.native.received != [] && conn.native.received[0] != []
      modifies this`len, bytes, staged, conn.native`received
      ensures InBounds() && bytes[used..] == old(bytes[used..])
      ensures Placed(staged.state, bytes[..len], r.Ok?) ==
              Place(old(staged.state), old(bytes[..len]), used, old(conn.native.received)[0])
      ensures conn.native.received == old(conn.native.received)[if r.Ok? then 1 else 0..]
    {
      var plain := conn.native.received[0];
      r := Ok(());
      if |plain| > used - len && len == 0 {
        r := staged.Copy(plain);
      } else {
        if |plain| > used - len {
          r := Spill(staged);
          if r.Ok? && |plain| > used - len {
            r := Err(InvalidBufferProgress);
          }
        }
        if r.Ok? {
          Append(plain);
        }
      }
      if r.Ok? {
        conn.native.Consume(|plain|);
      }
    }

    /** Nothing is lost, whatever happens; and within `Credit` everything is handed over
        without error, at most one spill having happened. */
    method CopyPlain(conn: Connection, staged: Staged, ghost lead: nat) returns (r: Result<()>)
      requires InBounds() && NoneEmpty(conn.native.received)
      requires forall i :: 0 <= i < |conn.native.received| ==> |conn.native.received[i]| <= MAX_PLAINTEXT
      modifies this`len, bytes, staged, conn.native`received
      ensures InBounds()
      ensures bytes[used..] == old(bytes[used..])
      ensures Handed(staged.state, bytes[..len]) + Flatten(conn.native.received) ==
              old(Handed(staged.state, bytes[..len]) + Flatten(conn.native.received))
      ensures r.Ok? ==> conn.native.received == []
      ensures conn.native.received == [] ==>
        Handed(staged.state, bytes[..len]) == old(Handed(staged.state, bytes[..len]) + Flatten(conn.native.received))
      ensures old(Credit(staged.state, used, len, conn.native.received, lead)) ==>
        && conn.native.received == [] && Credit(staged.state, used, len, [], lead)
        && r == if conn.native.FillBuf() == UnexpectedEof then Err(Io) else Ok(())
    {
      ghost var credit := Credit(staged.state, used, len, conn.native.received, lead);
      while true
        invariant InBounds() && NoneEmpty(conn.native.received)
        invariant forall i :: 0 <= i < |conn.native.received| ==> |conn.native.received[i]| <= MAX_PLAINTEXT
        invariant bytes[used..] == old(bytes[used..])
        invariant Handed(staged.state, bytes[..len]) + Flatten(conn.native.received) ==
                  old(Handed(staged.state, bytes[..len]) + Flatten(conn.native.received))
        invariant credit ==> Credit(staged.state, used, len, conn.native.received, lead)
        decreases |conn.native.received|
      {
        var next := conn.native.FillBuf();
        if next == Empty || next == WouldBlock {
          return Ok(());
        }
        if next == UnexpectedEof {
          return Err(Io);
        }
        ghost var received := conn.native.received;
        PlaceHandsOver(staged.state, bytes[..len], used, received);
        if credit { CreditSuffices(staged.state, bytes[..len], used, received, lead); }
        r := CopyChunk(conn, staged);
        if r.Err? {
          return r;
        }
      }
    }

    /** Feeds the unread input to the engine, which takes some of it. */
    method Read(conn: Connection) returns (count: Result<nat>)
      requires InBounds() && used < bytes.Length
      requires conn.native.received == [] && conn.native.end == Running && !conn.native.seenEof
      requires Next(conn.native.suite, conn.native.carry).Short?
      modifies this`used, conn.native`carry, conn.native`seenEof
      ensures count.Ok? && count.value > 0 && InBounds() && used == old(used) + count.value
      ensures conn.native.carry == old(conn.native.carry) + bytes[old(used)..][..count.value]
      ensures !conn.native.seenEof
      ensures bytes[used..] == bytes[old(used)..][count.value..]
    {
      count := conn.native.ReadTls(bytes[used..]);
      if count.Ok? {
        used := used + count.value;
      }
    }

    /** An empty write publishes a KeyUpdate that is held back. */
    static method PublishQueued(conn: Connection) returns (r: Result<()>)
      modifies conn.native`out
      ensures r == Ok(()) && conn.native.out == Publish(old(conn.native.out))
    {
      var n := conn.native.Write([]);
      r := n.Done();
      if n.Ok? && n.value > 0 {
        r := Err(InvalidBufferProgress);
      }
    }

    /** One processing round, of the records `p`. Only a broken stream is an error. */
    static method Process(conn: Connection, ghost p: Parsed) returns (r: Result<()>)
      requires conn.native.end == Running
      requires p == Deframe(conn.native.suite, conn.native.seqno, conn.native.carry)
      modifies conn`peerClosed, conn.native`seqno, conn.native`carry, conn.native`received,
               conn.native`end, conn.native`handshaking, conn.native`out
      ensures conn.native.seqno == old(conn.native.seqno) + |p.events|
      ensures conn.native.carry == p.rest && conn.native.end == p.end
      ensures conn.native.received == old(conn.native.received) + Plains(p.events)
      ensures conn.peerClosed == (old(conn.peerClosed) || p.end == Clean)
      ensures r == if p.end == Broken then Err(Tls) else Ok(())
      ensures Duplex(conn.native.out, conn.native.handshaking) ==
              Round(Duplex(old(conn.native.out), old(conn.native.handshaking)), p.events, conn.localClosed)
      ensures conn.native.out ==
              if p.end == Broken || conn.localClosed || conn.native.handshaking then
                Respond(old(conn.native.out), p.events)
              else Publish(Respond(old(conn.native.out), p.events))
    {
      EndIsLast(conn.native.suite, conn.native.seqno, conn.native.carry);
      assert Cracks(p.events) <==> p.end == Broken;
      var output := conn.native.ProcessNewPackets();
      r := output.Done();
      if output.Ok? {
        conn.peerClosed := conn.peerClosed || output.value;
        if !conn.localClosed && !conn.native.handshaking {
          r := PublishQueued(conn);
        }
      }
    }
  }

  /** A round on top of what was parsed before is the parse of everything so far. */
  lemma FeedMore(s: Suite, n: nat, base: seq<byte>, more: seq<byte>, p: Parsed, q: Parsed, r: Parsed)
    requires p == Deframe(s, n, base) && p.end == Running
    requires q == Deframe(s, n + |p.events|, p.rest + more)
    requires r == Deframe(s, n, base + more)
    ensures r.events == p.events + q.events && r.rest == q.rest && r.end == q.end
    ensures Flatten(Plains(r.events)) == Flatten(Plains(p.events)) + Flatten(Plains(q.events))
  {
    DeframeAppend(s, n, base, more);
    PlainsConcat(p.events, q.events);
    FlattenConcat(Plains(p.events), Plains(q.events));
  }

  lemma FeedMoreSealed(s: Suite, parse: (nat, seq<byte>) -> Parsed, n: nat, base: seq<byte>, more: seq<byte>)
    requires IsParser(parse, s) && parse(n, base).end == Running
    ensures var p := parse(n, base);
            var q := parse(n + |p.events|, p.rest + more);
            var r := parse(n, base + more);
            && r.events == p.events + q.events && r.rest == q.rest && r.end == q.end
            && Flatten(Plains(r.events)) == Flatten(Plains(p.events)) + Flatten(Plains(q.events))
  {
    var p := parse(n, base);
    FeedMore(s, n, base, more, p, parse(n + |p.events|, p.rest + more), parse(n, base + more));
  }

  /** The chunks `ds` of a round are within the credit of the call that has handed over
      the chunks `cs`. */
  lemma CreditRenewed(stage: Stage, used: nat, more: nat, len: nat,
                      cs: seq<seq<byte>>, ds: seq<seq<byte>>, lead: nat)
    requires Credit(stage, used, len, [], lead) && NoneEmpty(cs)
    requires |Spilled(stage)| + len == |Flatten(cs)|
    requires |Flatten(cs)| + |Flatten(ds)| <= used + more + lead
    requires cs + ds != [] ==> |(cs + ds)[0]| >= lead
    ensures Credit(stage, used + more, len, ds, lead)
  {
    assert cs != [] ==> |Flatten(cs)| >= |cs[0]| > 0;
  }

  // The fixed point of reference of one receive call: the stream's state before it, and
  // the input it was given. `parse`, `text`, `joined` and `duplex` are Deframe of the suite,
  // the application data of some records, the records of some rounds and the sending half
  // after them; as values they are not unfolded in every proof.
  datatype Call = Call(suite: Suite, seqno: nat, carry: seq<byte>, input: seq<byte>,
                       start: Duplex, closed: bool,
                       parse: (nat, seq<byte>) -> Parsed,
                       text: seq<Opened> -> seq<byte>,
                       joined: seq<seq<Opened>> -> seq<Opened>,
                       duplex: seq<seq<Opened>> -> Duplex) {
    ghost predicate Valid() {
      && Next(suite, carry).Short? && NoneEmpty(start.out.pending)
      && IsParser(parse, suite)
      && (forall events: seq<Opened> {:trigger Plains(events)} :: text(events) == Flatten(Plains(events)))
      && (forall rounds: seq<seq<Opened>> {:trigger Flatten(rounds)} :: joined(rounds) == Flatten(rounds))
      && (forall rounds: seq<seq<Opened>> {:trigger Rounds(start, rounds, closed)} ::
            duplex(rounds) == Rounds(start, rounds, closed))
    }

    /** What the first `used` input bytes complete. */
    function Upto(used: nat): Parsed
      requires used <= |input|
    {
      parse(seqno, carry + input[..used])
    }

    ghost function Lead(): nat {
      Records.Lead(suite, seqno, carry, input)
    }

    lemma Starts()
      requires Valid()
      ensures Upto(0) == Parsed([], carry, Running) && text([]) == []
      ensures joined([]) == [] && duplex([]) == start
      ensures Square(Ready, 0, 0)
    {
      assert Flatten<Opened>([]) == [] && Rounds(start, [], closed) == start;
      assert carry + input[..0] == carry;
      assert Deframe(suite, seqno, carry) == Parsed([], carry, Running);
      assert Flatten(Plains([])) == [];
    }

    /** Past the end of a stream, further input changes nothing. */
    lemma Ended(used: nat)
      requires Valid() && used <= |input| && (used == |input| || Upto(used).end != Running)
      ensures Deframe(suite, seqno, carry + input) == Upto(used)
    {
      assert carry + input == (carry + input[..used]) + input[used..];
      DeframeAppend(suite, seqno, carry + input[..used], input[used..]);
      if used == |input| {
        assert carry + input == carry + input[..used];
      }
    }

    /** What the whole input completes, once it is used up or the stream has ended. */
    lemma Finishes(used: nat, rounds: seq<seq<Opened>>)
      requires Valid() && used <= |input| && (used == |input| || Upto(used).end != Running)
      ensures var p := Upto(used);
              && Receive(suite, Line(seqno, carry, Running), input) ==
                 (Line(seqno + |p.events|, p.rest, p.end), text(p.events))
              && p.events == Deframe(suite, seqno, carry + input).events
      ensures joined(rounds) == Flatten(rounds) && duplex(rounds) == Rounds(start, rounds, closed)
    {
      Ended(used);
      assert text(Upto(used).events) == Flatten(Plains(Upto(used).events));
      assert Flatten(rounds) == Flatten(rounds) && Rounds(start, rounds, closed) == Rounds(start, rounds, closed);
    }

    /** Nothing is owed: the slot is untouched, or holds a chunk because of the record left
        open before. */
    lemma SquareIsKept(stage: Stage, used: nat, len: nat)
      requires Square(stage, used, len)
      ensures !stage.Gone? && (stage.Kept? ==> 0 < |stage.chunk| <= MAX_PLAINTEXT && carry != [])
    {
    }

    lemma Splits(used: nat, more: nat)
      requires used + more <= |input|
      ensures carry + input[..used + more] == (carry + input[..used]) + input[used..][..more]
    {
    }

    /** `r` is `p` and then `q`. */
    ghost predicate Joins(p: Parsed, q: Parsed, r: Parsed) {
      r.events == p.events + q.events && r.rest == q.rest && r.end == q.end &&
      text(r.events) == text(p.events) + text(q.events)
    }

    /** What one more read adds. */
    lemma Parses(used: nat, more: nat, p: Parsed, q: Parsed, r: Parsed)
      requires Valid() && used + more <= |input|
      requires p == Upto(used) && p.end == Running && r == Upto(used + more)
      requires q == parse(seqno + |p.events|, p.rest + input[used..][..more])
      ensures Joins(p, q, r)
    {
      Splits(used, more);
      FeedMoreSealed(suite, parse, seqno, carry + input[..used], input[used..][..more]);
      Texts(p.events, q.events, r.events);
    }

    lemma Texts(a: seq<Opened>, b: seq<Opened>, c: seq<Opened>)
      requires Valid() && Flatten(Plains(c)) == Flatten(Plains(a)) + Flatten(Plains(b))
      ensures text(c) == text(a) + text(b)
    {
    }

    /** One more round, and the sending half after it. */
    lemma Extends(rounds: seq<seq<Opened>>, events: seq<Opened>, d: Duplex)
      requires Valid() && d == Round(duplex(rounds), events, closed)
      ensures d == duplex(rounds + [events]) && NoneEmpty(d.out.pending)
      ensures joined(rounds + [events]) == joined(rounds) + events
    {
      RoundsExtend(start, rounds, events, closed);
      assert duplex(rounds) == Rounds(start, rounds, closed);
    }

    ghost predicate Wholesome(q: Parsed) {
      var ds := Plains(q.events);
      && NoneEmpty(ds) && (forall i :: 0 <= i < |ds| ==> |ds[i]| <= MAX_PLAINTEXT)
      && (q.end == Running ==> Next(suite, q.rest).Short?)
      && (Cracks(q.events) <==> q.end == Broken)
    }

    lemma Bounds(n: nat, b: seq<byte>)
      requires Valid()
      ensures Wholesome(parse(n, b))
    {
      PlainsBounded(suite, n, b);
      RestIsShort(suite, n, b);
      EndIsLast(suite, n, b);
    }

    /** `q` can be handed over on top of what has been. */
    ghost predicate Affords(stage: Stage, used: nat, len: nat, q: Parsed) {
      Credit(stage, used, len, Plains(q.events), Lead())
    }

    /** Nothing is owed. */
    ghost predicate Square(stage: Stage, used: nat, len: nat) {
      Credit(stage, used, len, [], Lead())
    }

    /** The bound on what `used` bytes of input complete. */
    lemma Leads(used: nat)
      requires Valid() && used <= |input|
      ensures var cs := Plains(Upto(used).events);
              && NoneEmpty(cs) && text(Upto(used).events) == Flatten(cs) && |Flatten(cs)| <= used + Lead()
              && (cs != [] ==> |cs[0]| >= Lead())
    {
      assert Upto(used) == Deframe(suite, seqno, carry + input[..used]);
      PlainsBounded(suite, seqno, carry + input[..used]);
      LeadBound(suite, seqno, carry, input, used);
    }

    /** A round stays within the credit of the call. */
    lemma Credits(used: nat, more: nat, q: Parsed, stage: Stage, len: nat)
      requires Valid() && used + more <= |input| && Joins(Upto(used), q, Upto(used + more))
      requires |Spilled(stage)| + len == |text(Upto(used).events)|
      requires Square(stage, used, len)
      ensures Affords(stage, used + more, len, q)
    {
      var p := Upto(used);
      var ds := Plains(q.events);
      Leads(used);
      Leads(used + more);
      PlainsConcat(p.events, q.events);
      assert text(q.events) == Flatten(ds);
      CreditRenewed(stage, used, more, len, Plains(p.events), ds, Lead());
    }
  }

  lemma SomeCall(suite: Suite, seqno: nat, carry: seq<byte>, input: seq<byte>, start: Duplex, closed: bool)
      returns (call: Call)
    requires Next(suite, carry).Short? && NoneEmpty(start.out.pending)
    ensures call.Valid() && call.suite == suite && call.seqno == seqno && call.carry == carry
    ensures call.input == input && call.start == start && call.closed == closed
  {
    var parse := SomeParser(suite);
    call := Call(suite, seqno, carry, input, start, closed, parse,
                 (events: seq<Opened>) => Flatten(Plains(events)),
                 (rounds: seq<seq<Opened>>) => Flatten(rounds),
                 (rounds: seq<seq<Opened>>) => Rounds(start, rounds, closed));
  }

  /** Processing, in terms of the call it belongs to. */
  method ProcessRound(conn: Connection, ghost call: Call, ghost q: Parsed, ghost rounds: seq<seq<Opened>>)
      returns (r: Result<()>)
    requires call.Valid() && conn.native.suite == call.suite && conn.localClosed == call.closed
    requires conn.native.end == Running && conn.native.received == []
    requires q == call.parse(conn.native.seqno, conn.native.carry) && !conn.peerClosed
    requires Duplex(conn.native.out, conn.native.handshaking) == call.duplex(rounds)
    modifies conn`peerClosed, conn.native`seqno, conn.native`carry, conn.native`received,
             conn.native`end, conn.native`handshaking, conn.native`out
    ensures conn.native.seqno == old(conn.native.seqno) + |q.events|
    ensures conn.native.carry == q.rest && conn.native.end == q.end
    ensures conn.native.received == Plains(q.events)
    ensures conn.peerClosed == (q.end == Clean)
    ensures r == if q.end == Broken then Err(Tls) else Ok(())
    ensures Duplex(conn.native.out, conn.native.handshaking) == call.duplex(rounds + [q.events])
    ensures NoneEmpty(conn.native.out.pending)
    ensures call.joined(rounds + [q.events]) == call.joined(rounds) + q.events
  {
    assert q == Deframe(conn.native.suite, conn.native.seqno, conn.native.carry);
    r := Input.Process(conn, q);
    assert [] + Plains(q.events) == Plains(q.events);
    call.Extends(rounds, q.events, Duplex(conn.native.out, conn.native.handshaking));
  }

  /** A round: process, then copy out, whatever processing said. `q` is what the read
      completes, on top of what has been handed over. */
  method Turn(conn: Connection, input: Input, staged: Staged, ghost call: Call, ghost q: Parsed,
              ghost rounds: seq<seq<Opened>>)
      returns (r: Result<()>)
    requires call.Valid() && conn.native.suite == call.suite && conn.localClosed == call.closed
    requires input.InBounds() && conn.native.end == Running && conn.native.received == []
    requires q == call.parse(conn.native.seqno, conn.native.carry) && call.Wholesome(q)
    requires call.Affords(staged.state, input.used, input.len, q)
    requires !conn.native.seenEof && !conn.peerClosed
    requires Duplex(conn.native.out, conn.native.handshaking) == call.duplex(rounds)
    modifies conn`peerClosed, conn.native`seqno, conn.native`carry, conn.native`received,
             conn.native`end, conn.native`handshaking, conn.native`out, input`len, input.bytes, staged
    ensures input.InBounds() && input.bytes[input.used..] == old(input.bytes[input.used..])
    ensures Handed(staged.state, input.bytes[..input.len]) ==
            old(Handed(staged.state, input.bytes[..input.len])) + call.text(q.events)
    ensures call.Square(staged.state, input.used, input.len)
    ensures conn.native.seqno == old(conn.native.seqno) + |q.events|
    ensures conn.native.carry == q.rest && conn.native.end == q.end && conn.native.received == []
    ensures conn.peerClosed == (q.end == Clean)
    ensures r == if q.end == Broken then Err(Tls) else Ok(())
    ensures Duplex(conn.native.out, conn.native.handshaking) == call.duplex(rounds + [q.events])
    ensures NoneEmpty(conn.native.out.pending)
    ensures call.joined(rounds + [q.events]) == call.joined(rounds) + q.events
  {
    var processed := ProcessRound(conn, call, q, rounds);
    var copied := input.CopyPlain(conn, staged, call.Lead());
    r := And(processed, copied);
  }

  /** Between rounds: everything the consumed input completes has been handed over. */
  ghost predicate Tracks(call: Call, conn: Connection, input: Input, staged: Staged, used: nat)
    reads conn, conn.native, input, input.bytes, staged
  {
    && input.InBounds() && input.len <= used <= |call.input|
    && var p := call.Upto(used);
    && conn.native.seqno == call.seqno + |p.events| && conn.native.end == p.end
    && conn.native.received == [] && NoneEmpty(conn.native.out.pending) && !conn.native.seenEof
    && conn.peerClosed == (p.end == Clean) && !conn.failed
    && Handed(staged.state, input.bytes[..input.len]) == call.text(p.events)
    && call.Square(staged.state, used, input.len)
  }

  /** And the engine holds what is left of the input. */
  ghost predicate Stands(call: Call, conn: Connection, input: Input, staged: Staged, rounds: seq<seq<Opened>>)
    reads conn, conn.native, input, input.bytes, staged
  {
    && Tracks(call, conn, input, staged, input.used)
    && var p := call.Upto(input.used);
    && conn.native.carry == p.rest && (p.end == Running ==> Next(call.suite, p.rest).Short?)
    && call.joined(rounds) == p.events
  }

  /** A read of `more` bytes, already taken by the engine, and the round it leads to. */
  method Step(conn: Connection, input: Input, staged: Staged, ghost call: Call, ghost more: nat,
              ghost rounds: seq<seq<Opened>>)
      returns (r: Result<()>, ghost events: seq<Opened>)
    requires call.Valid() && conn.native.suite == call.suite && conn.localClosed == call.closed
    requires input.used >= more && Tracks(call, conn, input, staged, input.used - more)
    requires input.used <= |call.input| && conn.native.end == Running
    requires var p := call.Upto(input.used - more);
             && conn.native.carry == p.rest + call.input[input.used - more..][..more]
             && call.joined(rounds) == p.events
    requires Duplex(conn.native.out, conn.native.handshaking) == call.duplex(rounds)
    modifies conn`peerClosed, conn.native`seqno, conn.native`carry, conn.native`received,
             conn.native`end, conn.native`handshaking, conn.native`out, input`len, input.bytes, staged
    ensures Stands(call, conn, input, staged, rounds + [events])
    ensures r == if conn.native.end == Broken then Err(Tls) else Ok(())
    ensures Cracks(events) <==> conn.native.end == Broken
    ensures input.bytes[input.used..] == old(input.bytes[input.used..])
    ensures Duplex(conn.native.out, conn.native.handshaking) == call.duplex(rounds + [events])
  {
    ghost var before := input.used - more;
    ghost var q := call.parse(conn.native.seqno, conn.native.carry);
    call.Parses(before, more, call.Upto(before), q, call.Upto(input.used));
    call.Bounds(conn.native.seqno, conn.native.carry);
    call.Credits(before, more, q, staged.state, input.len);
    events := q.events;
    r := Turn(conn, input, staged, call, q, rounds);
  }

  /** One turn of the loop: a read, which always gets somewhere, and its round. */
  method Advance(conn: Connection, input: Input, staged: Staged, ghost call: Call, ghost rounds: seq<seq<Opened>>)
      returns (r: Result<()>, more: bool, ghost events: seq<Opened>)
    requires call.Valid() && call.suite == conn.native.suite && call.closed == conn.localClosed
    requires Stands(call, conn, input, staged, rounds) && conn.native.end == Running
    requires input.used < input.bytes.Length == |call.input|
    requires input.bytes[input.used..] == call.input[input.used..]
    requires Duplex(conn.native.out, conn.native.handshaking) == call.duplex(rounds)
    modifies conn`peerClosed, conn.native`seqno, conn.native`carry, conn.native`received, conn.native`seenEof,
             conn.native`end, conn.native`handshaking, conn.native`out, input`used, input`len, input.bytes, staged
    ensures more && input.used > old(input.used)
    ensures Stands(call, conn, input, staged, rounds + [events])
    ensures r == if conn.native.end == Broken then Err(Tls) else Ok(())
    ensures Cracks(events) <==> conn.native.end == Broken
    ensures input.bytes[input.used..] == call.input[input.used..]
    ensures Duplex(conn.native.out, conn.native.handshaking) == call.duplex(rounds + [events])
  {
    events := [];
    var count := input.Read(conn);
    r := count.Done();
    more := count.Ok? && count.value > 0;
    if more {
      DropTwice(call.input, input.used - count.value, count.value);
      r, events := Step(conn, input, staged, call, count.value, rounds);
    }
  }

  /** The loop of Input::owned: it stops when the input is used up or the stream ends,
      and every read moves it on. */
  method Run(conn: Connection, input: Input, staged: Staged, ghost call: Call)
      returns (result: Result<()>, ghost rounds: seq<seq<Opened>>)
    requires call.Valid() && call.suite == conn.native.suite && call.input == input.bytes[..]
    requires call.closed == conn.localClosed && call.duplex([]) == Duplex(conn.native.out, conn.native.handshaking)
    requires Stands(call, conn, input, staged, []) && input.used == 0 && conn.native.end == Running
    modifies conn`peerClosed, conn.native`seqno, conn.native`carry, conn.native`received, conn.native`seenEof,
             conn.native`end, conn.native`handshaking, conn.native`out, input`used, input`len, input.bytes, staged
    ensures Stands(call, conn, input, staged, rounds)
    ensures input.bytes[input.used..] == call.input[input.used..]
    ensures input.used == |call.input| || conn.native.end != Running
    ensures result == if conn.native.end == Broken then Err(Tls) else Ok(())
    ensures Duplex(conn.native.out, conn.native.handshaking) == call.duplex(rounds)
    ensures Unbroken(rounds) || conn.native.end == Broken
  {
    result, rounds := Ok(()), [];
    while input.used != input.bytes.Length && !conn.peerClosed && !conn.failed
      invariant Stands(call, conn, input, staged, rounds) && conn.native.end != Broken
      invariant input.bytes[input.used..] == call.input[input.used..]
      invariant Duplex(conn.native.out, conn.native.handshaking) == call.duplex(rounds)
      invariant result == Ok(()) && Unbroken(rounds)
      decreases input.bytes.Length - input.used
    {
      ghost var events;
      var more;
      result, more, events := Advance(conn, input, staged, call, rounds);
      rounds := rounds + [events];
      if !more || result.Err? {
        break;
      }
    }
  }

  /** The line a connection stands on. */
  ghost function LineOf(conn: Connection): Line
    reads conn, conn.native
  {
    Line(conn.native.seqno, conn.native.carry, conn.native.end)
  }

  /** The loop of a call on an open stream, and the call it is of. */
  method RunOpen(conn: Connection, input: Input, staged: Staged)
      returns (result: Result<()>, ghost rounds: seq<seq<Opened>>, ghost call: Call)
    requires conn.Settled() && !conn.peerClosed && !conn.failed
    requires input.used == 0 && input.len == 0 && staged.state == Ready
    modifies conn`peerClosed, conn.native`seqno, conn.native`carry, conn.native`received, conn.native`seenEof,
             conn.native`end, conn.native`handshaking, conn.native`out, input`used, input`len, input.bytes, staged
    ensures call.Valid() && call.suite == conn.native.suite && call.closed == conn.localClosed
    ensures call.seqno == old(conn.native.seqno) && call.carry == old(conn.native.carry)
    ensures call.input == old(input.bytes[..])
    ensures call.start == Duplex(old(conn.native.out), old(conn.native.handshaking))
    ensures Stands(call, conn, input, staged, rounds)
    ensures input.bytes[input.used..] == call.input[input.used..]
    ensures input.used == |call.input| || conn.native.end != Running
    ensures result == if conn.native.end == Broken then Err(Tls) else Ok(())
    ensures Duplex(conn.native.out, conn.native.handshaking) == call.duplex(rounds)
    ensures Unbroken(rounds) || conn.native.end == Broken
  {
    call := SomeCall(conn.native.suite, conn.native.seqno, conn.native.carry, input.bytes[..],
                     Duplex(conn.native.out, conn.native.handshaking), conn.localClosed);
    call.Starts();
    result, rounds := Run(conn, input, staged, call);
  }

  /** Input::owned while the stream is open. */
  method OwnedOpen(conn: Connection, input: Input, staged: Staged)
      returns (result: Result<()>, ghost rounds: seq<seq<Opened>>)
    requires conn.Settled() && !conn.peerClosed && !conn.failed
    requires input.used == 0 && input.len == 0 && staged.state == Ready
    modifies conn`peerClosed, conn.native`seqno, conn.native`carry, conn.native`received, conn.native`seenEof,
             conn.native`end, conn.native`handshaking, conn.native`out, input`used, input`len, input.bytes, staged
    ensures input.len <= input.used <= input.bytes.Length
    ensures input.bytes[input.used..] == old(input.bytes[..])[input.used..]
    ensures LineOf(conn) == Receive(conn.native.suite, old(LineOf(conn)), old(input.bytes[..])).0
    ensures Handed(staged.state, input.bytes[..input.len]) ==
            Receive(conn.native.suite, old(LineOf(conn)), old(input.bytes[..])).1
    ensures conn.native.end == Running ==>
      input.used == input.bytes.Length && Next(conn.native.suite, conn.native.carry).Short?
    ensures conn.native.received == [] && !conn.native.seenEof && NoneEmpty(conn.native.out.pending)
    ensures conn.peerClosed == (conn.native.end == Clean)
    ensures result == if conn.native.end == Broken then Err(Tls) else Ok(())
    ensures Flatten(rounds) ==
            Deframe(conn.native.suite, old(conn.native.seqno), old(conn.native.carry) + old(input.bytes[..])).events
    ensures Duplex(conn.native.out, conn.native.handshaking) ==
            Rounds(Duplex(old(conn.native.out), old(conn.native.handshaking)), rounds, conn.localClosed)
    ensures Unbroken(rounds) || conn.native.end == Broken
    ensures !staged.state.Gone?
    ensures staged.state.Kept? ==> 0 < |staged.state.chunk| <= MAX_PLAINTEXT && old(conn.native.carry) != []
  {
    ghost var call;
    result, rounds, call := RunOpen(conn, input, staged);
    call.Finishes(input.used, rounds);
    assert old(LineOf(conn)) == Line(call.seqno, call.carry, Running);
    call.SquareIsKept(staged.state, input.used, input.len);
  }

  /** Input::owned, one receive call. The stream moves on by exactly `bytes`; what it
      decrypts is the spilled chunk followed by `bytes[..len]`; and the call fails exactly
      when the stream is broken, so neither a second spill nor a lack of room occurs. */
  method Owned(conn: Connection, bytes: array<byte>)
      returns (output: Output, len: nat, ghost used: nat, ghost rounds: seq<seq<Opened>>)
    requires conn.Settled()
    modifies conn`peerClosed, conn`failed, conn.native`seqno, conn.native`carry, conn.native`received,
             conn.native`seenEof, conn.native`end, conn.native`handshaking, conn.native`out, bytes
    ensures conn.Settled()
    ensures len <= used <= bytes.Length && bytes[used..] == old(bytes[used..])
    ensures old(conn.peerClosed || conn.failed) ==>
      output == Output(None, Ok(()), Released) && len == 0 && used == 0 && rounds == [] &&
      unchanged(conn.native) && unchanged(conn)
    ensures old(!conn.peerClosed && !conn.failed) ==>
      && (LineOf(conn), Handed(if output.chunk.Some? then Kept(output.chunk.value) else Ready, bytes[..len])) ==
         Receive(conn.native.suite, old(LineOf(conn)), old(bytes[..]))
      && conn.failed == (conn.native.end == Broken)
      && output.control == (if conn.native.end == Broken then Err(Tls) else Ok(()))
      && (used == bytes.Length || conn.native.end != Running)
      && Flatten(rounds) ==
         Deframe(conn.native.suite, old(conn.native.seqno), old(conn.native.carry) + old(bytes[..])).events
    ensures Duplex(conn.native.out, conn.native.handshaking) ==
            Rounds(Duplex(old(conn.native.out), old(conn.native.handshaking)), rounds, conn.localClosed)
    ensures Unbroken(rounds) || conn.failed
    ensures output.released == Released <==> output.chunk == None
    ensures output.chunk.Some? ==> 0 < |output.chunk.value| <= MAX_PLAINTEXT && old(conn.native.carry) != []
  {
    var input := new Input(bytes);
    var staged := new Staged();
    var result := Ok(());
    rounds := [];
    if !conn.peerClosed && !conn.failed {
      result, rounds := OwnedOpen(conn, input, staged);
    }
    conn.failed := conn.failed || result.Err?;
    output := OutputOf(staged.state, result);
    len, used := input.len, input.used;
  }
}
