// src/tls/receive/mod.rs and raw.rs: what one receive call publishes, and what any
// sequence of receive calls amounts to.

module Receiving {
  import opened Basics
  import opened Records
  import opened Outbox
  import opened Connections
  import opened Direct
  import Stream

  function ReceiveAll(s: Suite, l: Line, calls: seq<seq<byte>>): (Line, seq<byte>)
    decreases |calls|
  {
    if calls == [] then (l, [])
    else
      var (m, text) := Receive(s, l, calls[0]);
      var (last, more) := ReceiveAll(s, m, calls[1..]);
      (last, text + more)
  }

  // Receive, with the parser as a value.
  function ReceiveWith(parse: (nat, seq<byte>) -> Parsed, l: Line, bytes: seq<byte>): (Line, seq<byte>) {
    if l.end != Running then (l, [])
    else
      var p := parse(l.seqno, l.carry + bytes);
      (Line(l.seqno + |p.events|, p.rest, p.end), Flatten(Plains(p.events)))
  }

  lemma SameReceive(s: Suite, parse: (nat, seq<byte>) -> Parsed, l: Line, bytes: seq<byte>)
    requires IsParser(parse, s)
    ensures ReceiveWith(parse, l, bytes) == Receive(s, l, bytes)
  {
  }

  lemma ReceiveOnWith(s: Suite, parse: (nat, seq<byte>) -> Parsed, l: Line, a: seq<byte>, b: seq<byte>)
    requires IsParser(parse, s) && l.end == Running && ReceiveWith(parse, l, a).0.end == Running
    ensures var (m, text) := ReceiveWith(parse, l, a);
            var (last, more) := ReceiveWith(parse, m, b);
            ReceiveWith(parse, l, a + b) == (last, text + more)
  {
    Regroup(l.carry, a, b);
    FeedMoreSealed(s, parse, l.seqno, l.carry + a, b);
  }

  lemma ReceiveOn(s: Suite, l: Line, a: seq<byte>, b: seq<byte>)
    requires l.end == Running && Receive(s, l, a).0.end == Running
    ensures var (m, text) := Receive(s, l, a);
            var (last, more) := Receive(s, m, b);
            Receive(s, l, a + b) == (last, text + more)
  {
    var parse := SomeParser(s);
    SameReceive(s, parse, l, a);
    SameReceive(s, parse, Receive(s, l, a).0, b);
    SameReceive(s, parse, l, a + b);
    ReceiveOnWith(s, parse, l, a, b);
  }

  lemma ReceivePastEnd(s: Suite, l: Line, a: seq<byte>, b: seq<byte>)
    requires l.end == Running && Receive(s, l, a).0.end != Running
    ensures Receive(s, l, a + b) == Receive(s, l, a)
  {
    Regroup(l.carry, a, b);
    DeframeAppend(s, l.seqno, l.carry + a, b);
  }

  /** Receiving twice is receiving the concatenation. */
  lemma ReceiveTwice(s: Suite, l: Line, a: seq<byte>, b: seq<byte>)
    ensures var (m, text) := Receive(s, l, a);
            var (last, more) := Receive(s, m, b);
            Receive(s, l, a + b) == (last, text + more)
  {
    var (m, text) := Receive(s, l, a);
    if l.end == Running && m.end == Running {
      ReceiveOn(s, l, a, b);
    } else {
      if l.end == Running { ReceivePastEnd(s, l, a, b); }
      NothingMore(text);
    }
  }

  /** Fragmentation independence: however a stream is cut into receive calls, the calls
      together yield what one call with all of it would. */
  lemma {:induction false} FragmentationIndependence(s: Suite, l: Line, calls: seq<seq<byte>>)
    requires l.end == Running ==> Next(s, l.carry).Short?
    ensures ReceiveAll(s, l, calls) == Receive(s, l, Flatten(calls))
    decreases |calls|
  {
    if calls == [] {
      assert l.carry + [] == l.carry;
      assert Plains([]) == [];
    } else {
      var m := Receive(s, l, calls[0]).0;
      if l.end == Running { RestIsShort(s, l.seqno, l.carry + calls[0]); }
      FragmentationIndependence(s, m, calls[1..]);
      ReceiveTwice(s, l, calls[0], Flatten(calls[1..]));
    }
  }

  /** From the start of a connection: the output is the plaintext of the records completed
      before the first bad record or close_notify, for every way to cut the stream. */
  lemma WholeStream(s: Suite, calls: seq<seq<byte>>)
    ensures var p := Deframe(s, 0, Flatten(calls));
            ReceiveAll(s, Line(0, [], Running), calls) ==
            (Line(|p.events|, p.rest, p.end), Flatten(Plains(p.events)))
  {
    FragmentationIndependence(s, Line(0, [], Running), calls);
    assert [] + Flatten(calls) == Flatten(calls);
  }

  /** Records are looked at until the first close_notify or bad record, and that one says
      how the stream ended. With PeerEof: an input that stops without close_notify fails
      the connection, wherever it was cut. */
  lemma {:induction false} EndsOnce(s: Suite, n: nat, b: seq<byte>)
    ensures var p := Deframe(s, n, b);
            && (forall i :: 0 <= i < |p.events| - 1 ==> !p.events[i].CloseNotify? && !p.events[i].Bad?)
            && (p.end == Clean <==> p.events != [] && p.events[|p.events| - 1].CloseNotify?)
            && (p.end == Broken <==> p.events != [] && p.events[|p.events| - 1].Bad?)
    decreases |b|
  {
    match Next(s, b)
    case Short =>
    case Refused =>
    case Whole(size) =>
      if EndOf(Open(s, n, b[..size])) == Running {
        EndsOnce(s, n + 1, b[size..]);
      }
  }

  // ----- what a call publishes -----

  // At most two chunks: the spilled one, then the input's own prefix.
  class Batch {
    var owned: Option<seq<byte>>
    var plain: Option<seq<byte>>

    constructor (owned: Option<seq<byte>>, plain: Option<seq<byte>>)
      ensures this.owned == owned && this.plain == plain
    {
      this.owned, this.plain := owned, plain;
    }

    ghost function Chunks(): seq<seq<byte>>
      reads this
    {
      (if owned.Some? then [owned.value] else []) + (if plain.Some? then [plain.value] else [])
    }

    function Len(): (n: nat)
      reads this
      ensures n == |Chunks()| <= 2
    {
      (if owned.Some? then 1 else 0) + (if plain.Some? then 1 else 0)
    }

    method Next() returns (item: Option<seq<byte>>)
      modifies this
      ensures item.None? ==> old(Chunks()) == [] == Chunks()
      ensures item.Some? ==> old(Chunks()) == [item.value] + Chunks()
    {
      if owned.Some? {
        item := owned;
        owned := None;
      } else {
        item := plain;
        plain := None;
      }
    }
  }

  lemma FlattenTwo(a: Option<seq<byte>>, b: seq<byte>)
    ensures Flatten((if a.Some? then [a.value] else []) + (if b != [] then [b] else [])) ==
            Handed(if a.Some? then Kept(a.value) else Ready, b)
  {
    var x := if a.Some? then [a.value] else [];
    var y := if b != [] then [b] else [];
    FlattenConcat(x, y);
    if a.Some? { FlattenOne(a.value); }
    if b != [] { FlattenOne(b); }
  }

  /** Ingress::read_batch: a receive call whose input stays with the caller. */
  method ReadBatch(conn: Connection, bytes: array<byte>)
      returns (batch: Batch, control: Result<()>, released: Release, ghost rounds: seq<seq<Opened>>)
    requires conn.Settled()
    modifies conn`peerClosed, conn`failed, conn.native`seqno, conn.native`carry, conn.native`received,
             conn.native`seenEof, conn.native`end, conn.native`handshaking, conn.native`out, bytes
    ensures conn.Settled() && fresh(batch)
    ensures old(!conn.peerClosed && !conn.failed) ==>
      && (LineOf(conn), Flatten(batch.Chunks())) ==
         Receive(conn.native.suite, old(LineOf(conn)), old(bytes[..]))
      && control == (if conn.native.end == Broken then Err(Tls) else Ok(()))
      && conn.failed == (conn.native.end == Broken)
    ensures old(conn.peerClosed || conn.failed) ==>
      batch.Chunks() == [] && control == Ok(()) && unchanged(conn) && unchanged(conn.native)
    ensures NoneEmpty(batch.Chunks())
    ensures released == Release.Retained <==> batch.owned.Some?
    ensures Duplex(conn.native.out, conn.native.handshaking) ==
            Rounds(Duplex(old(conn.native.out), old(conn.native.handshaking)), rounds, conn.localClosed)
    ensures Unbroken(rounds) || conn.failed
  {
    var output, len;
    ghost var used;
    output, len, used, rounds := Owned(conn, bytes);
    FlattenTwo(output.chunk, bytes[..len]);
    batch := new Batch(output.chunk, if len == 0 then None else Some(bytes[..len]));
    control, released := output.control, output.released;
  }

  // What a call heard: the line after it and the text it yielded.
  type Heard = (Line, seq<byte>)

  function ControlOf(line: Line): Result<()> {
    if line.end == Broken then Err(Tls) else Ok(())
  }

  /** A read within the limit is kept whole; a longer one is not, and fails. */
  predicate IsKept(queue: Option<Stream.Segments>, failure: Result<()>, heard: Heard, limit: nat) {
    if |heard.1| > limit then queue.None? && failure.Err? && (heard.0.end == Broken ==> failure == Err(Tls))
    else (if queue.Some? then Stream.Contents(queue.value) else []) == heard.1 && failure == ControlOf(heard.0)
  }

  ghost function QueueOf(output: Option<Stream.Retained>): Option<Stream.Segments>
    reads if output.Some? then {output.value} + output.value.Owned() else {}
  {
    if output.Some? then Some(output.value.Queue()) else None
  }

  /** Turns what a call handed over into a retained read, unless it is too long. */
  method Keep(conn: Connection, owned: Output, plain: Stream.Cursor, limit: nat, ghost heard: Heard)
      returns (output: Option<Stream.Retained>, failure: Result<()>, released: Release)
    requires plain.Valid()
    requires owned.released == Released <==> owned.chunk == None
    requires owned.chunk.Some? ==> owned.chunk.value != []
    requires heard.1 == Handed(if owned.chunk.Some? then Kept(owned.chunk.value) else Ready, plain.AsSlice())
    modifies conn`failed
    ensures output.Some? ==> fresh(output.value) && fresh(output.value.Owned() - {plain}) && output.value.Valid()
    ensures conn.failed == (old(conn.failed) || |heard.1| > limit)
    ensures output.None? <==> |heard.1| > limit || heard.1 == []
    ensures |heard.1| > limit ==> failure.Err?
    ensures |heard.1| <= limit || owned.control.Err? ==> failure == owned.control
    ensures |heard.1| > limit && owned.control.Ok? ==>
      failure == Err(if owned.chunk.Some? && |owned.chunk.value| > limit then Error.Staged else Error.Retained)
    ensures owned.control == ControlOf(heard.0) ==> IsKept(QueueOf(output), failure, heard, limit)
    ensures released == Release.Retained <==> QueueOf(output).Some? && QueueOf(output).value.staged != []
  {
    failure, released := owned.control, owned.released;
    var kept := Stream.Retained.TryNew(limit, owned.chunk, plain);
    match kept {
      case Ok(q) => output := q;
      case Err(cause) =>
        conn.failed := true;
        released := Released;
        if failure.Ok? {
          failure := Err(cause);
        }
        output := None;
    }
  }

  /** The call behind a retained read, and a cursor over the prefix it filled. */
  method OwnedCursor(conn: Connection, bytes: array<byte>)
      returns (owned: Output, plain: Stream.Cursor, ghost rounds: seq<seq<Opened>>, ghost heard: Heard)
    requires conn.Settled()
    modifies conn`peerClosed, conn`failed, conn.native`seqno, conn.native`carry, conn.native`received,
             conn.native`seenEof, conn.native`end, conn.native`handshaking, conn.native`out, bytes
    ensures conn.Settled() && LineOf(conn) == heard.0 && fresh(plain) && plain.Valid()
    ensures heard.1 == Handed(if owned.chunk.Some? then Kept(owned.chunk.value) else Ready, plain.AsSlice())
    ensures owned.released == Released <==> owned.chunk == None
    ensures owned.chunk.Some? ==> owned.chunk.value != []
    ensures old(!conn.peerClosed && !conn.failed) ==>
      && heard == Receive(conn.native.suite, old(LineOf(conn)), old(bytes[..]))
      && conn.failed == (heard.0.end == Broken) && owned.control == ControlOf(heard.0)
    ensures old(conn.peerClosed || conn.failed) ==>
      heard.1 == [] && owned.control == Ok(()) && unchanged(conn) && unchanged(conn.native)
    ensures Duplex(conn.native.out, conn.native.handshaking) ==
            Rounds(Duplex(old(conn.native.out), old(conn.native.handshaking)), rounds, conn.localClosed)
    ensures Unbroken(rounds) || conn.failed
  {
    var len;
    ghost var used;
    owned, len, used, rounds := Owned(conn, bytes);
    plain := new Stream.Cursor(bytes[..], len);
    assert plain.AsSlice() == bytes[..len];
    heard := (LineOf(conn), Handed(if owned.chunk.Some? then Kept(owned.chunk.value) else Ready, bytes[..len]));
  }

  /** Ingress::retain: a receive call that keeps its input. The slot counts as retained
      exactly when the result holds the spilled chunk. */
  method Retain(conn: Connection, bytes: array<byte>, limit: nat)
      returns (output: Option<Stream.Retained>, failure: Result<()>, released: Release,
               ghost rounds: seq<seq<Opened>>, ghost heard: Heard)
    requires conn.Settled()
    modifies conn`peerClosed, conn`failed, conn.native`seqno, conn.native`carry, conn.native`received,
             conn.native`seenEof, conn.native`end, conn.native`handshaking, conn.native`out, bytes
    ensures conn.Settled() && LineOf(conn) == heard.0
    ensures output.Some? ==> fresh(output.value) && fresh(output.value.Owned()) && output.value.Valid()
    ensures old(!conn.peerClosed && !conn.failed) ==>
      && heard == Receive(conn.native.suite, old(LineOf(conn)), old(bytes[..]))
      && conn.failed == (heard.0.end == Broken || |heard.1| > limit)
      && IsKept(QueueOf(output), failure, heard, limit)
    ensures old(conn.peerClosed || conn.failed) ==>
      output.None? && failure == Ok(()) && unchanged(conn) && unchanged(conn.native)
    ensures released == Release.Retained <==> QueueOf(output).Some? && QueueOf(output).value.staged != []
    ensures Duplex(conn.native.out, conn.native.handshaking) ==
            Rounds(Duplex(old(conn.native.out), old(conn.native.handshaking)), rounds, conn.localClosed)
    ensures Unbroken(rounds) || conn.failed
  {
    var owned, plain;
    owned, plain, rounds, heard := OwnedCursor(conn, bytes);
    output, failure, released := Keep(conn, owned, plain, limit, heard);
  }
}
