// The foreign TLS engine, as the crate sees it: only the calls the crate makes, each
// with the behaviour the crate relies on. The bodies are the least specific ones that
// meet those contracts; in particular a read takes any nonempty prefix it likes.

module Native {
  import opened Basics
  import opened Staging
  import opened Records
  import opened Outbox

  type Positive = n: nat | n > 0 witness 1

  // What the plaintext reader offers next.
  datatype Filled = Chunk(plain: seq<byte>) | Empty | WouldBlock | UnexpectedEof

  // src/state/mod.rs, Output: the spare capacity of a cursor, filled by gather writes.
  class Output {
    const room: nat
    var written: seq<byte>

    ghost predicate Valid()
      reads this
    {
      |written| <= room
    }

    constructor (room: nat)
      ensures Valid() && this.room == room && written == []
    {
      this.room := room;
      written := [];
    }

    function Remaining(): nat
      requires Valid()
      reads this
    {
      room - |written|
    }

    method Write(bytes: seq<byte>) returns (n: nat)
      requires Valid()
      modifies this`written
      ensures Valid()
      ensures n == Min(old(Remaining()), |bytes|)
      ensures written == old(written) + bytes[..n]
    {
      n := Min(Remaining(), |bytes|);
      written := written + bytes[..n];
    }

    method WriteVectored(chunks: seq<seq<byte>>) returns (count: nat)
      requires Valid()
      modifies this`written
      ensures Valid()
      ensures count == Min(old(Remaining()), |Flatten(chunks)|)
      ensures written == old(written) + Flatten(chunks)[..count]
    {
      count := 0;
      var i := 0;
      while i < |chunks|
        invariant 0 <= i <= |chunks| && Valid()
        invariant count == |written| - |old(written)|
        invariant written + Flatten(chunks[i..]) == old(written) + Flatten(chunks)
      {
        assert chunks[i..][1..] == chunks[i + 1..];
        ghost var before := written;
        var n := Write(chunks[i]);
        count := count + n;
        if n != |chunks[i]| {
          assert Remaining() == 0;
          assert before + Flatten(chunks[i..]) == written + (chunks[i][n..] + Flatten(chunks[i + 1..]));
          assert old(written) + Flatten(chunks) == written + (chunks[i][n..] + Flatten(chunks[i + 1..]));
          assert written == (old(written) + Flatten(chunks))[..|written|];
          break;
        }
        assert before + Flatten(chunks[i..]) == written + Flatten(chunks[i + 1..]);
        i := i + 1;
      }
      if i == |chunks| {
        assert chunks[i..] == [];
        assert written == old(written) + Flatten(chunks);
      }
    }
  }

  class Engine {
    const suite: Suite
    const writer: Writer
    const gather: Positive  // chunks offered to one gather write
    // receiving half
    var seqno: nat
    var carry: seq<byte>
    var received: seq<seq<byte>>
    var end: End
    var seenEof: bool
    // sending half
    var handshaking: bool
    var out: Outgoing

    constructor (suite: Suite, writer: Writer, gather: Positive, out: Outgoing)
      ensures this.suite == suite && this.writer == writer && this.gather == gather && this.out == out
      ensures seqno == 0 && carry == [] && received == [] && end == Running && !seenEof && handshaking
    {
      this.suite, this.writer, this.gather, this.out := suite, writer, gather, out;
      seqno, carry, received, end, seenEof, handshaking := 0, [], [], Running, false, true;
    }

    /** Takes some of `tail`, refusing only when it already holds a record's worth of
        unprocessed bytes or more than one record's worth of unread plaintext. */
    method ReadTls(tail: seq<byte>) returns (r: Result<nat>)
      modifies this`carry, this`seenEof
      ensures r.Ok? ==> r.value <= |tail| && carry == old(carry) + tail[..r.value]
      ensures r.Err? <==> |Flatten(received)| > MAX_PLAINTEXT ||
                          (end != Clean && tail != [] && |old(carry)| >= HEADER + suite.room)
      ensures r.Err? ==> carry == old(carry) && r.error == Io
      ensures r.Ok? && end != Clean && tail != [] ==> r.value > 0
      ensures r.Ok? && end == Clean ==> r.value == 0
      ensures seenEof == (old(seenEof) || (tail == [] && end != Clean && r.Ok?))
    {
      if |Flatten(received)| > MAX_PLAINTEXT {
        return Err(Io);
      }
      if end == Clean {
        return Ok(0);
      }
      if tail == [] {
        seenEof := true;
        return Ok(0);
      }
      if |carry| >= HEADER + suite.room {
        return Err(Io);
      }
      var n: nat :| 0 < n <= |tail|;
      carry := carry + tail[..n];
      return Ok(n);
    }

    /** Opens every complete record; a broken stream stays broken. */
    method ProcessNewPackets() returns (r: Result<bool>)
      modifies this`seqno, this`carry, this`received, this`end, this`handshaking, this`out
      ensures old(end) == Running ==>
        var p := Deframe(suite, old(seqno), old(carry));
        && seqno == old(seqno) + |p.events| && carry == p.rest && end == p.end
        && received == old(received) + Plains(p.events)
        && out == Respond(old(out), p.events)
        && handshaking == (old(handshaking) && !Establishes(p.events))
      ensures old(end) != Running ==>
        && seqno == old(seqno) && received == old(received) && end == old(end)
        && out == old(out) && handshaking == old(handshaking) && carry == old(carry)
      ensures r == if end == Broken then Err(Tls) else Ok(end == Clean)
    {
      if end == Running {
        var p := Deframe(suite, seqno, carry);
        seqno, carry, end := seqno + |p.events|, p.rest, p.end;
        received := received + Plains(p.events);
        out := Respond(out, p.events);
        handshaking := handshaking && !Establishes(p.events);
      }
      r := if end == Broken then Err(Tls) else Ok(end == Clean);
    }

    function FillBuf(): Filled
      reads this`received, this`end, this`seenEof
    {
      if received != [] then Chunk(received[0])
      else if end == Clean then Empty
      else if seenEof then UnexpectedEof
      else WouldBlock
    }

    method Consume(n: nat)
      requires received != [] && n == |received[0]|
      modifies this`received
      ensures received == old(received)[1..]
    {
      received := received[1..];
    }

    /** A write of at most one record's content; an empty one only publishes a KeyUpdate. */
    method Write(part: seq<byte>) returns (r: Result<nat>)
      requires |part| <= MAX_PLAINTEXT
      modifies this`out
      ensures match Accepts(writer, old(out), |part|)
        case None => r == Err(Io) && out == old(out).(writes := old(out).writes + 1)
        case Some(n) => r == Ok(n) && out == Outbox.Write(writer, old(out), part, n)
    {
      match Accepts(writer, out, |part|)
      case None =>
        out := out.(writes := out.writes + 1);
        r := Err(Io);
      case Some(n) =>
        out := Outbox.Write(writer, out, part, n);
        r := Ok(n);
    }

    /** A gather write seals the concatenation of its slices. */
    method WriteVectored(slices: seq<seq<byte>>) returns (r: Result<nat>)
      requires |Flatten(slices)| <= MAX_PLAINTEXT
      modifies this`out
      ensures match Accepts(writer, old(out), |Flatten(slices)|)
        case None => r == Err(Io) && out == old(out).(writes := old(out).writes + 1)
        case Some(n) => r == Ok(n) && out == Outbox.Write(writer, old(out), Flatten(slices), n)
    {
      r := Write(Flatten(slices));
    }

    method SendCloseNotify()
      modifies this`out
      ensures out == Outbox.SendCloseNotify(writer, old(out))
    {
      out := Outbox.SendCloseNotify(writer, out);
    }

    /** Offers the first `gather` pending chunks and drops what was taken of them. */
    method WriteTls(output: Output) returns (n: nat)
      requires output.Valid()
      modifies this`out, output`written
      ensures output.Valid()
      ensures exists offered: nat ::
        && offered <= |old(out).pending| && (old(out).pending != [] ==> offered > 0)
        && n == Min(old(output.Remaining()), |Flatten(old(out).pending[..offered])|)
      ensures n <= |Flatten(old(out).pending)|
      ensures output.written == old(output.written) + Flatten(old(out).pending)[..n]
      ensures out == old(out).(pending := DropBytes(old(out).pending, n))
    {
      var offered := Min(gather, |out.pending|);
      assert out.pending[..offered] + out.pending[offered..] == out.pending;
      FlattenConcat(out.pending[..offered], out.pending[offered..]);
      n := output.WriteVectored(out.pending[..offered]);
      assert Flatten(out.pending)[..n] == Flatten(out.pending[..offered])[..n];
      out := out.(pending := DropBytes(out.pending, n));
    }
  }
}
