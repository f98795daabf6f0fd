// src/tls/senders.rs and Egress::close of src/tls/protocol.rs: the send calls, in place.
// Each is proved to do what the value-level pipeline says.

module Senders {
  import opened Basics
  import opened Staging
  import opened Outbox
  import opened Buffers
  import opened Connections
  import opened Pipes
  import opened Emissions

  /** The pipe a connection and its send state amount to. */
  ghost function Snap(conn: Connection, send: SendState): Pipe
    reads conn, conn.native, conn.send, send
  {
    Pipe(conn.native.out, conn.native.handshaking, send.buffer, conn.send.free, conn.localClosed, conn.failed)
  }

  // Plaintext offered for sending; only a commit moves `used`.
  class Input {
    const chunks: seq<seq<byte>>
    var used: nat

    ghost predicate Valid()
      reads this
    {
      used <= |Flatten(chunks)|
    }

    constructor (chunks: seq<seq<byte>>)
      ensures Valid() && this.chunks == chunks && used == 0
    {
      this.chunks, used := chunks, 0;
    }

    ghost function Left(): seq<byte>
      requires Valid()
      reads this
    {
      Flatten(chunks)[used..]
    }

    function IsEmpty(): (b: bool)
      requires Valid()
      reads this
      ensures b == (Left() == [])
    {
      used == |Flatten(chunks)|
    }

    /** The next `limit` bytes, still cut as the caller cut them. */
    function Take(limit: nat): (pieces: seq<seq<byte>>)
      requires Valid()
      reads this
      ensures Flatten(pieces) == Left()[..Min(|Left()|, limit)] && |pieces| <= |chunks|
    {
      DropBytesIsSuffix(chunks, used);
      DropBytesNoLonger(chunks, used);
      ClipIsPrefix(DropBytes(chunks, used), limit);
      Clip(DropBytes(chunks, used), limit)
    }

    method Commit(n: nat)
      requires Valid() && n <= |Left()|
      modifies this`used
      ensures Valid() && used == old(used) + n && Left() == old(Left())[n..]
    {
      DropTwice(Flatten(chunks), used, n);
      used := used + n;
    }
  }

  /** The first `limit` bytes of some chunks, as pieces of them. */
  function Clip(chunks: seq<seq<byte>>, limit: nat): seq<seq<byte>> {
    if chunks == [] || limit == 0 then []
    else if |chunks[0]| <= limit then [chunks[0]] + Clip(chunks[1..], limit - |chunks[0]|)
    else [chunks[0][..limit]]
  }

  lemma {:induction false} ClipIsPrefix(chunks: seq<seq<byte>>, limit: nat)
    ensures Flatten(Clip(chunks, limit)) == Flatten(chunks)[..Min(|Flatten(chunks)|, limit)]
    ensures |Clip(chunks, limit)| <= |chunks|
  {
    if chunks == [] || limit == 0 {
    } else if |chunks[0]| <= limit {
      ClipIsPrefix(chunks[1..], limit - |chunks[0]|);
      var rest := Clip(chunks[1..], limit - |chunks[0]|);
      FlattenConcat([chunks[0]], rest);
      FlattenOne(chunks[0]);
    } else {
      FlattenOne(chunks[0][..limit]);
    }
  }

  lemma {:induction false} DropBytesNoLonger(chunks: seq<seq<byte>>, n: nat)
    requires n <= |Flatten(chunks)|
    ensures |DropBytes(chunks, n)| <= |chunks|
  {
    if chunks != [] && n != 0 && |chunks[0]| <= n {
      DropBytesNoLonger(chunks[1..], n - |chunks[0]|);
    }
  }

  /** `whole` is what a sealing that has taken `used` bytes and stands at (o, c) comes to. */
  ghost predicate Completes(whole: Sealing, w: Writer, o: Outgoing, c: Slot, left: seq<byte>, used: nat) {
    var s := Seal(w, o, c, left);
    whole == s.(used := used + s.used)
  }

  /** One record more, what the writer took of it, and the drain behind it. */
  lemma SealsOn(whole: Sealing, w: Writer, o: Outgoing, c: Slot, left: seq<byte>, used: nat, part: seq<byte>, n: nat)
    requires Completes(whole, w, o, c, left, used) && left != [] && Spare(c) != 0 && !WantsWrite(o)
    requires part == left[..Min(|left|, MAX_PLAINTEXT)] && Accepts(w, o, |part|) == Some(n)
    ensures var q := Write(w, o, part, n);
            && NoneEmpty(q.pending) && NoneEmpty(TakeFrom(q, c).pending)
            && (if n == 0 then whole == Sealing(TakeFrom(q, c), GiveTo(q, c), used, true)
                else Completes(whole, w, TakeFrom(q, c), GiveTo(q, c), left[n..], used + n))
  {
    var q := Write(w, o, part, n);
    WriteGrows(w, o, part, n);
    TransferExact(q, c);
  }

  /** A connection that may not write seals nothing. */
  function SealIf(can: bool, w: Writer, o: Outgoing, c: Slot, plain: seq<byte>): Sealing {
    if can then Seal(w, o, c, plain) else Sealing(o, c, 0, true)
  }

  /** Connection::encrypt: seals while there is plaintext, room, and nothing waiting. */
  method Encrypt(conn: Connection, cursor: Slot, plain: Input)
      returns (cause: Option<Error>, cursor': Slot)
    requires NoneEmpty(conn.native.out.pending) && plain.Valid()
    modifies conn`failed, conn.native`out, plain`used
    ensures plain.Valid() && NoneEmpty(conn.native.out.pending)
    ensures var s := SealIf(old(conn.CanWrite()), conn.native.writer, old(conn.native.out), cursor, old(plain.Left()));
            && conn.native.out == s.out && cursor' == s.cursor && plain.used == old(plain.used) + s.used
            && conn.failed == (old(conn.failed) || !s.ok) && cause == (if s.ok then None else Some(Io))
  {
    cursor' := cursor;
    cause := None;
    if !conn.CanWrite() {
      return;
    }
    ghost var whole := Seal(conn.native.writer, conn.native.out, cursor, plain.Left());
    while !plain.IsEmpty() && Spare(cursor') != 0 && !WantsWrite(conn.native.out)
      invariant plain.Valid() && NoneEmpty(conn.native.out.pending) && !conn.failed && cause == None
      invariant old(plain.used) <= plain.used
      invariant Completes(whole, conn.native.writer, conn.native.out, cursor', plain.Left(),
                          plain.used - old(plain.used))
      decreases |plain.Left()|
    {
      var part := Flatten(plain.Take(MAX_PLAINTEXT));
      ghost var o := conn.native.out;
      var n := conn.native.Write(part);
      if n.Err? {
        conn.failed := true;
        cause := n.Cause();
        break;
      }
      SealsOn(whole, conn.native.writer, o, cursor', plain.Left(), plain.used - old(plain.used), part, n.value);
      plain.Commit(n.value);
      cause, cursor' := conn.Drain(cursor');
      if cause.Some? || n.value == 0 {
        break;
      }
    }
  }

  /** Fills a slice vector of fixed capacity. */
  method Gather(chunks: seq<seq<byte>>, capacity: nat) returns (slices: seq<seq<byte>>)
    ensures slices == chunks[..Min(capacity, |chunks|)]
    ensures |chunks| <= capacity ==> slices == chunks
  {
    slices := [];
    while |slices| < capacity && |slices| < |chunks|
      invariant |slices| <= Min(capacity, |chunks|) && slices == chunks[..|slices|]
    {
      slices := slices + [chunks[|slices|]];
    }
  }

  /** Connection::encrypt_many, with room for `capacity` slices: the same, whatever chunks
      the plaintext comes in. */
  method EncryptMany(conn: Connection, cursor: Slot, plain: Input, capacity: nat)
      returns (cause: Option<Error>, cursor': Slot)
    requires NoneEmpty(conn.native.out.pending) && plain.Valid() && |plain.chunks| <= capacity
    modifies conn`failed, conn.native`out, plain`used
    ensures plain.Valid() && NoneEmpty(conn.native.out.pending)
    ensures var s := SealIf(old(conn.CanWrite()), conn.native.writer, old(conn.native.out), cursor, old(plain.Left()));
            && conn.native.out == s.out && cursor' == s.cursor && plain.used == old(plain.used) + s.used
            && conn.failed == (old(conn.failed) || !s.ok) && cause == (if s.ok then None else Some(Io))
  {
    cursor' := cursor;
    cause := None;
    if !conn.CanWrite() {
      return;
    }
    ghost var whole := Seal(conn.native.writer, conn.native.out, cursor, plain.Left());
    while !plain.IsEmpty() && Spare(cursor') != 0 && !WantsWrite(conn.native.out)
      invariant plain.Valid() && NoneEmpty(conn.native.out.pending) && !conn.failed && cause == None
      invariant old(plain.used) <= plain.used
      invariant Completes(whole, conn.native.writer, conn.native.out, cursor', plain.Left(),
                          plain.used - old(plain.used))
      decreases |plain.Left()|
    {
      var chunks := plain.Take(MAX_PLAINTEXT);
      var slices := Gather(chunks, capacity);
      ghost var o := conn.native.out;
      var n := conn.native.WriteVectored(slices);
      if n.Err? {
        conn.failed := true;
        cause := n.Cause();
        break;
      }
      SealsOn(whole, conn.native.writer, o, cursor', plain.Left(), plain.used - old(plain.used), Flatten(slices),
              n.value);
      plain.Commit(n.value);
      cause, cursor' := conn.Drain(cursor');
      if cause.Some? || n.value == 0 {
        break;
      }
    }
  }

  /** Encrypts flat or vectored, and keeps the cursor. */
  method SealPlain(conn: Connection, send: SendState, plain: Input, vectored: bool) returns (cause: Option<Error>)
    requires NoneEmpty(conn.native.out.pending) && plain.Valid() && send.buffer.Some?
    modifies conn`failed, conn.native`out, plain`used, send`buffer
    ensures plain.Valid() && NoneEmpty(conn.native.out.pending)
    ensures (Snap(conn, send), plain.used - old(plain.used), cause.None?) ==
            SealInto(conn.native.writer, old(Snap(conn, send)), old(plain.Left()))
    ensures cause == None || cause == Some(Io)
  {
    var cursor: Slot;
    if vectored {
      cause, cursor := EncryptMany(conn, send.buffer.value, plain, |plain.chunks|);
    } else {
      cause, cursor := Encrypt(conn, send.buffer.value, plain);
    }
    send.buffer := Some(cursor);
  }

  method DrainInto(conn: Connection, send: SendState) returns (cause: Option<Error>)
    requires NoneEmpty(conn.native.out.pending) && send.buffer.Some?
    modifies conn`failed, conn.native`out, send`buffer
    ensures NoneEmpty(conn.native.out.pending) && cause == None
    ensures Snap(conn, send) == Transfer(old(Snap(conn, send)))
  {
    TransferExact(conn.native.out, send.buffer.value);
    var cursor: Slot;
    cause, cursor := conn.Drain(send.buffer.value);
    send.buffer := Some(cursor);
  }

  method PrepareBuffered(conn: Connection, send: SendState, plain: Input, vectored: bool) returns (a: Answer)
    requires conn.Settled() && send.buffer.Some? && plain.Valid() && plain.used == 0
    modifies conn`failed, conn.native`out, conn.send`free, send`buffer, plain`used
    ensures conn.Settled()
    ensures (Snap(conn, send), a) ==
            PrepareWith(conn.native.writer, old(Snap(conn, send)), Flatten(plain.chunks))
  {
    assert plain.Left() == Flatten(plain.chunks);
    var cause := DrainInto(conn, send);
    var closed := conn.failed || cause.Some?;
    if cause.None? && !WantsWrite(conn.native.out) {
      cause := SealPlain(conn, send, plain, vectored);
      closed := conn.failed;
    }
    ghost var q := Snap(conn, send);
    var freed := send.FreeEmpty(conn.send);
    assert Snap(conn, send) == FreeEmpty(q);
    a := Answer(Buffered, plain.used, closed, cause);
  }

  /** Connection::prepare, and prepare_many when `vectored`: the two differ in how the
      plaintext is handed to the engine and in nothing that shows. */
  method DoPrepare(conn: Connection, send: SendState, chunks: seq<seq<byte>>, vectored: bool)
      returns (a: Answer)
    requires conn.Settled()
    modifies conn`failed, conn.native`out, conn.send`free, send`buffer
    ensures conn.Settled()
    ensures (Snap(conn, send), a) == Prepare(conn.native.writer, old(Snap(conn, send)), Flatten(chunks))
    ensures Speaks(conn.native.writer, old(conn.native.out), conn.native.out)
  {
    PrepareSpeaks(conn.native.writer, Snap(conn, send), Flatten(chunks));
    if Flatten(chunks) == [] && send.AsSlice() == [] && !WantsWrite(conn.native.out) {
      a := Answer(Buffered, 0, false, None);
    } else {
      var plain := new Input(chunks);
      ghost var p := Snap(conn, send);
      var ok := send.TryBuffer(conn.send);
      if !ok {
        a := Answer(BufferWait, 0, false, None);
      } else {
        assert WithBuffer(p) == Some(Snap(conn, send));
        a := PrepareBuffered(conn, send, plain, vectored);
      }
    }
  }

  /** Connection::refill: a cursor with unsent ciphertext is left alone. */
  method DoRefill(conn: Connection, send: SendState) returns (cause: Option<Error>)
    requires NoneEmpty(conn.native.out.pending) && send.buffer.Some?
    modifies conn`failed, conn.native`out, send`buffer
    ensures NoneEmpty(conn.native.out.pending) && cause == None
    ensures Snap(conn, send) == Refill(old(Snap(conn, send)))
    ensures old(send.buffer.value.bytes) != [] ==> send.buffer == old(send.buffer) && unchanged(conn.native)
  {
    cause := None;
    if send.buffer.value.bytes == [] {
      cause := DrainInto(conn, send);
    }
  }

  /** The part of a completion that has a cursor to see to. */
  method RefillAndFree(conn: Connection, send: SendState) returns (a: Answer, freed: Availability)
    requires conn.Settled() && send.buffer.Some?
    modifies conn`failed, conn.native`out, conn.send`free, send`buffer
    ensures conn.Settled() && conn.failed == old(conn.failed)
    ensures Snap(conn, send) == FreeEmpty(Refill(old(Snap(conn, send)))) && a == Answer(Buffered, 0, conn.failed, None)
    ensures freed == Released <==> send.buffer.None?
    ensures old(send.AsSlice()) != [] ==> send.AsSlice() == old(send.AsSlice()) && unchanged(conn.native)
  {
    var cause := DoRefill(conn, send);
    var closed := conn.failed;
    ghost var q := Snap(conn, send);
    freed := send.FreeEmpty(conn.send);
    assert Snap(conn, send) == FreeEmpty(q);
    a := Answer(Buffered, 0, closed, cause);
  }

  /** Connection::after_send. The slot's release is reported exactly when it happens. */
  method DoAfterSend(conn: Connection, send: SendState, n: nat) returns (a: Answer, freed: Availability)
    requires conn.Settled()
    modifies conn`failed, conn.native`out, conn.send`free, send`buffer
    ensures conn.Settled()
    ensures (Snap(conn, send), a) == AfterSend(old(Snap(conn, send)), n)
    ensures a.ready == Buffered && (a.closeAfter <==> old(send.buffer).Some? && conn.failed)
    ensures n < |old(send.AsSlice())| ==> send.AsSlice() == old(send.AsSlice())[n..] && unchanged(conn.native)
    ensures freed == Released <==> old(send.buffer).Some? && send.buffer.None?
  {
    ghost var p := Snap(conn, send);
    send.ConsumeMax(n);
    assert Snap(conn, send) == Advanced(p, n);
    if send.buffer.None? {
      a, freed := Answer(Buffered, 0, false, None), Unchanged;
    } else {
      a, freed := RefillAndFree(conn, send);
    }
  }

  /** Connection::resume: false while it has to wait for a slot. */
  method DoResume(conn: Connection, send: SendState, ending: bool) returns (done: bool)
    requires NoneEmpty(conn.native.out.pending)
    modifies conn`failed, conn.native`out, conn.send`free, send`buffer
    ensures NoneEmpty(conn.native.out.pending)
    ensures done == Resume(old(Snap(conn, send)), ending).Some?
    ensures Snap(conn, send) == if done then Resume(old(Snap(conn, send)), ending).value else old(Snap(conn, send))
  {
    done := true;
    if ending && WantsWrite(conn.native.out) {
      ghost var p := Snap(conn, send);
      done := send.TryBuffer(conn.send);
      if done {
        assert WithBuffer(p) == Some(Snap(conn, send));
        var cause := DoRefill(conn, send);
      }
    }
  }

  /** Connection::prepare_drain. */
  method DoPrepareDrain(conn: Connection, send: SendState, ending: bool)
      returns (a: Answer, freed: Availability)
    requires conn.Settled()
    modifies conn`failed, conn.native`out, conn.send`free, send`buffer
    ensures conn.Settled()
    ensures (Snap(conn, send), a) == PrepareDrain(old(Snap(conn, send)), ending)
    ensures a.closeAfter
    ensures a.ready == BufferWait <==>
      ending && old(conn.native.out.pending) != [] && old(send.buffer).None? && old(conn.send.free) == 0
    ensures freed == Released <==> old(send.buffer).Some? && send.buffer.None?
  {
    var done := DoResume(conn, send, ending);
    if !done {
      a, freed := Answer(BufferWait, 0, true, None), Unchanged;
    } else {
      ghost var q := Snap(conn, send);
      freed := send.FreeEmpty(conn.send);
      assert Snap(conn, send) == FreeEmpty(q);
      a := Answer(Buffered, 0, true, None);
    }
  }

  /** Connection::settle: a completion while the connection is ending. */
  method DoSettle(conn: Connection, send: SendState, n: nat, ending: bool)
      returns (a: Answer, freed: Availability)
    requires conn.Settled()
    modifies conn`failed, conn.native`out, conn.send`free, send`buffer
    ensures conn.Settled()
    ensures (Snap(conn, send), a) == Settle(old(Snap(conn, send)), n, ending)
    ensures a.closeAfter
    ensures a.ready == BufferWait <==>
      ending && old(conn.native.out.pending) != [] && old(send.buffer).None? && old(conn.send.free) == 0
    ensures n < |old(send.AsSlice())| ==> send.AsSlice() == old(send.AsSlice())[n..] && unchanged(conn.native)
    ensures freed == Released <==> old(send.buffer).Some? && send.buffer.None?
  {
    ghost var p := Snap(conn, send);
    send.ConsumeMax(n);
    assert Snap(conn, send) == Advanced(p, n);
    a, freed := DoPrepareDrain(conn, send, ending);
  }

  /** Connection::flush. */
  method DoFlush(conn: Connection, send: SendState) returns (a: Answer)
    requires conn.Settled()
    modifies conn`failed, conn.native`out, conn.send`free, send`buffer
    ensures conn.Settled()
    ensures (Snap(conn, send), a) == Flush(old(Snap(conn, send)))
    ensures a.ready == BufferWait <==>
      && (old(send.AsSlice()) != [] || old(conn.native.out.pending) != [])
      && old(send.buffer).None? && old(conn.send.free) == 0
  {
    if send.AsSlice() == [] && !WantsWrite(conn.native.out) {
      a := Answer(Buffered, 0, false, None);
    } else {
      ghost var p := Snap(conn, send);
      var ok := send.TryBuffer(conn.send);
      if !ok {
        a := Answer(BufferWait, 0, false, None);
      } else {
        assert WithBuffer(p) == Some(Snap(conn, send));
        var cause := DrainInto(conn, send);
        var closed := conn.failed;
        ghost var q := Snap(conn, send);
        var freed := send.FreeEmpty(conn.send);
        assert Snap(conn, send) == FreeEmpty(q);
        a := Answer(Buffered, 0, closed, cause);
      }
    }
  }

  method SealCloseInto(conn: Connection, send: SendState) returns (r: Result<()>)
    requires NoneEmpty(conn.native.out.pending) && send.buffer.Some?
    modifies conn`localClosed, conn.native`out, send`buffer
    ensures NoneEmpty(conn.native.out.pending) && r == Ok(())
    ensures Snap(conn, send) == Transfer(QueueClose(conn.native.writer, old(Snap(conn, send))))
  {
    ghost var o := QueueClose(conn.native.writer, Snap(conn, send)).out;
    CloseGrows(conn.native.writer, conn.native.out);
    TransferExact(o, send.buffer.value);
    var cursor: Slot;
    r, cursor := conn.SealClose(send.buffer.value);
    send.buffer := Some(cursor);
  }

  method CloseBuffered(conn: Connection, send: SendState) returns (a: Answer)
    requires conn.Settled() && send.buffer.Some?
    modifies conn`localClosed, conn.native`out, conn.send`free, send`buffer
    ensures conn.Settled()
    ensures Snap(conn, send) == FreeEmpty(Transfer(QueueClose(conn.native.writer, old(Snap(conn, send)))))
    ensures a == Answer(Buffered, 0, false, None)
  {
    var r := SealCloseInto(conn, send);
    ghost var q := Snap(conn, send);
    var freed := send.FreeEmpty(conn.send);
    assert Snap(conn, send) == FreeEmpty(q);
    a := Answer(Buffered, 0, r.Err?, r.Cause());
  }

  /** Egress::close. */
  method DoClose(conn: Connection, send: SendState) returns (a: Answer)
    requires conn.Settled()
    modifies conn`localClosed, conn.native`out, conn.send`free, send`buffer
    ensures conn.Settled()
    ensures (Snap(conn, send), a) == Close(conn.native.writer, old(Snap(conn, send)))
  {
    ghost var p := Snap(conn, send);
    var ok := send.TryBuffer(conn.send);
    if !ok {
      a := Answer(BufferWait, 0, false, None);
    } else {
      assert WithBuffer(p) == Some(Snap(conn, send));
      a := CloseBuffered(conn, send);
    }
  }
}
