// src/tls/mod.rs, Connection: half-close flags around the engine.

module Connections {
  import opened Basics
  import opened Records
  import opened Outbox
  import opened Native
  import opened Buffers

  class Connection {
    const native: Engine
    const send: Pool        // the endpoint's send pool
    var peerClosed: bool
    var localClosed: bool
    var failed: bool

    /** What holds between calls. Nothing decrypted is left unread, an open stream holds
        less than one record, and every way a stream can end is on the flags. */
    ghost predicate Settled()
      reads this, native
    {
      && native.received == []
      && NoneEmpty(native.out.pending)
      && (native.end == Running ==> Next(native.suite, native.carry).Short?)
      && (native.end == Clean <==> peerClosed)
      && (native.end == Broken ==> failed)
      && (native.seenEof ==> peerClosed || failed)
    }

    constructor (native: Engine, send: Pool)
      requires native.received == [] && native.carry == [] && native.end == Running && !native.seenEof
      requires NoneEmpty(native.out.pending)
      ensures Settled() && this.native == native && this.send == send
      ensures !peerClosed && !localClosed && !failed
    {
      this.native, this.send := native, send;
      peerClosed, localClosed, failed := false, false, false;
    }

    function CanWrite(): bool
      reads this, native
    {
      !failed && !localClosed && !native.handshaking
    }

    /** End of input without close_notify fails the connection; after close_notify it is
        fine. Unread plaintext, the other error, cannot be there. */
    method PeerEof() returns (r: Result<()>)
      requires Settled()
      modifies this`failed, native`carry, native`seenEof
      ensures Settled()
      ensures r == if peerClosed then Ok(()) else Err(Io)
      ensures failed == (old(failed) || !peerClosed)
    {
      var n := native.ReadTls([]);
      if n.Err? {
        return n.Done();
      }
      assert native.carry == old(native.carry);
      var next := native.FillBuf();
      if next == Empty {
        r := Ok(());
      } else if next.Chunk? {
        r := Err(InvalidBufferProgress);
      } else {
        failed := true;
        r := Err(Io);
      }
    }

    method EmitInto(c: Slot) returns (r: Result<()>, c': Slot)
      requires NoneEmpty(native.out.pending)
      modifies native`out
      ensures r == Ok(()) && native.out == TakeFrom(old(native.out), c) && c' == GiveTo(old(native.out), c)
    {
      r, c' := DrainInto(native, c);
    }

    method Drain(c: Slot) returns (cause: Option<Error>, c': Slot)
      requires NoneEmpty(native.out.pending)
      modifies this`failed, native`out
      ensures cause == None && failed == old(failed)
      ensures native.out == TakeFrom(old(native.out), c) && c' == GiveTo(old(native.out), c)
    {
      var r;
      r, c' := EmitInto(c);
      failed := failed || r.Err?;
      cause := r.Cause();
    }

    /** close_notify is queued by the first close of a connection that has not failed. */
    method SealClose(c: Slot) returns (r: Result<()>, c': Slot)
      requires NoneEmpty(native.out.pending)
      modifies this`localClosed, native`out
      ensures r == Ok(())
      ensures localClosed == (old(localClosed) || !failed)
      ensures var o := if old(localClosed) || failed then old(native.out)
                       else SendCloseNotify(native.writer, old(native.out));
              native.out == TakeFrom(o, c) && c' == GiveTo(o, c)
    {
      if !localClosed && !failed {
        localClosed := true;
        native.SendCloseNotify();
        CloseGrows(native.writer, old(native.out));
      }
      r, c' := EmitInto(c);
    }
  }
}
