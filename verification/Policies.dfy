// src/tls/receive/policy.rs, finish of src/tls/protocol.rs, and Runtime::ready of
// src/tls/endpoint/mod.rs: admission of receives to two shared pools.

module Policies {
  import opened Basics
  import opened Records
  import opened Outbox
  import opened Buffers
  import opened Connections
  import opened Pipes
  import opened Direct
  import opened Receiving
  import opened Waiters
  import Senders
  import Stream

  // What has become of slots. taken, lent: receive slots acquired, and send slots that
  // connections came to hold. kept: receive slots inside chunks that are still being read.
  // dropped, unlent: those of each that came back with a transaction nobody completed.
  datatype Tally = Tally(taken: nat, kept: nat, dropped: nat, lent: nat, unlent: nat)

  // What connections share: free receive slots, free send slots, and the waiters.
  datatype Stock = Stock(recv: nat, send: nat, waiting: Waiting, tally: Tally)

  datatype Verdict = Admitted | Blocked(kind: Resource) | Failed

  /** Whether admitting a receive takes a send slot from the pool. */
  function NeedsSlot(handshaking: bool, lent: bool, holds: bool): bool {
    handshaking && lent && !holds
  }

  function Acquire(t: Tally, needs: bool): Tally {
    t.(taken := t.taken + 1, lent := t.lent + if needs then 1 else 0)
  }

  /** `fails`: the receive pool has a slot to give but cannot allocate it. */
  function Admit(s: Stock, needs: bool, fails: bool): (Stock, Verdict) {
    if s.recv == 0 then (s, Blocked(Recv))
    else if fails then (s, Failed)
    else if needs && s.send == 0 then
      (s.(waiting := Wake(s.waiting, Recv), tally := Acquire(s.tally, false)), Blocked(HandshakeEgress))
    else
      (s.(recv := s.recv - 1, send := s.send - if needs then 1 else 0, tally := Acquire(s.tally, needs)), Admitted)
  }

  function ReturnRecv(s: Stock): Stock {
    s.(recv := s.recv + 1, waiting := Wake(s.waiting, Recv))
  }

  function ReturnSend(s: Stock): Stock {
    s.(send := s.send + 1, waiting := Wake(s.waiting, HandshakeEgress))
  }

  /** What the end of a transaction gives back; a receive slot it does not is in a chunk. */
  function Discharge(s: Stock, recv: bool, send: bool): Stock {
    var a := if recv then ReturnRecv(s) else s.(tally := s.tally.(kept := s.tally.kept + 1));
    if send then ReturnSend(a) else a
  }

  /** A transaction that is dropped gives back the same and tells nobody. */
  function Abandon(s: Stock, send: bool): Stock {
    var n := if send then 1 else 0;
    s.(recv := s.recv + 1, send := s.send + n,
       tally := s.tally.(dropped := s.tally.dropped + 1, unlent := s.tally.unlent + n))
  }

  /** A chunk has been read and its slot is back. */
  function ReleaseChunk(s: Stock): Stock
    requires s.tally.kept > 0
  {
    ReturnRecv(s.(tally := s.tally.(kept := s.tally.kept - 1)))
  }

  // ----- one receive from admission to its end -----

  // How an admitted transaction ends: after a read, which may fail the connection and may
  // leave its slot in a chunk; unread; or not at all.
  datatype Ending =
    | Read(rounds: seq<seq<Opened>>, fails: bool, keeps: bool)
    | Unread
    | Dropped

  function Attempt(s: Stock, p: Pipe, lent: bool, fails: bool, ending: Ending): (Stock, Pipe) {
    var (t, verdict) := Admit(s, NeedsSlot(p.handshaking, lent, p.buffer.Some?), fails);
    match verdict
    case Blocked(_) => (t, p)
    case Failed => (t, p.(failed := true))
    case Admitted => Conclude(t, Lent(p, lent), p.handshaking && lent, ending)
  }

  /** The pipe of an admitted transaction. */
  function Lent(p: Pipe, lent: bool): Pipe {
    match Lend(p, lent)
    case Some(b) => b
    case None => p
  }

  function Conclude(t: Stock, b: Pipe, loaned: bool, ending: Ending): (Stock, Pipe) {
    var loan := loaned && b.buffer.Some?;
    match ending
    case Read(rounds, fails, keeps) =>
      var q := Complete(Received(b, rounds, fails), loan);
      (Discharge(t, !keeps, loan && q.buffer.None?), q)
    case Unread =>
      var q := if loan then FreeEmpty(b) else b;
      (Discharge(t, true, loan && q.buffer.None?), q)
    case Dropped =>
      var q := if loan then FreeEmpty(b) else b;
      (Abandon(t, loan && q.buffer.None?), q)
  }

  /** The lane whose front could be served now. */
  function Servable(s: Stock): (kind: Option<Resource>)
    ensures kind.Some? ==> Lane(s.waiting, kind.value) != []
  {
    if s.recv == 0 then None
    else if s.waiting.recv != [] then Some(Recv)
    else if s.waiting.egress != [] && s.send != 0 then Some(HandshakeEgress)
    else None
  }

  class Runtime {
    const recv: Pool
    const send: Pool
    const waiters: Queue
    ghost var tally: Tally

    constructor (recv: Pool, send: Pool, waiters: Queue)
      ensures this.recv == recv && this.send == send && this.waiters == waiters
      ensures tally == Tally(0, 0, 0, 0, 0)
    {
      this.recv, this.send, this.waiters := recv, send, waiters;
      tally := Tally(0, 0, 0, 0, 0);
    }

    ghost function View(): Stock
      reads this, recv, send, waiters
    {
      Stock(recv.free, send.free, waiters.View(), tally)
    }

    /** The send pool is consulted for the egress lane only, the receive pool for both. */
    function NextReady(): (kind: Option<Resource>)
      reads this, recv, send, waiters
      ensures kind == Servable(View())
      ensures kind == Some(Recv) <==> recv.free != 0 && waiters.recv != []
      ensures kind == Some(HandshakeEgress) <==>
        recv.free != 0 && waiters.recv == [] && waiters.egress != [] && send.free != 0
    {
      var lane :=
        if waiters.HasWaiters(Recv) then Some(Recv)
        else if waiters.HasWaiters(HandshakeEgress) && send.free != 0 then Some(HandshakeEgress)
        else None;
      if recv.free != 0 then lane else None
    }

    method TakeReady() returns (credit: Option<Credit>)
      modifies waiters
      ensures var kind := Servable(old(View()));
              if kind.None? then credit == None && View() == old(View())
              else
                && Lane(old(waiters.View()), kind.value) != []
                && credit == Some(Lane(old(waiters.View()), kind.value)[0])
                && View() == old(View()).(waiting := Pop(old(waiters.View()), kind.value, Taken))
                && LetsGo(old(waiters.View()), kind.value, Taken, waiters.View())
    {
      var kind := NextReady();
      if kind.None? {
        return None;
      }
      PopLetsGo(waiters.View(), kind.value, Taken);
      credit := waiters.Take(kind.value, Taken);
    }

    /** Policy::release_recv, when a chunk and the slot in it have gone. */
    method ReleaseRecv()
      requires tally.kept > 0 && recv != send
      modifies this`tally, recv`free, waiters
      ensures View() == ReleaseChunk(old(View()))
    {
      tally := tally.(kept := tally.kept - 1);
      recv.Return();
      waiters.WakeOne(Recv);
    }

    /** Policy::release_send, when a slot has been reported released. */
    method ReleaseSend()
      modifies waiters
      ensures View() == old(View()).(waiting := Wake(old(waiters.View()), HandshakeEgress))
    {
      waiters.WakeOne(HandshakeEgress);
    }

    /** Policy::cancel. */
    method CancelWaiter(target: Id)
      modifies waiters
      ensures View() == old(View()).(waiting := Cancel(old(waiters.View()), target))
    {
      waiters.CancelWaiter(target);
    }
  }

  datatype Outcome = Granted(txn: Transaction) | Refused(kind: Resource) | Unable(cause: Error)

  function VerdictOf(o: Outcome): Verdict {
    match o
    case Granted(_) => Admitted
    case Refused(kind) => Blocked(kind)
    case Unable(_) => Failed
  }

  /** Policy::try_reserve. `lent` is false while the send state is with the driver. What
      was acquired for a refused receive goes back, and a receive waiter is told. */
  method TryReserve(conn: Connection, send: Buffers.SendState, lent: bool, run: Runtime, fails: bool)
      returns (o: Outcome)
    requires run.send == conn.send && run.recv != run.send
    modifies conn`failed, send`buffer, run.recv`free, run.send`free, run.waiters, run`tally
    ensures (run.View(), VerdictOf(o)) ==
            Admit(old(run.View()), NeedsSlot(conn.native.handshaking, lent, old(send.buffer).Some?), fails)
    ensures o == Outcome.Refused(Recv) <==> old(run.recv.free) == 0
    ensures o.Unable? <==> old(run.recv.free) != 0 && fails
    ensures o == Outcome.Refused(HandshakeEgress) <==>
      && old(run.recv.free) != 0 && !fails
      && conn.native.handshaking && lent && old(send.buffer).None? && old(run.send.free) == 0
    ensures o.Unable? ==> o.cause == Allocation
    ensures conn.failed == (old(conn.failed) || o.Unable?)
    ensures !o.Granted? ==> send.buffer == old(send.buffer)
    ensures o.Granted? ==>
      && fresh(o.txn) && fresh(o.txn.loans) && o.txn.conn == conn && o.txn.send == send && o.txn.run == run
      && o.txn.Open() && o.txn.loan.Some? == (conn.native.handshaking && lent)
      && Some(o.txn.View()) == Lend(old(Senders.Snap(conn, send)), lent)
      && (conn.native.handshaking && lent ==> o.txn.View().buffer.Some?)
  {
    if run.recv.free == 0 {
      return Outcome.Refused(Recv);
    }
    if fails {
      conn.failed := true;
      return Unable(Allocation);
    }
    ghost var needs := NeedsSlot(conn.native.handshaking, lent, send.buffer.Some?);
    var slot := run.recv.View();
    var loan: Option<Buffered> := None;
    if conn.native.handshaking && lent {
      loan := send.Reserve(conn.send);
      if loan.None? {
        run.recv.Return();
        run.waiters.WakeOne(Recv);
        run.tally := Acquire(run.tally, false);
        return Outcome.Refused(HandshakeEgress);
      }
    }
    run.tally := Acquire(run.tally, needs);
    var txn := new Transaction(conn, send, run, loan);
    return Granted(txn);
  }

  /** When a receive is refused, and for which lane. */
  lemma RefusedFor(s: Stock, needs: bool, fails: bool)
    ensures var verdict := Admit(s, needs, fails).1;
            && (verdict == Blocked(Recv) <==> s.recv == 0)
            && (verdict == Blocked(HandshakeEgress) <==> s.recv > 0 && !fails && needs && s.send == 0)
            && (verdict == Failed <==> s.recv > 0 && fails)
  {
  }

  // What a finished receive tells the driver.
  datatype Ended = PeerDone | Delivered | Terminal(cause: Error)

  function Report(result: Result<()>, closed: bool): Ended {
    match result
    case Ok(_) => if closed then PeerDone else Delivered
    case Err(cause) => Terminal(cause)
  }

  // An admitted receive: it holds a receive slot and, for a handshake, a send cursor.
  class Transaction {
    const conn: Connection
    const send: Buffers.SendState
    const run: Runtime
    const loan: Option<Buffered>
    ghost const loans: set<Buffered>

    constructor (conn: Connection, send: Buffers.SendState, run: Runtime, loan: Option<Buffered>)
      ensures this.conn == conn && this.send == send && this.run == run && this.loan == loan
      ensures loans == if loan.Some? then {loan.value} else {}
    {
      loans := if loan.Some? then {loan.value} else {};
      this.conn, this.send, this.run, this.loan := conn, send, run, loan;
    }

    ghost predicate Open()
      reads this, send
    {
      && run.send == conn.send && run.recv != run.send
      && loans == (if loan.Some? then {loan.value} else {})
      && (loan.Some? ==> loan.value.store == send && send.buffer == None)
    }

    /** The connection's pipe, with the cursor on loan in it. */
    ghost function View(): Pipe
      reads this, conn, conn.native, conn.send, send, if loan.Some? then {loan.value} else {}
    {
      Senders.Snap(conn, send).(buffer := if loan.Some? then Some(loan.value.cursor) else send.buffer)
    }

    function IsPeerDone(): bool
      reads conn
    {
      conn.peerClosed
    }

    /** Engine output moves to the cursor on loan, and stays where it is without one. */
    method Flush() returns (r: Result<()>)
      requires Open() && NoneEmpty(conn.native.out.pending)
      modifies conn.native`out, loans
      ensures Open() && r == Ok(()) && NoneEmpty(conn.native.out.pending)
      ensures View() == if loan.Some? then Transfer(old(View())) else old(View())
    {
      r := Ok(());
      if loan.Some? {
        TransferExact(conn.native.out, loan.value.cursor);
        var cursor: Slot;
        r, cursor := conn.EmitInto(loan.value.cursor);
        loan.value.cursor := cursor;
      }
    }

    /** Gives back what was admitted, waking one waiter of a lane for each slot. */
    method Release(released: Direct.Release)
      requires Open()
      modifies send`buffer, run.recv`free, run.send`free, run.waiters, run`tally
      ensures Senders.Snap(conn, send) == if loan.Some? then FreeEmpty(old(View())) else old(View())
      ensures run.View() == Discharge(old(run.View()), released == Direct.Release.Released,
                                      old(loan.Some? && loan.value.cursor.bytes == []))
    {
      if released == Direct.Release.Released {
        run.recv.Return();
        run.waiters.WakeOne(Recv);
      } else {
        run.tally := run.tally.(kept := run.tally.kept + 1);
      }
      if loan.Some? {
        var availability := loan.value.Complete(run.send);
        if availability == Availability.Released {
          run.waiters.WakeOne(HandshakeEgress);
        }
      }
    }

    /** An unread transaction that is dropped: its slots go back, and nobody is woken. */
    method Drop()
      requires Open()
      modifies send`buffer, run.recv`free, run.send`free, run`tally
      ensures Senders.Snap(conn, send) == if loan.Some? then FreeEmpty(old(View())) else old(View())
      ensures run.View() == Abandon(old(run.View()), old(loan.Some? && loan.value.cursor.bytes == []))
    {
      run.recv.Return();
      run.tally := run.tally.(dropped := run.tally.dropped + 1);
      if loan.Some? {
        var availability := loan.value.Complete(run.send);
        if availability == Availability.Released {
          run.tally := run.tally.(unlent := run.tally.unlent + 1);
        }
      }
    }
  }

  /** finish of src/tls/protocol.rs: flush, give back, then report. */
  method Finish(txn: Transaction, result: Result<()>, released: Direct.Release) returns (ended: Ended)
    requires txn.Open() && txn.conn.Settled()
    modifies txn.conn.native`out, txn.loans,
             txn.send`buffer, txn.run.recv`free, txn.run.send`free, txn.run.waiters, txn.run`tally
    ensures txn.conn.Settled() && ended == Report(result, txn.conn.peerClosed)
    ensures ended == PeerDone <==> result.Ok? && txn.conn.peerClosed
    ensures ended == Delivered <==> result.Ok? && !txn.conn.peerClosed
    ensures forall cause :: ended == Terminal(cause) <==> result == Err(cause)
    ensures Senders.Snap(txn.conn, txn.send) == Complete(old(txn.View()), txn.loan.Some?)
    ensures txn.run.View() == Discharge(old(txn.run.View()), released == Direct.Release.Released,
              txn.loan.Some? && Senders.Snap(txn.conn, txn.send).buffer == None)
  {
    var flushed := txn.Flush();
    var closed := txn.IsPeerDone();
    txn.Release(released);
    ended := Report(And(result, flushed), closed);
  }

  /** Transaction::read around Ingress::read_batch: nothing admitted is touched. */
  method Read(txn: Transaction, bytes: array<byte>)
      returns (batch: Batch, control: Result<()>, released: Direct.Release,
               ghost rounds: seq<seq<Opened>>, ghost heard: Heard, ghost chunks: seq<seq<byte>>)
    requires txn.Open() && txn.conn.Settled()
    modifies txn.conn`peerClosed, txn.conn`failed, txn.conn.native, bytes
    ensures txn.Open() && txn.conn.Settled() && fresh(batch)
    ensures txn.View() == Received(old(txn.View()), rounds, txn.conn.failed)
    ensures LineOf(txn.conn) == heard.0 && batch.Chunks() == chunks
    ensures old(!txn.conn.peerClosed && !txn.conn.failed) ==>
      && heard == Receive(txn.conn.native.suite, old(LineOf(txn.conn)), old(bytes[..]))
      && Flatten(chunks) == heard.1
      && control == ControlOf(heard.0)
    ensures old(txn.conn.peerClosed || txn.conn.failed) ==>
      chunks == [] && control == Ok(()) && txn.conn.peerClosed == old(txn.conn.peerClosed)
    ensures released == Direct.Release.Retained <==> batch.owned.Some?
  {
    batch, control, released, rounds := ReadBatch(txn.conn, bytes);
    chunks := batch.Chunks();
    heard := (LineOf(txn.conn), Flatten(chunks));
  }

  /** What a read, a flush and a release amount to. */
  lemma ReadEnds(t: Stock, b: Pipe, loaned: bool, rounds: seq<seq<Opened>>, fails: bool, keeps: bool, u: Stock, q: Pipe)
    requires loaned ==> b.buffer.Some?
    requires q == Complete(Received(b, rounds, fails), loaned)
    requires u == Discharge(t, !keeps, loaned && q.buffer == None)
    ensures (u, q) == Conclude(t, b, loaned, Ending.Read(rounds, fails, keeps))
  {
  }

  /** Finishing leaves a batch alone. */
  method FinishBatch(txn: Transaction, batch: Batch, result: Result<()>, released: Direct.Release)
      returns (ended: Ended)
    requires txn.Open() && txn.conn.Settled()
    modifies txn.conn.native`out, txn.loans,
             txn.send`buffer, txn.run.recv`free, txn.run.send`free, txn.run.waiters, txn.run`tally
    ensures unchanged(batch) && batch.Chunks() == old(batch.Chunks()) && LineOf(txn.conn) == old(LineOf(txn.conn))
    ensures txn.conn.Settled() && ended == Report(result, txn.conn.peerClosed)
    ensures Senders.Snap(txn.conn, txn.send) == Complete(old(txn.View()), txn.loan.Some?)
    ensures txn.run.View() == Discharge(old(txn.run.View()), released == Direct.Release.Released,
              txn.loan.Some? && Senders.Snap(txn.conn, txn.send).buffer == None)
  {
    ended := Finish(txn, result, released);
  }

  /** Ingress::process. Whatever the transaction was admitted with, the call is one step of
      the pipe, and each slot it was admitted with is given back unless it is still in use. */
  method Process(txn: Transaction, bytes: array<byte>)
      returns (batch: Batch, ended: Ended, released: Direct.Release,
               ghost rounds: seq<seq<Opened>>, ghost heard: Heard, ghost chunks: seq<seq<byte>>)
    requires txn.Open() && txn.conn.Settled()
    modifies txn.conn`peerClosed, txn.conn`failed, txn.conn.native, bytes, txn.loans,
             txn.send`buffer, txn.run.recv`free, txn.run.send`free, txn.run.waiters, txn.run`tally
    ensures txn.conn.Settled()
    ensures (txn.run.View(), Senders.Snap(txn.conn, txn.send)) ==
            Conclude(old(txn.run.View()), old(txn.View()), txn.loan.Some?,
                Ending.Read(rounds, txn.conn.failed, released == Direct.Release.Retained))
    ensures LineOf(txn.conn) == heard.0 && batch.Chunks() == chunks
    ensures old(!txn.conn.peerClosed && !txn.conn.failed) ==>
      && heard == Receive(txn.conn.native.suite, old(LineOf(txn.conn)), old(bytes[..]))
      && Flatten(chunks) == heard.1
      && (ended == PeerDone <==> heard.0.end == Clean)
      && (ended == Delivered <==> heard.0.end == Running)
      && (ended == Terminal(Tls) <==> heard.0.end == Broken)
    ensures old(txn.conn.peerClosed || txn.conn.failed) ==>
      chunks == [] && ended == if old(txn.conn.peerClosed) then PeerDone else Delivered
    ensures released == Direct.Release.Retained <==> batch.owned.Some?
  {
    var control;
    ghost var t, b := txn.run.View(), txn.View();
    batch, control, released, rounds, heard, chunks := Read(txn, bytes);
    ended := FinishBatch(txn, batch, control, released);
    ReadEnds(t, b, txn.loan.Some?, rounds, txn.conn.failed, released == Direct.Release.Retained,
             txn.run.View(), Senders.Snap(txn.conn, txn.send));
  }

  /** The same around Ingress::retain. */
  method ReadKept(txn: Transaction, bytes: array<byte>, limit: nat)
      returns (output: Option<Stream.Retained>, failure: Result<()>, released: Direct.Release,
               ghost rounds: seq<seq<Opened>>, ghost heard: Heard)
    requires txn.Open() && txn.conn.Settled()
    modifies txn.conn`peerClosed, txn.conn`failed, txn.conn.native, bytes
    ensures txn.Open() && txn.conn.Settled()
    ensures output.Some? ==> fresh(output.value) && fresh(output.value.Owned()) && output.value.Valid()
    ensures txn.View() == Received(old(txn.View()), rounds, txn.conn.failed)
    ensures LineOf(txn.conn) == heard.0
    ensures old(!txn.conn.peerClosed && !txn.conn.failed) ==>
      && heard == Receive(txn.conn.native.suite, old(LineOf(txn.conn)), old(bytes[..]))
      && IsKept(QueueOf(output), failure, heard, limit)
    ensures old(txn.conn.peerClosed || txn.conn.failed) ==>
      output.None? && failure == Ok(()) && txn.conn.peerClosed == old(txn.conn.peerClosed)
    ensures released == Direct.Release.Retained <==> QueueOf(output).Some? && QueueOf(output).value.staged != []
  {
    output, failure, released, rounds, heard := Retain(txn.conn, bytes, limit);
  }

  /** Finishing leaves a retained read alone. */
  method FinishKept(txn: Transaction, output: Option<Stream.Retained>, result: Result<()>, released: Direct.Release)
      returns (ended: Ended)
    requires txn.Open() && txn.conn.Settled()
    modifies txn.conn.native`out, txn.loans,
             txn.send`buffer, txn.run.recv`free, txn.run.send`free, txn.run.waiters, txn.run`tally
    ensures QueueOf(output) == old(QueueOf(output)) && LineOf(txn.conn) == old(LineOf(txn.conn))
    ensures txn.conn.Settled() && ended == Report(result, txn.conn.peerClosed)
    ensures Senders.Snap(txn.conn, txn.send) == Complete(old(txn.View()), txn.loan.Some?)
    ensures txn.run.View() == Discharge(old(txn.run.View()), released == Direct.Release.Released,
              txn.loan.Some? && Senders.Snap(txn.conn, txn.send).buffer == None)
  {
    ended := Finish(txn, result, released);
  }

  /** Ingress::read_lease: the same for a receive whose input is kept. */
  method ReadLease(txn: Transaction, bytes: array<byte>, limit: nat)
      returns (output: Option<Stream.Retained>, ended: Ended, released: Direct.Release,
               ghost rounds: seq<seq<Opened>>, ghost heard: Heard, ghost failure: Result<()>)
    requires txn.Open() && txn.conn.Settled()
    modifies txn.conn`peerClosed, txn.conn`failed, txn.conn.native, bytes, txn.loans,
             txn.send`buffer, txn.run.recv`free, txn.run.send`free, txn.run.waiters, txn.run`tally
    ensures txn.conn.Settled() && ended == Report(failure, txn.conn.peerClosed)
    ensures (txn.run.View(), Senders.Snap(txn.conn, txn.send)) ==
            Conclude(old(txn.run.View()), old(txn.View()), txn.loan.Some?,
                Ending.Read(rounds, txn.conn.failed, released == Direct.Release.Retained))
    ensures LineOf(txn.conn) == heard.0
    ensures old(!txn.conn.peerClosed && !txn.conn.failed) ==>
      && heard == Receive(txn.conn.native.suite, old(LineOf(txn.conn)), old(bytes[..]))
      && IsKept(QueueOf(output), failure, heard, limit)
      && (ended == PeerDone <==> heard.0.end == Clean && |heard.1| <= limit)
      && (ended == Delivered <==> heard.0.end == Running && |heard.1| <= limit)
      && (heard.0.end == Broken ==> ended == Terminal(Tls))
    ensures old(txn.conn.peerClosed || txn.conn.failed) ==>
      output.None? && ended == if old(txn.conn.peerClosed) then PeerDone else Delivered
    ensures released == Direct.Release.Retained <==> QueueOf(output).Some? && QueueOf(output).value.staged != []
  {
    var result;
    ghost var t, b := txn.run.View(), txn.View();
    output, result, released, rounds, heard := ReadKept(txn, bytes, limit);
    failure := result;
    ended := FinishKept(txn, output, result, released);
    ReadEnds(t, b, txn.loan.Some?, rounds, txn.conn.failed, released == Direct.Release.Retained,
             txn.run.View(), Senders.Snap(txn.conn, txn.send));
  }

  // ----- whole receives -----

  lemma AdmittedAttempt(s: Stock, p: Pipe, lent: bool, fails: bool, t: Stock, b: Pipe, ending: Ending,
                        u: Stock, q: Pipe)
    requires Admit(s, NeedsSlot(p.handshaking, lent, p.buffer.Some?), fails) == (t, Admitted)
    requires Lend(p, lent) == Some(b) && (u, q) == Conclude(t, b, p.handshaking && lent, ending)
    ensures (u, q) == Attempt(s, p, lent, fails, ending)
  {
  }

  lemma RefusedAttempt(s: Stock, p: Pipe, lent: bool, fails: bool, t: Stock, verdict: Verdict, ending: Ending)
    requires Admit(s, NeedsSlot(p.handshaking, lent, p.buffer.Some?), fails) == (t, verdict) && !verdict.Admitted?
    ensures (t, p.(failed := p.failed || verdict.Failed?)) == Attempt(s, p, lent, fails, ending)
  {
  }

  /** What the driver does with a batch receive, from try_reserve on: one attempt of the
      stock and the pipe. */
  method ReceiveBatch(conn: Connection, send: Buffers.SendState, lent: bool, run: Runtime, fails: bool,
                      bytes: array<byte>)
      returns (verdict: Verdict, batch: Option<Batch>, ended: Option<Ended>, ghost ending: Ending)
    requires conn.Settled() && run.send == conn.send && run.recv != run.send
    modifies conn`peerClosed, conn`failed, conn.native, bytes,
             send`buffer, run.recv`free, run.send`free, run.waiters, run`tally
    ensures conn.Settled()
    ensures (run.View(), Senders.Snap(conn, send)) ==
            Attempt(old(run.View()), old(Senders.Snap(conn, send)), lent, fails, ending)
    ensures verdict ==
            Admit(old(run.View()), NeedsSlot(old(conn.native.handshaking), lent, old(send.buffer).Some?), fails).1
    ensures ending.Read? && (ending.keeps <==> batch.Some? && batch.value.owned.Some?)
    ensures verdict.Admitted? <==> batch.Some?
    ensures verdict.Admitted? <==> ended.Some?
    ensures verdict.Admitted? && old(!conn.peerClosed && !conn.failed) ==>
      (LineOf(conn), Flatten(batch.value.Chunks())) == Receive(conn.native.suite, old(LineOf(conn)), old(bytes[..]))
    ensures verdict.Admitted? && old(!conn.peerClosed && !conn.failed) ==>
      && (ended.value == PeerDone <==> conn.native.end == Clean)
      && (ended.value == Delivered <==> conn.native.end == Running)
      && (ended.value == Terminal(Tls) <==> conn.native.end == Broken)
  {
    batch, ended := None, None;
    ending := Ending.Read([], false, false);
    ghost var s, p := run.View(), Senders.Snap(conn, send);
    var o := TryReserve(conn, send, lent, run, fails);
    verdict := VerdictOf(o);
    if o.Granted? {
      ghost var t, b := run.View(), o.txn.View();
      var read, end, released;
      ghost var rounds, heard, chunks;
      read, end, released, rounds, heard, chunks := Process(o.txn, bytes);
      batch, ended := Some(read), Some(end);
      ending := Ending.Read(rounds, conn.failed, released == Direct.Release.Retained);
      AdmittedAttempt(s, p, lent, fails, t, b, ending, run.View(), Senders.Snap(conn, send));
    } else {
      RefusedAttempt(s, p, lent, fails, run.View(), verdict, ending);
    }
  }

  /** And with a receive that keeps its input. */
  method ReceiveLease(conn: Connection, send: Buffers.SendState, lent: bool, run: Runtime, fails: bool,
                      bytes: array<byte>, limit: nat)
      returns (verdict: Verdict, output: Option<Stream.Retained>, ended: Option<Ended>, ghost ending: Ending,
               ghost heard: Heard)
    requires conn.Settled() && run.send == conn.send && run.recv != run.send
    modifies conn`peerClosed, conn`failed, conn.native, bytes,
             send`buffer, run.recv`free, run.send`free, run.waiters, run`tally
    ensures conn.Settled()
    ensures (run.View(), Senders.Snap(conn, send)) ==
            Attempt(old(run.View()), old(Senders.Snap(conn, send)), lent, fails, ending)
    ensures verdict ==
            Admit(old(run.View()), NeedsSlot(old(conn.native.handshaking), lent, old(send.buffer).Some?), fails).1
    ensures ending.Read? && (ending.keeps <==> output.Some? && output.value.Queue().staged != [])
    ensures verdict.Admitted? <==> ended.Some?
    ensures verdict.Admitted? && old(!conn.peerClosed && !conn.failed) ==>
      && heard == Receive(conn.native.suite, old(LineOf(conn)), old(bytes[..])) && LineOf(conn) == heard.0
      && (|heard.1| > limit ==> output.None?)
      && (|heard.1| <= limit ==>
            heard.1 == if output.Some? then Stream.Contents(output.value.Queue()) else [])
      && (ended.value == PeerDone <==> heard.0.end == Clean && |heard.1| <= limit)
      && (ended.value == Delivered <==> heard.0.end == Running && |heard.1| <= limit)
      && (heard.0.end == Broken ==> ended.value == Terminal(Tls))
  {
    heard := (LineOf(conn), []);
    output, ended := None, None;
    ending := Ending.Read([], false, false);
    ghost var s, p := run.View(), Senders.Snap(conn, send);
    var o := TryReserve(conn, send, lent, run, fails);
    verdict := VerdictOf(o);
    if o.Granted? {
      ghost var t, b := run.View(), o.txn.View();
      var end, released;
      ghost var rounds, failure;
      output, end, released, rounds, heard, failure := ReadLease(o.txn, bytes, limit);
      ended := Some(end);
      ending := Ending.Read(rounds, conn.failed, released == Direct.Release.Retained);
      AdmittedAttempt(s, p, lent, fails, t, b, ending, run.View(), Senders.Snap(conn, send));
    } else {
      RefusedAttempt(s, p, lent, fails, run.View(), verdict, ending);
    }
  }

  /** A receive that is admitted and then not wanted: completed, or just dropped. */
  method ReceiveNothing(conn: Connection, send: Buffers.SendState, lent: bool, run: Runtime, fails: bool,
                        completes: bool)
      returns (verdict: Verdict)
    requires run.send == conn.send && run.recv != run.send
    modifies conn`failed, send`buffer, run.recv`free, run.send`free, run.waiters, run`tally
    ensures (run.View(), Senders.Snap(conn, send)) ==
            Attempt(old(run.View()), old(Senders.Snap(conn, send)), lent, fails, if completes then Unread else Dropped)
    ensures verdict == Admit(old(run.View()), NeedsSlot(conn.native.handshaking, lent, old(send.buffer).Some?), fails).1
  {
    var o := TryReserve(conn, send, lent, run, fails);
    verdict := VerdictOf(o);
    if o.Granted? {
      if completes {
        o.txn.Release(Direct.Release.Released);
      } else {
        o.txn.Drop();
      }
    }
  }
}
