// The send pipeline as values: one connection's engine output, its cursor and its flags,
// and what each call of src/tls/senders.rs and src/tls/protocol.rs makes of them.

module Pipes {
  import opened Basics
  import opened Staging
  import opened Records
  import opened Outbox
  import opened Buffers

  // `free` is what the shared send pool has left.
  datatype Pipe = Pipe(
    out: Outgoing,
    handshaking: bool,
    buffer: Option<Slot>,
    free: nat,
    localClosed: bool,
    failed: bool)

  predicate CanWrite(p: Pipe) {
    !p.failed && !p.localClosed && !p.handshaking
  }

  function Unsent(p: Pipe): seq<byte> {
    if p.buffer.Some? then p.buffer.value.bytes else []
  }

  // ----- sealing plaintext -----

  datatype Sealing = Sealing(out: Outgoing, cursor: Slot, used: nat, ok: bool)

  /** Seals `plain` a record at a time for as long as everything sealed so far has moved
      into the cursor and the cursor has room. */
  function Seal(w: Writer, o: Outgoing, c: Slot, plain: seq<byte>): (s: Sealing)
    ensures s.used <= |plain|
    decreases |plain|
  {
    if plain == [] || Spare(c) == 0 || WantsWrite(o) then Sealing(o, c, 0, true)
    else
      var part := plain[..Min(|plain|, MAX_PLAINTEXT)];
      match Accepts(w, o, |part|)
      case None => Sealing(o.(writes := o.writes + 1), c, 0, false)
      case Some(n) =>
        var q := Write(w, o, part, n);
        if n == 0 then Sealing(TakeFrom(q, c), GiveTo(q, c), 0, true)
        else
          var s := Seal(w, TakeFrom(q, c), GiveTo(q, c), plain[n..]);
          s.(used := n + s.used)
  }

  // ----- the calls -----

  datatype Ready = Buffered | BufferWait

  // What a call tells the driver.
  datatype Answer = Answer(ready: Ready, used: nat, closeAfter: bool, failure: Option<Error>)

  /** The own cursor, or a fresh one if the pool has any. */
  function WithBuffer(p: Pipe): Option<Pipe> {
    if p.buffer.Some? then Some(p)
    else if p.free > 0 then Some(p.(buffer := Some(VACANT), free := p.free - 1))
    else None
  }

  function Transfer(p: Pipe): Pipe
    requires p.buffer.Some?
  {
    p.(out := TakeFrom(p.out, p.buffer.value), buffer := Some(GiveTo(p.out, p.buffer.value)))
  }

  function FreeEmpty(p: Pipe): Pipe {
    if p.buffer.Some? && p.buffer.value.bytes == [] then p.(buffer := None, free := p.free + 1) else p
  }

  function SealInto(w: Writer, p: Pipe, plain: seq<byte>): (Pipe, nat, bool)
    requires p.buffer.Some?
  {
    if CanWrite(p) then
      var s := Seal(w, p.out, p.buffer.value, plain);
      (p.(out := s.out, buffer := Some(s.cursor), failed := !s.ok), s.used, s.ok)
    else
      (p, 0, true)
  }

  function PrepareWith(w: Writer, b: Pipe, plain: seq<byte>): (Pipe, Answer)
    requires b.buffer.Some?
  {
    var q := Transfer(b);
    if WantsWrite(q.out) then
      (FreeEmpty(q), Answer(Buffered, 0, q.failed, None))
    else
      var (r, used, ok) := SealInto(w, q, plain);
      (FreeEmpty(r), Answer(Buffered, used, r.failed, if ok then None else Some(Io)))
  }

  function Prepare(w: Writer, p: Pipe, plain: seq<byte>): (Pipe, Answer) {
    if plain == [] && Unsent(p) == [] && !WantsWrite(p.out) then
      (p, Answer(Buffered, 0, false, None))
    else match WithBuffer(p)
      case None => (p, Answer(BufferWait, 0, false, None))
      case Some(b) => PrepareWith(w, b, plain)
  }

  function Sent(p: Pipe, n: nat): seq<byte> {
    Unsent(p)[..Min(n, |Unsent(p)|)]
  }

  function Advanced(p: Pipe, n: nat): Pipe {
    if p.buffer.Some? then p.(buffer := Some(Advance(p.buffer.value, n))) else p
  }

  /** A partial send keeps its suffix; only an emptied cursor is filled again. */
  function Refill(p: Pipe): Pipe
    requires p.buffer.Some?
  {
    if p.buffer.value.bytes == [] then Transfer(p) else p
  }

  function AfterSend(p: Pipe, n: nat): (Pipe, Answer) {
    var a := Advanced(p, n);
    if a.buffer.None? then (a, Answer(Buffered, 0, false, None))
    else (FreeEmpty(Refill(a)), Answer(Buffered, 0, a.failed, None))
  }

  /** While a connection is ending its engine output still goes out. */
  function Resume(p: Pipe, ending: bool): Option<Pipe> {
    if !ending || !WantsWrite(p.out) then Some(p)
    else match WithBuffer(p)
      case None => None
      case Some(b) => Some(Refill(b))
  }

  function PrepareDrain(p: Pipe, ending: bool): (Pipe, Answer) {
    match Resume(p, ending)
    case None => (p, Answer(BufferWait, 0, true, None))
    case Some(q) => (FreeEmpty(q), Answer(Buffered, 0, true, None))
  }

  function Settle(p: Pipe, n: nat, ending: bool): (Pipe, Answer) {
    PrepareDrain(Advanced(p, n), ending)
  }

  function Flush(p: Pipe): (Pipe, Answer) {
    if Unsent(p) == [] && !WantsWrite(p.out) then (p, Answer(Buffered, 0, false, None))
    else match WithBuffer(p)
      case None => (p, Answer(BufferWait, 0, false, None))
      case Some(b) => (FreeEmpty(Transfer(b)), Answer(Buffered, 0, b.failed, None))
  }

  function QueueClose(w: Writer, p: Pipe): Pipe {
    if p.localClosed || p.failed then p
    else p.(localClosed := true, out := SendCloseNotify(w, p.out))
  }

  function Close(w: Writer, p: Pipe): (Pipe, Answer) {
    match WithBuffer(p)
    case None => (p, Answer(BufferWait, 0, false, None))
    case Some(b) => (FreeEmpty(Transfer(QueueClose(w, b))), Answer(Buffered, 0, false, None))
  }

  /** What a receive transaction starts from: while the handshake goes on and the send
      state is at hand, a cursor is part of the admission. */
  function Lend(p: Pipe, lent: bool): Option<Pipe> {
    if p.handshaking && lent then WithBuffer(p) else Some(p)
  }

  /** The engine's half of a receive transaction. A broken stream fails the connection, and
      so may other things. */
  function Received(p: Pipe, rounds: seq<seq<Opened>>, fails: bool): Pipe {
    var d := Rounds(Duplex(p.out, p.handshaking), rounds, p.localClosed);
    p.(out := d.out, handshaking := d.handshaking, failed := p.failed || fails || !Unbroken(rounds))
  }

  /** Engine output moves to a loaned cursor, and without one it waits in the engine. */
  function Complete(p: Pipe, loaned: bool): Pipe
    requires loaned ==> p.buffer.Some?
  {
    if loaned then FreeEmpty(Transfer(p)) else p
  }

  function ReceiveStep(p: Pipe, rounds: seq<seq<Opened>>, lent: bool, fails: bool): Pipe {
    match Lend(p, lent)
    case None => p
    case Some(b) => Complete(Received(b, rounds, fails), p.handshaking && lent)
  }

  // ----- runs -----

  datatype Action =
    | Preparing(plain: seq<byte>)
    | AfterSending(n: nat)
    | Settling(n: nat, ending: bool)
    | Flushing
    | Draining(ending: bool)
    | Closing
    | Receiving(rounds: seq<seq<Opened>>, lent: bool, fails: bool)
    | Elsewhere(free: nat)  // other connections take and return send slots

  function Step(w: Writer, p: Pipe, a: Action): Pipe {
    match a
    case Preparing(plain) => Prepare(w, p, plain).0
    case AfterSending(n) => AfterSend(p, n).0
    case Settling(n, ending) => Settle(p, n, ending).0
    case Flushing => Flush(p).0
    case Draining(ending) => PrepareDrain(p, ending).0
    case Closing => Close(w, p).0
    case Receiving(rounds, lent, fails) => ReceiveStep(p, rounds, lent, fails)
    case Elsewhere(free) => p.(free := free)
  }

  /** What the action puts on the wire. */
  function Wire(p: Pipe, a: Action): seq<byte> {
    match a
    case AfterSending(n) => Sent(p, n)
    case Settling(n, _) => Sent(p, n)
    case _ => []
  }

  function Run(w: Writer, p: Pipe, actions: seq<Action>): (Pipe, seq<byte>)
    decreases |actions|
  {
    if actions == [] then (p, [])
    else
      var (q, wire) := Run(w, Step(w, p, actions[0]), actions[1..]);
      (q, Wire(p, actions[0]) + wire)
  }
}
