// The engine's sending half as a value: what it has produced, and what of that has not
// been taken from it yet. Every emission is recorded by cause, so that statements about
// order are statements about `log`.

module Outbox {
  import opened Basics
  import opened Staging
  import opened Records

  datatype Item =
    | Sealed(plain: seq<byte>, cipher: seq<byte>)  // application data
    | Flushed(cipher: seq<byte>)                   // a KeyUpdate that had been held back
    | Closing(cipher: seq<byte>)                   // close_notify
    | Reply(cipher: seq<byte>)                     // handshake output and alerts

  // pending: chunks not taken yet; queued: a KeyUpdate waiting for the next emission;
  // log: everything ever emitted; writes: nonempty writes attempted.
  datatype Outgoing = Outgoing(
    pending: seq<seq<byte>>,
    queued: seq<byte>,
    log: seq<Item>,
    writes: nat)

  // A record of at most 2^14 content bytes is longer than its content and no longer
  // than section 5.2 of RFC 8446 allows.
  ghost predicate SealsInBounds(seal: (nat, seq<byte>) -> seq<byte>) {
    forall n: nat, plain: seq<byte> :: |plain| <= MAX_PLAINTEXT ==>
      |plain| < |seal(n, plain)| <= |plain| + 261
  }

  type Sealer = f: (nat, seq<byte>) -> seq<byte> | SealsInBounds(f)
    ghost witness ((n: nat, plain: seq<byte>) => plain + [0])

  // The foreign writer: `accept(k)` is how much its k-th nonempty write takes at most,
  // or None when that write fails. Ranging over all writers ranges over all short writes.
  datatype Writer = Writer(seal: Sealer, notify: seq<byte>, accept: nat -> Option<nat>)

  function Ciphers(log: seq<Item>): (r: seq<seq<byte>>)
    ensures |r| == |log|
  {
    seq(|log|, i requires 0 <= i < |log| => log[i].cipher)
  }

  /** All ciphertext ever produced, in order. */
  function Produced(o: Outgoing): seq<byte> {
    Flatten(Ciphers(o.log))
  }

  /** The application data sealed by a stretch of the log, one entry per record. */
  function SealedPlains(log: seq<Item>): seq<seq<byte>> {
    if log == [] then []
    else if log[0].Sealed? then [log[0].plain] + SealedPlains(log[1..])
    else SealedPlains(log[1..])
  }

  predicate WantsWrite(o: Outgoing) {
    o.pending != []
  }

  function Emit(o: Outgoing, item: Item): Outgoing {
    o.(pending := if item.cipher == [] then o.pending else o.pending + [item.cipher],
       log := o.log + [item])
  }

  /** A KeyUpdate held back goes out before anything that follows it. */
  function Publish(o: Outgoing): Outgoing {
    if o.queued == [] then o else Emit(o.(queued := []), Flushed(o.queued))
  }

  function Accepts(w: Writer, o: Outgoing, len: nat): (n: Option<nat>)
    ensures n.Some? ==> n.value <= len
  {
    if len == 0 then Some(0)
    else match w.accept(o.writes)
      case None => None
      case Some(limit) => Some(Min(limit, len))
  }

  /** A write of `part` of which the engine takes the first `n` bytes. */
  function Write(w: Writer, o: Outgoing, part: seq<byte>, n: nat): Outgoing
    requires n <= |part| <= MAX_PLAINTEXT
  {
    var p := Publish(o.(writes := if part == [] then o.writes else o.writes + 1));
    if n == 0 then p else Emit(p, Sealed(part[..n], w.seal(|p.log|, part[..n])))
  }

  function SendCloseNotify(w: Writer, o: Outgoing): Outgoing {
    Emit(Publish(o), Closing(w.notify))
  }

  function ReplyTo(e: Opened): seq<byte> {
    if e.Control? then e.reply else if e.Bad? then e.alert else []
  }

  /** Engine output caused by one incoming record: its reply, behind a KeyUpdate that was
      held back; and the KeyUpdate it asks for, held back unless one is already. */
  function React(o: Outgoing, e: Opened): Outgoing {
    var reply := ReplyTo(e);
    var o1 := if reply == [] then o else Emit(Publish(o), Reply(reply));
    if e.Control? && o1.queued == [] then o1.(queued := e.update) else o1
  }

  function Respond(o: Outgoing, events: seq<Opened>): Outgoing
    decreases |events|
  {
    if events == [] then o else Respond(React(o, events[0]), events[1..])
  }

  /** The records of a round end with one that breaks the stream. */
  predicate Cracks(events: seq<Opened>) {
    events != [] && EndOf(events[|events| - 1]) == Broken
  }

  predicate Unbroken(rounds: seq<seq<Opened>>) {
    forall i :: 0 <= i < |rounds| ==> !Cracks(rounds[i])
  }

  predicate Establishes(events: seq<Opened>) {
    exists i :: 0 <= i < |events| && events[i].Control? && events[i].established
  }

  // The part of a connection that receiving and sending share.
  datatype Duplex = Duplex(out: Outgoing, handshaking: bool)

  /** One processing round: the engine reacts to the records it found, and unless the
      stream broke, or this side closed, or the handshake goes on, a queued KeyUpdate is
      published by an empty write. */
  function Round(d: Duplex, events: seq<Opened>, closed: bool): Duplex {
    var out := Respond(d.out, events);
    var handshaking := d.handshaking && !Establishes(events);
    Duplex(if Cracks(events) || closed || handshaking then out else Publish(out), handshaking)
  }

  function Rounds(d: Duplex, rounds: seq<seq<Opened>>, closed: bool): Duplex {
    if rounds == [] then d
    else Round(Rounds(d, rounds[..|rounds| - 1], closed), rounds[|rounds| - 1], closed)
  }

  // ----- taking output -----

  /** The chunks left once the first `n` bytes are taken. */
  function DropBytes(chunks: seq<seq<byte>>, n: nat): seq<seq<byte>>
    requires n <= |Flatten(chunks)|
  {
    if chunks == [] || n == 0 then chunks
    else if |chunks[0]| <= n then DropBytes(chunks[1..], n - |chunks[0]|)
    else [chunks[0][n..]] + chunks[1..]
  }

  lemma {:induction false} DropBytesIsSuffix(chunks: seq<seq<byte>>, n: nat)
    requires n <= |Flatten(chunks)|
    ensures Flatten(DropBytes(chunks, n)) == Flatten(chunks)[n..]
    ensures NoneEmpty(chunks) ==> NoneEmpty(DropBytes(chunks, n))
  {
    if chunks == [] || n == 0 {
    } else if |chunks[0]| <= n {
      DropBytesIsSuffix(chunks[1..], n - |chunks[0]|);
      assert (chunks[0] + Flatten(chunks[1..]))[n..] == Flatten(chunks[1..])[n - |chunks[0]|..];
    } else {
      var r := DropBytes(chunks, n);
      assert r[0] == chunks[0][n..] && r[1..] == chunks[1..];
      assert (chunks[0] + Flatten(chunks[1..]))[n..] == chunks[0][n..] + Flatten(chunks[1..]);
    }
  }

  lemma {:induction false} DropBytesTwice(chunks: seq<seq<byte>>, a: nat, b: nat)
    requires NoneEmpty(chunks) && a + b <= |Flatten(chunks)|
    ensures b <= |Flatten(DropBytes(chunks, a))|
    ensures DropBytes(DropBytes(chunks, a), b) == DropBytes(chunks, a + b)
  {
    DropBytesIsSuffix(chunks, a);
    if chunks == [] || a == 0 {
    } else if |chunks[0]| <= a {
      DropBytesTwice(chunks[1..], a - |chunks[0]|, b);
    } else {
      var r := DropBytes(chunks, a);
      assert r[0] == chunks[0][a..] && r[1..] == chunks[1..];
    }
  }

  lemma CiphersConcat(a: seq<Item>, b: seq<Item>)
    ensures Ciphers(a + b) == Ciphers(a) + Ciphers(b)
  {
  }

  lemma {:induction false} SealedConcat(a: seq<Item>, b: seq<Item>)
    ensures SealedPlains(a + b) == SealedPlains(a) + SealedPlains(b)
  {
    if a == [] {
      assert a + b == b;
    } else {
      assert (a + b)[0] == a[0] && (a + b)[1..] == a[1..] + b;
      SealedConcat(a[1..], b);
    }
  }

  // ----- what any engine step may do to its own output -----

  /** What can go out on account of what came in. */
  predicate IsEcho(item: Item) {
    item.Reply? || item.Flushed?
  }

  /** `b` is `a` after some emissions: the log grew, and exactly the new ciphertext was
      added behind what was pending. */
  ghost predicate Grew(a: Outgoing, b: Outgoing) {
    && a.log <= b.log
    && Flatten(b.pending) == Flatten(a.pending) + Flatten(Ciphers(b.log[|a.log|..]))
    && (NoneEmpty(a.pending) ==> NoneEmpty(b.pending))
  }

  lemma GrewTrans(a: Outgoing, b: Outgoing, c: Outgoing)
    requires Grew(a, b) && Grew(b, c)
    ensures Grew(a, c)
  {
    var x, y := b.log[|a.log|..], c.log[|b.log|..];
    assert c.log[|a.log|..] == x + y;
    CiphersConcat(x, y);
    FlattenConcat(Ciphers(x), Ciphers(y));
    Regroup(Flatten(a.pending), Flatten(Ciphers(x)), Flatten(Ciphers(y)));
  }

  lemma EmitGrows(o: Outgoing, item: Item)
    ensures Grew(o, Emit(o, item))
  {
    var r := Emit(o, item);
    assert r.log[|o.log|..] == [item];
    assert Ciphers([item]) == [item.cipher];
    FlattenOne(item.cipher);
    FlattenConcat(o.pending, [item.cipher]);
  }

  lemma PublishGrows(o: Outgoing)
    ensures Grew(o, Publish(o))
    ensures forall i :: |o.log| <= i < |Publish(o).log| ==> Publish(o).log[i].Flushed?
  {
    assert Grew(o, o) by { assert o.log[|o.log|..] == []; }
    if o.queued != [] { EmitGrows(o.(queued := []), Flushed(o.queued)); }
  }

  lemma WriteGrows(w: Writer, o: Outgoing, part: seq<byte>, n: nat)
    requires n <= |part| <= MAX_PLAINTEXT
    ensures Grew(o, Write(w, o, part, n))
  {
    var o1 := o.(writes := if part == [] then o.writes else o.writes + 1);
    PublishGrows(o1);
    var p := Publish(o1);
    if n != 0 {
      EmitGrows(p, Sealed(part[..n], w.seal(|p.log|, part[..n])));
      GrewTrans(o1, p, Write(w, o, part, n));
    }
  }

  lemma CloseGrows(w: Writer, o: Outgoing)
    ensures Grew(o, SendCloseNotify(w, o))
  {
    PublishGrows(o);
    EmitGrows(Publish(o), Closing(w.notify));
    GrewTrans(o, Publish(o), SendCloseNotify(w, o));
  }

  lemma ReactGrows(o: Outgoing, e: Opened)
    ensures Grew(o, React(o, e))
    ensures forall i :: |o.log| <= i < |React(o, e).log| ==> IsEcho(React(o, e).log[i])
  {
    var reply := ReplyTo(e);
    if reply == [] {
      assert o.log[|o.log|..] == [];
    } else {
      PublishGrows(o);
      EmitGrows(Publish(o), Reply(reply));
      GrewTrans(o, Publish(o), Emit(Publish(o), Reply(reply)));
    }
  }

  lemma {:induction false} RespondGrows(o: Outgoing, events: seq<Opened>)
    ensures Grew(o, Respond(o, events))
    ensures forall i :: |o.log| <= i < |Respond(o, events).log| ==> IsEcho(Respond(o, events).log[i])
    decreases |events|
  {
    if events == [] {
      assert o.log[|o.log|..] == [];
    } else {
      ReactGrows(o, events[0]);
      RespondGrows(React(o, events[0]), events[1..]);
      GrewTrans(o, React(o, events[0]), Respond(o, events));
    }
  }

  /** Receiving only ever adds replies and KeyUpdates. */
  lemma {:induction false} RoundsGrow(d: Duplex, rounds: seq<seq<Opened>>, closed: bool)
    ensures var r := Rounds(d, rounds, closed);
            && Grew(d.out, r.out)
            && (forall i :: |d.out.log| <= i < |r.out.log| ==> IsEcho(r.out.log[i]))
    decreases |rounds|
  {
    if rounds == [] {
      assert d.out.log[|d.out.log|..] == [];
    } else {
      var m := Rounds(d, rounds[..|rounds| - 1], closed);
      var events := rounds[|rounds| - 1];
      RoundsGrow(d, rounds[..|rounds| - 1], closed);
      RespondGrows(m.out, events);
      var out := Respond(m.out, events);
      GrewTrans(d.out, m.out, out);
      PublishGrows(out);
      GrewTrans(d.out, out, Publish(out));
    }
  }

  lemma RoundsExtend(d: Duplex, rounds: seq<seq<Opened>>, events: seq<Opened>, closed: bool)
    ensures var r := Rounds(d, rounds + [events], closed);
            && r == Round(Rounds(d, rounds, closed), events, closed)
            && (NoneEmpty(d.out.pending) ==> NoneEmpty(r.out.pending))
    ensures Flatten(rounds + [events]) == Flatten(rounds) + events
  {
    assert (rounds + [events])[..|rounds|] == rounds;
    FlattenConcat(rounds, [events]);
    FlattenOne(events);
    RoundsGrow(d, rounds + [events], closed);
  }
}
