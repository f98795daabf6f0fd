// Connection::new of src/tls/mod.rs and open and reconfigure of src/tls/endpoint/mod.rs:
// opening a connection, and keeping one that was opened and not yet used.

module Openings {
  import opened Basics
  import opened Staging
  import Records
  import opened Outbox
  import opened Native
  import opened Buffers
  import opened Connections
  import opened Pipes
  import opened PipeLaws
  import opened PipeRuns

  // An opened connection: its engine's output and the cursor it came away with.
  datatype Opening = Opening(out: Outgoing, buffer: Option<Slot>)

  // Free sessions, free send slots, and the opening kept for the next caller.
  datatype Desk = Desk(sessions: nat, send: nat, kept: Option<Opening>)

  datatype Outcome = Committed(o: Opening) | Kept(o: Opening) | Unavailable | Failed

  /** First output goes to the slot; without a slot there must be none. */
  function Start(out: Outgoing, slot: bool): Option<Opening> {
    if slot then
      var c := GiveTo(out, VACANT);
      Some(Opening(TakeFrom(out, VACANT), if c.bytes == [] then None else Some(c)))
    else if WantsWrite(out) then None
    else Some(Opening(out, None))
  }

  function Publish(d: Desk, o: Opening, commits: bool): (Desk, Outcome) {
    if commits then (d, Committed(o)) else (d.(kept := Some(o)), Kept(o))
  }

  function SlotOf(o: Option<Opening>): nat {
    if o.Some? && o.value.buffer.Some? then 1 else 0
  }

  function One(o: Option<Opening>): nat {
    if o.Some? then 1 else 0
  }

  /** `sendOnOpen`: the role speaks first. `native`: what a new engine starts with, if one
      can be made. `commits`: the caller takes what it is given. */
  function Offer(d: Desk, sendOnOpen: bool, native: Option<Outgoing>, commits: bool): (Desk, Outcome) {
    if d.kept.Some? then Publish(d.(kept := None), d.kept.value, commits)
    else if d.sessions == 0 || (sendOnOpen && d.send == 0) then (d, Unavailable)
    else if native.None? then (d, Failed)
    else
      match Start(native.value, sendOnOpen)
      case None => (d, Unavailable)
      case Some(o) =>
        assert SlotOf(Some(o)) <= d.send;
        Publish(Desk(d.sessions - 1, d.send - SlotOf(Some(o)), None), o, commits)
  }

  /** Drops the kept opening, with all it holds. */
  function Forget(d: Desk): Desk {
    if d.kept.None? then d else Desk(d.sessions + 1, d.send + SlotOf(d.kept), None)
  }

  // ----- in place -----

  datatype Parts = Parts(conn: Connection, send: SendState)

  ghost function Describe(p: Parts): Opening
    reads p.conn, p.conn.native, p.send
  {
    Opening(p.conn.native.out, p.send.buffer)
  }

  /** Connection::new. */
  method NewConnection(native: Engine, pool: Pool, send: SendState) returns (r: Result<Parts>)
    requires native.received == [] && native.carry == [] && native.end == Records.Running && !native.seenEof
    requires NoneEmpty(native.out.pending)
    requires send.buffer == None || send.buffer == Some(VACANT)
    modifies native`out, send`buffer, pool`free
    ensures r.Ok? <==> Start(old(native.out), old(send.buffer).Some?).Some?
    ensures r.Err? ==> r.error == BufferUnavailable && send.buffer == None && pool.free == old(pool.free)
    ensures r.Ok? ==>
      && fresh(r.value.conn) && r.value.conn.native == native && r.value.send == send && r.value.conn.Settled()
      && !r.value.conn.peerClosed && !r.value.conn.localClosed && !r.value.conn.failed
      && Some(Describe(r.value)) == Start(old(native.out), old(send.buffer).Some?)
      && pool.free == old(pool.free) + if old(send.buffer).Some? && send.buffer == None then 1 else 0
  {
    var conn := new Connection(native, pool);
    if send.buffer.Some? {
      TransferExact(native.out, VACANT);
      var emitted, cursor := conn.EmitInto(send.buffer.value);
      send.buffer := Some(cursor);
    } else if WantsWrite(native.out) {
      return Err(BufferUnavailable);
    }
    var freed := send.FreeEmpty(pool);
    return Ok(Parts(conn, send));
  }

  class Endpoint {
    const sendOnOpen: bool
    const sessions: Pool
    const send: Pool
    var pending: Option<Parts>

    ghost predicate Valid()
      reads this
    {
      sessions != send
    }

    ghost function Owned(): set<object>
      reads this
    {
      if pending.Some? then {pending.value.conn as object, pending.value.conn.native, pending.value.send} else {}
    }

    ghost function View(): Desk
      reads this, sessions, send, Owned()
    {
      Desk(sessions.free, send.free, if pending.Some? then Some(Describe(pending.value)) else None)
    }

    constructor (sendOnOpen: bool, sessions: Pool, send: Pool)
      requires sessions != send
      ensures Valid() && this.sendOnOpen == sendOnOpen && this.sessions == sessions && this.send == send
      ensures pending == None
    {
      this.sendOnOpen, this.sessions, this.send, pending := sendOnOpen, sessions, send, None;
    }

    /** A new session with its first output, or the slots it took, given back. */
    method Begin(native: Option<Engine>) returns (r: Result<Parts>, failed: bool)
      requires Valid() && pending == None
      requires native.Some? ==>
        var n := native.value;
        n.received == [] && n.carry == [] && n.end == Records.Running && !n.seenEof && NoneEmpty(n.out.pending)
      modifies sessions`free, send`free, if native.Some? then {native.value} else {}
      ensures var out := if native.Some? then Some(old(native.value.out)) else None;
              var (d, o) := Offer(old(View()), sendOnOpen, out, true);
              && View() == d && failed == o.Failed?
              && (r.Err? <==> o.Unavailable? || o.Failed?)
              && (failed <==> old(sessions.free) > 0 && (sendOnOpen ==> old(send.free) > 0) && native.None?)
              && (r.Ok? ==> o == Committed(Describe(r.value)) && fresh(r.value.conn) && fresh(r.value.send)
                            && r.value.conn.native == native.value && !r.value.conn.localClosed
                            && !r.value.conn.peerClosed && !r.value.conn.failed)
    {
      failed := false;
      var lease := sessions.View();
      if lease.None? {
        return Err(BufferUnavailable), false;
      }
      var slot := None;
      if sendOnOpen {
        slot := send.View();
        if slot.None? {
          sessions.Return();
          return Err(BufferUnavailable), false;
        }
      }
      if native.None? {
        failed := true;
        r := Err(Tls);
      } else {
        var state := new SendState(slot);
        r := NewConnection(native.value, send, state);
      }
      if r.Err? {
        sessions.Return();
        if slot.Some? {
          send.Return();
        }
      }
    }

    /** Runtime::open; `commits` is what the caller does with the connection it is shown. */
    method Open(native: Option<Engine>, commits: bool) returns (outcome: Option<Parts>, failed: bool)
      requires Valid()
      requires native.Some? ==>
        var n := native.value;
        n.received == [] && n.carry == [] && n.end == Records.Running && !n.seenEof && NoneEmpty(n.out.pending)
      requires native.Some? ==> native.value !in Owned()
      modifies this`pending, sessions`free, send`free, if native.Some? then {native.value} else {}
      ensures Valid()
      ensures var out := if native.Some? then Some(old(native.value.out)) else None;
              var (d, o) := Offer(old(View()), sendOnOpen, out, commits);
              && View() == d && failed == o.Failed?
              && (outcome.Some? <==> o.Committed? || o.Kept?)
              && (outcome.Some? ==> Describe(outcome.value) == o.o && (o.Kept? <==> pending == outcome))
      ensures failed <==>
        old(pending).None? && old(sessions.free) > 0 && (sendOnOpen ==> old(send.free) > 0) && native.None?
      ensures old(pending).Some? ==> outcome == old(pending) && pending == if commits then None else outcome
    {
      failed := false;
      var parts := pending;
      pending := None;
      if parts.None? {
        var begun;
        begun, failed := Begin(native);
        if begun.Err? {
          return None, failed;
        }
        parts := Some(begun.value);
      }
      outcome := parts;
      if !commits {
        pending := parts;
      }
    }

    /** Reconfigure, which only servers have: the kept opening goes, and with it what it
        holds. */
    method Reconfigure()
      requires Valid()
      modifies this`pending, sessions`free, send`free
      ensures Valid() && View() == Forget(old(View()))
      ensures pending == None
      ensures sessions.free == old(sessions.free) + if old(pending).Some? then 1 else 0
      ensures send.free ==
        old(send.free) + if old(pending).Some? && old(pending.value.send.buffer).Some? then 1 else 0
    {
      if pending.Some? {
        if pending.value.send.buffer.Some? {
          send.Return();
        }
        sessions.Return();
        pending := None;
      }
    }
  }

  // ----- every run -----

  // live: connections in use; lent: send slots in their hands.
  datatype World = World(desk: Desk, live: nat, lent: nat)

  datatype Action =
    | Offering(native: Option<Outgoing>, commits: bool)
    | Reconfiguring
    | Closing(holds: bool)   // a live connection goes, with its slot if it has one
    | Taking                 // a live connection takes a send slot
    | Returning

  function Step(w: World, sendOnOpen: bool, a: Action): World {
    match a
    case Offering(native, commits) =>
      var (d, o) := Offer(w.desk, sendOnOpen, native, commits);
      if o.Committed? then World(d, w.live + 1, w.lent + SlotOf(Some(o.o))) else w.(desk := d)
    case Reconfiguring => if sendOnOpen then w else w.(desk := Forget(w.desk))
    case Closing(holds) =>
      if w.live == 0 || (holds && w.lent == 0) then w
      else
        var n := if holds then 1 else 0;
        World(w.desk.(sessions := w.desk.sessions + 1, send := w.desk.send + n), w.live - 1, w.lent - n)
    case Taking => if w.desk.send == 0 then w else World(w.desk.(send := w.desk.send - 1), w.live, w.lent + 1)
    case Returning => if w.lent == 0 then w else World(w.desk.(send := w.desk.send + 1), w.live, w.lent - 1)
  }

  function Run(w: World, sendOnOpen: bool, actions: seq<Action>): World
    decreases |actions|
  {
    if actions == [] then w else Run(Step(w, sendOnOpen, actions[0]), sendOnOpen, actions[1..])
  }

  /** Sessions out are the live connections and the kept one; send slots likewise. */
  predicate Accounted(w: World, sessions: nat, send: nat) {
    && w.desk.sessions + w.live + One(w.desk.kept) == sessions
    && w.desk.send + w.lent + SlotOf(w.desk.kept) == send
  }

  /** Over every run of commits, retries, refusals, failures, reconfigurations and closes,
      no session and no slot is lost or given twice. */
  lemma {:induction false} EveryRunAccounts(w: World, sendOnOpen: bool, actions: seq<Action>, sessions: nat, send: nat)
    requires Accounted(w, sessions, send)
    ensures Accounted(Run(w, sendOnOpen, actions), sessions, send)
    decreases |actions|
  {
    if actions != [] {
      EveryRunAccounts(Step(w, sendOnOpen, actions[0]), sendOnOpen, actions[1..], sessions, send);
    }
  }

  /** All of an engine's first output is kept, in order, in the cursor as far as that reaches;
      and a cursor that stays empty is not kept. */
  lemma StartKeepsOutput(out: Outgoing, slot: bool)
    requires NoneEmpty(out.pending)
    ensures Start(out, slot).None? <==> !slot && out.pending != []
    ensures var o := Start(out, slot);
            o.Some? ==>
              var bytes := if o.value.buffer.Some? then o.value.buffer.value.bytes else [];
              && bytes + Flatten(o.value.out.pending) == Flatten(out.pending)
              && |bytes| == Min(|Flatten(out.pending)|, TLS_STAGING_CAP)
              && (o.value.buffer.Some? <==> out.pending != [])
              && o.value.out.(pending := out.pending) == out
  {
    if slot { TransferExact(out, VACANT); }
    if out.pending != [] { assert |Flatten(out.pending)| >= |out.pending[0]| > 0; }
  }

  /** What an offer comes to: it fails exactly if an engine is called for and cannot be made,
      and nothing is available exactly if a session or a slot is wanting, or a role that does
      not speak first has something to say. */
  lemma OfferedExactly(d: Desk, sendOnOpen: bool, native: Option<Outgoing>, commits: bool)
    ensures var o := Offer(d, sendOnOpen, native, commits).1;
            var able := d.sessions > 0 && (sendOnOpen ==> d.send > 0);
            && (o.Failed? <==> d.kept.None? && able && native.None?)
            && (o.Unavailable? <==>
                d.kept.None? && (!able || (native.Some? && !sendOnOpen && native.value.pending != [])))
            && (o.Committed? || o.Kept? ==> (o.Committed? <==> commits))
            && (d.kept.Some? ==> o == if commits then Committed(d.kept.value) else Kept(d.kept.value))
  {
  }

  /** An open that gives nothing takes nothing. */
  lemma RefusedOpenTakesNothing(d: Desk, sendOnOpen: bool, native: Option<Outgoing>, commits: bool)
    ensures var (e, o) := Offer(d, sendOnOpen, native, commits); o.Unavailable? || o.Failed? ==> e == d
  {
  }

  /** What is kept stays as it is, first output and all, until someone commits to it, and
      then it is what they get: whatever else was opened, refused or closed meanwhile. */
  lemma {:induction false} KeptUntilCommitted(w: World, sendOnOpen: bool, actions: seq<Action>,
                                              native: Option<Outgoing>)
    requires w.desk.kept.Some?
    requires forall i :: 0 <= i < |actions| ==>
      !(actions[i].Offering? && actions[i].commits) && (actions[i].Reconfiguring? ==> sendOnOpen)
    ensures var r := Run(w, sendOnOpen, actions);
            && r.desk.kept == w.desk.kept
            && Offer(r.desk, sendOnOpen, native, true) == (r.desk.(kept := None), Committed(w.desk.kept.value))
    decreases |actions|
  {
    if actions != [] {
      KeptUntilCommitted(Step(w, sendOnOpen, actions[0]), sendOnOpen, actions[1..], native);
    }
  }

  /** An engine fresh from the role, with `hello` to say. */
  function Hello(hello: seq<byte>): Outgoing {
    if hello == [] then Outgoing([], [], [], 0) else Outgoing([hello], [], [Reply(hello)], 0)
  }

  /** The pipe of an opened connection. */
  function PipeOf(o: Opening): Pipe {
    Pipe(o.out, true, o.buffer, 0, false, false)
  }

  /** The run theorems of the send pipeline apply to it. */
  ghost predicate Ready(o: Opening) {
    Sound(PipeOf(o), []) && HoldsForSending(PipeOf(o)) && HoldsNothingBack(PipeOf(o))
  }

  /** A connection starts sound: its first output is in the cursor as far as that reaches,
      and the rest is still in the engine. A role that has something to say and no slot to
      say it in does not open. */
  lemma OpeningIsSound(hello: seq<byte>, slot: bool)
    ensures Start(Hello(hello), slot).None? <==> !slot && hello != []
    ensures var o := Start(Hello(hello), slot);
            o.Some? ==>
              && Ready(o.value)
              && (hello != [] ==>
                    o.value.buffer.Some? && o.value.buffer.value.bytes == hello[..Min(|hello|, TLS_STAGING_CAP)])
  {
    var out := Hello(hello);
    FlattenOne(hello);
    assert Ciphers([Reply(hello)]) == [hello];
    if slot { TransferExact(out, VACANT); }
    if Start(out, slot).Some? {
      var p := PipeOf(Start(out, slot).value);
      assert [] + Unsent(p) + Flatten(p.out.pending) == Produced(p.out);
      assert Sound(p, []);
    }
  }

  /** What an offer takes from the desk is in the opening, kept or handed over. */
  lemma OfferMoves(d: Desk, sendOnOpen: bool, native: Option<Outgoing>, commits: bool)
    ensures var (e, o) := Offer(d, sendOnOpen, native, commits);
            var given := if o.Committed? then Some(o.o) else None;
            && e.send + SlotOf(e.kept) + SlotOf(given) == d.send + SlotOf(d.kept)
            && e.sessions + One(e.kept) + One(given) == d.sessions + One(d.kept)
            && e.send <= d.send && (o.Committed? ==> commits)
  {
  }

  lemma OfferIsReady(d: Desk, sendOnOpen: bool, hello: Option<seq<byte>>, commits: bool)
    requires d.kept.Some? ==> Ready(d.kept.value)
    ensures var native := if hello.Some? then Some(Hello(hello.value)) else None;
            var (e, o) := Offer(d, sendOnOpen, native, commits);
            && (e.kept.Some? ==> Ready(e.kept.value))
            && (o.Committed? ==> Ready(o.o))
  {
    if hello.Some? { OpeningIsSound(hello.value, sendOnOpen); }
  }
}
