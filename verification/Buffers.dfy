// Pools, ciphertext cursors and the loans of them: src/tls/mod.rs and src/state/mod.rs.
// A pool is a count of free slots; returning a slot, which the crate does by dropping its
// owner, is written out.

module Buffers {
  import opened Basics
  import opened Staging
  import opened Outbox
  import opened Native

  // A ciphertext cursor: unsent bytes at offset `start` of a slot of TLS_STAGING_CAP
  // bytes. Consuming moves `start`; an empty cursor has its whole slot to offer again.
  datatype Cursor = Cursor(start: nat, bytes: seq<byte>)

  type Slot = c: Cursor | c.start + |c.bytes| <= TLS_STAGING_CAP witness Cursor(0, [])

  const VACANT: Slot := Cursor(0, [])

  function Spare(c: Slot): nat {
    TLS_STAGING_CAP - c.start - |c.bytes|
  }

  function Append(c: Slot, bytes: seq<byte>): Slot
    requires |bytes| <= Spare(c)
  {
    c.(bytes := c.bytes + bytes)
  }

  function Advance(c: Slot, max: nat): Slot {
    if max >= |c.bytes| then VACANT else Cursor(c.start + max, c.bytes[max..])
  }

  /** How much a drain moves: as much as there is and as much as fits. */
  function Moved(o: Outgoing, c: Slot): nat {
    Min(Spare(c), |Flatten(o.pending)|)
  }

  function TakeFrom(o: Outgoing, c: Slot): Outgoing {
    o.(pending := DropBytes(o.pending, Moved(o, c)))
  }

  function GiveTo(o: Outgoing, c: Slot): Slot {
    Append(c, Flatten(o.pending)[..Moved(o, c)])
  }

  /** A drain is an exact transfer: the cursor gains what the engine loses, order kept,
      and it stops only because one of them has nothing left. */
  lemma TransferExact(o: Outgoing, c: Slot)
    ensures GiveTo(o, c).bytes + Flatten(TakeFrom(o, c).pending) == c.bytes + Flatten(o.pending)
    ensures NoneEmpty(o.pending) ==> NoneEmpty(TakeFrom(o, c).pending)
    ensures NoneEmpty(o.pending) ==> (Spare(GiveTo(o, c)) == 0 || TakeFrom(o, c).pending == [])
  {
    var n := Moved(o, c);
    DropBytesIsSuffix(o.pending, n);
    assert Flatten(o.pending)[..n] + Flatten(o.pending)[n..] == Flatten(o.pending);
  }

  lemma MovedInFull(o: Outgoing, c: Slot, k: nat)
    requires NoneEmpty(o.pending) && k <= |Flatten(o.pending)| && k <= Spare(c)
    requires k == Spare(c) || DropBytes(o.pending, k) == []
    ensures k == Moved(o, c)
  {
    DropBytesIsSuffix(o.pending, k);
  }

  /** src/state/mod.rs, drain: moves engine output into the cursor, a gather write at a
      time. The zero-progress error is never returned. */
  method DrainInto(conn: Engine, c: Slot) returns (r: Result<()>, c': Slot)
    requires NoneEmpty(conn.out.pending)
    modifies conn`out
    ensures r == Ok(())
    ensures conn.out == TakeFrom(old(conn.out), c)
    ensures c' == GiveTo(old(conn.out), c)
  {
    ghost var all := conn.out.pending;
    if !WantsWrite(conn.out) {
      return Ok(()), c;
    }
    var output := new Output(Spare(c));
    r := Ok(());
    while true
      invariant output.Valid() && fresh(output) && output.room == Spare(c)
      invariant |output.written| <= |Flatten(all)| && output.written == Flatten(all)[..|output.written|]
      invariant conn.out == old(conn.out).(pending := DropBytes(all, |output.written|))
      invariant conn.out.pending != []
      decreases output.room - |output.written|
    {
      ghost var k := |output.written|;
      DropBytesIsSuffix(all, k);
      if output.Remaining() == 0 {
        break;
      }
      ghost var before := conn.out.pending;
      var n := conn.WriteTls(output);
      assert n > 0 by {
        ghost var offered: nat :| 0 < offered <= |before| &&
          n == Min(output.room - k, |Flatten(before[..offered])|);
        assert |before[..offered][0]| > 0;
      }
      assert Flatten(all)[..k] + Flatten(all)[k..][..n] == Flatten(all)[..k + n];
      DropBytesTwice(all, k, n);
      DropBytesIsSuffix(all, k + n);
      if n == 0 {
        r := Err(InvalidBufferProgress);
        break;
      } else if !WantsWrite(conn.out) {
        break;
      }
    }
    MovedInFull(old(conn.out), c, |output.written|);
    c' := Append(c, output.written);
  }

  datatype Availability = Released | Unchanged

  class Pool {
    const total: nat
    var free: nat

    ghost predicate Valid()
      reads this
    {
      free <= total
    }

    constructor (total: nat)
      ensures this.total == total && free == total
    {
      this.total, free := total, total;
    }

    method View() returns (c: Option<Slot>)
      modifies this`free
      ensures c == if old(free) > 0 then Some(VACANT) else None
      ensures free == if old(free) > 0 then old(free) - 1 else 0
    {
      if free == 0 {
        return None;
      }
      free := free - 1;
      return Some(VACANT);
    }

    method Return()
      modifies this`free
      ensures free == old(free) + 1
    {
      free := free + 1;
    }
  }

  // One connection's hold on a send slot.
  class SendState {
    var buffer: Option<Slot>

    constructor (buffer: Option<Slot>)
      ensures this.buffer == buffer
    {
      this.buffer := buffer;
    }

    function AsSlice(): seq<byte>
      reads this`buffer
    {
      if buffer.Some? then buffer.value.bytes else []
    }

    method ConsumeMax(max: nat)
      modifies this`buffer
      ensures buffer == match old(buffer)
                        case None => None
                        case Some(c) => Some(Advance(c, max))
    {
      if buffer.Some? {
        buffer := Some(Advance(buffer.value, max));
      }
    }

    /** Moves the own cursor, or a fresh one, into a loan; on failure nothing moved. */
    method Reserve(pool: Pool) returns (loan: Option<Buffered>)
      modifies this`buffer, pool`free
      ensures loan.None? <==> old(buffer).None? && old(pool.free) == 0
      ensures loan.None? ==> buffer.None? && pool.free == old(pool.free)
      ensures loan.Some? ==>
        && fresh(loan.value) && loan.value.store == this && buffer == None
        && loan.value.cursor == (if old(buffer).Some? then old(buffer).value else VACANT)
        && pool.free == old(pool.free) - (if old(buffer).Some? then 0 else 1)
    {
      var cursor := buffer;
      buffer := None;
      if cursor.None? {
        cursor := pool.View();
      }
      if cursor.None? {
        return None;
      }
      var l := new Buffered(this, cursor.value);
      return Some(l);
    }

    method TryBuffer(pool: Pool) returns (ok: bool)
      modifies this`buffer, pool`free
      ensures ok == (old(buffer).Some? || old(pool.free) > 0)
      ensures buffer == if old(buffer).None? && ok then Some(VACANT) else old(buffer)
      ensures pool.free == if old(buffer).None? && ok then old(pool.free) - 1 else old(pool.free)
    {
      if buffer.None? {
        buffer := pool.View();
      }
      ok := buffer.Some?;
    }

    method FreeEmpty(pool: Pool) returns (a: Availability)
      modifies this`buffer, pool`free
      ensures (a == Released) == (old(buffer).Some? && old(buffer).value.bytes == [])
      ensures buffer == if a == Released then None else old(buffer)
      ensures pool.free == if a == Released then old(pool.free) + 1 else old(pool.free)
    {
      if buffer.Some? && buffer.value.bytes == [] {
        buffer := None;
        pool.Return();
        return Released;
      }
      return Unchanged;
    }
  }

  // An admitted cursor on loan from `store`, which has none meanwhile.
  class Buffered {
    const store: SendState
    var cursor: Slot

    constructor (store: SendState, cursor: Slot)
      ensures this.store == store && this.cursor == cursor
    {
      this.store, this.cursor := store, cursor;
    }

    /** Completing and dropping a loan are the same: unsent ciphertext goes back to its
        store untouched, an empty slot goes back to the pool. */
    method Complete(pool: Pool) returns (a: Availability)
      modifies store`buffer, pool`free
      ensures (a == Released) == (old(cursor).bytes == [])
      ensures a == Released ==> store.buffer == old(store.buffer) && pool.free == old(pool.free) + 1
      ensures a == Unchanged ==> store.buffer == Some(old(cursor)) && pool.free == old(pool.free)
    {
      if cursor.bytes == [] {
        pool.Return();
        return Released;
      }
      store.buffer := Some(cursor);
      return Unchanged;
    }
  }
}
