// src/tls/receive/stream.rs and src/state/direct/source.rs: the plaintext of one read,
// held as the spilled chunk followed by the input's prefix and consumed from the front.

module Stream {
  import opened Basics

  // ----- the reference: a byte queue in two segments -----

  datatype Segments = Segments(staged: seq<byte>, plain: seq<byte>)

  function Contents(q: Segments): seq<byte> {
    q.staged + q.plain
  }

  /** What can be seen at once: the current segment, whole. */
  function Front(q: Segments): seq<byte> {
    if q.staged != [] then q.staged else q.plain
  }

  function Pop(q: Segments, n: nat): Segments
    requires n <= |Front(q)|
  {
    if q.staged != [] then q.(staged := q.staged[n..]) else q.(plain := q.plain[n..])
  }

  // One use of the queue: up to `n` bytes, exactly `n` bytes or none, or a head that is
  // abandoned after consuming `n` bytes of it.
  datatype Ask = UpTo(n: nat) | Exactly(n: nat) | Abandoned(n: nat)

  function Grant(q: Segments, ask: Ask): (n: nat)
    ensures n <= |Front(q)|
  {
    match ask
    case UpTo(n) => Min(n, |Front(q)|)
    case Exactly(n) => if n <= |Front(q)| then n else 0
    case Abandoned(_) => 0
  }

  function Serve(q: Segments, asks: seq<Ask>): (seq<seq<byte>>, Segments)
    decreases |asks|
  {
    if asks == [] then ([], q)
    else
      var n := Grant(q, asks[0]);
      var (outs, rest) := Serve(Pop(q, n), asks[1..]);
      ([Front(q)[..n]] + outs, rest)
  }

  lemma PopTakesTheFront(q: Segments, n: nat)
    requires n <= |Front(q)|
    ensures Front(q)[..n] + Contents(Pop(q, n)) == Contents(q)
  {
  }

  lemma PopDropsTheFront(q: Segments, n: nat)
    requires n <= |Front(q)|
    ensures |Front(q)| <= |Contents(q)| && Contents(Pop(q, n)) == Contents(q)[n..]
  {
  }

  lemma FlattenCons(first: seq<byte>, rest: seq<seq<byte>>)
    ensures Flatten([first] + rest) == first + Flatten(rest)
  {
    assert ([first] + rest)[1..] == rest;
  }

  /** Any sequence of uses hands out exactly the contents, in order, up to what is left. */
  lemma {:induction false} ServeConserves(q: Segments, asks: seq<Ask>)
    ensures var (outs, rest) := Serve(q, asks);
            |outs| == |asks| && Flatten(outs) + Contents(rest) == Contents(q)
    decreases |asks|
  {
    if asks != [] {
      var n := Grant(q, asks[0]);
      var (outs, rest) := Serve(Pop(q, n), asks[1..]);
      ServeConserves(Pop(q, n), asks[1..]);
      PopTakesTheFront(q, n);
      FlattenCons(Front(q)[..n], outs);
      Regroup(Front(q)[..n], Flatten(outs), Contents(rest));
    }
  }

  /** No single use crosses from one segment into the other: while the staged segment
      lasts, the plain one is untouched. */
  lemma {:induction false} ServeNeverCrosses(q: Segments, asks: seq<Ask>)
    ensures var rest := Serve(q, asks).1;
            && (rest.staged != [] ==> rest.plain == q.plain)
            && |rest.staged| <= |q.staged| && rest.staged == q.staged[|q.staged| - |rest.staged|..]
            && |rest.plain| <= |q.plain| && rest.plain == q.plain[|q.plain| - |rest.plain|..]
    decreases |asks|
  {
    if asks != [] {
      var n := Grant(q, asks[0]);
      ServeNeverCrosses(Pop(q, n), asks[1..]);
      if q.staged == [] {
        StagedStaysEmpty(Pop(q, n), asks[1..]);
      }
    }
  }

  lemma {:induction false} StagedStaysEmpty(q: Segments, asks: seq<Ask>)
    requires q.staged == []
    ensures Serve(q, asks).1.staged == []
    decreases |asks|
  {
    if asks != [] {
      StagedStaysEmpty(Pop(q, Grant(q, asks[0])), asks[1..]);
    }
  }

  /** A use that asks for up to so many bytes gets them, or all that can be seen; and one
      that asks for exactly so many gets them if they can all be seen. */
  lemma GrantIsFair(q: Segments, n: nat)
    ensures var seen := if q.staged == [] then q.plain else q.staged;
            && Grant(q, UpTo(n)) == (if n <= |seen| then n else |seen|)
            && Grant(q, Exactly(n)) == (if n <= |seen| then n else 0)
            && Grant(q, Abandoned(n)) == 0
  {
  }

  lemma {:induction false} EachTakesOne(q: Segments, asks: seq<Ask>)
    requires forall i :: 0 <= i < |asks| ==> asks[i].UpTo? && asks[i].n > 0
    ensures |Contents(Serve(q, asks).1)| <= if |asks| <= |Contents(q)| then |Contents(q)| - |asks| else 0
    decreases |asks|
  {
    if asks != [] {
      GrantIsFair(q, asks[0].n);
      EachTakesOne(Pop(q, Grant(q, asks[0])), asks[1..]);
    }
  }

  /** As many uses as there are bytes, each of at least one byte, hand out all of them. */
  lemma UsesEmptyTheQueue(q: Segments, asks: seq<Ask>)
    requires forall i :: 0 <= i < |asks| ==> asks[i].UpTo? && asks[i].n > 0
    requires |asks| >= |Contents(q)|
    ensures Flatten(Serve(q, asks).0) == Contents(q) && Contents(Serve(q, asks).1) == []
  {
    EachTakesOne(q, asks);
    ServeConserves(q, asks);
    NothingMore(Flatten(Serve(q, asks).0));
  }

  // ----- the implementation -----

  // A segment: `bytes[end - len..end]` is what remains of it. The spilled chunk, whose
  // cursor type is foreign, is taken to behave like this one.
  class Cursor {
    const bytes: seq<byte>
    const end: nat
    var len: nat

    ghost predicate Valid()
      reads this
    {
      len <= end <= |bytes|
    }

    constructor (bytes: seq<byte>, end: nat)
      requires end <= |bytes|
      ensures Valid() && this.bytes == bytes && this.end == end && len == end
    {
      this.bytes, this.end, len := bytes, end, end;
    }

    function View(left: nat): seq<byte>
      requires left <= end <= |bytes|
    {
      bytes[end - left..end]
    }

    function AsSlice(): seq<byte>
      requires Valid()
      reads this
    {
      View(len)
    }

    method NewHead() returns (h: Option<Head>)
      requires Valid()
      ensures h.None? <==> len == 0
      ensures h.Some? ==> fresh(h.value) && h.value.cursor == this && h.value.remaining == len
    {
      if len == 0 {
        return None;
      }
      var head := new Head(this);
      return Some(head);
    }
  }

  // A transaction on a cursor: consuming shows at once, but only commit keeps it.
  class Head {
    const cursor: Cursor
    var remaining: nat

    ghost predicate Valid()
      reads this, cursor
    {
      cursor.Valid() && remaining <= cursor.len
    }

    constructor (cursor: Cursor)
      requires cursor.Valid()
      ensures this.cursor == cursor && remaining == cursor.len
    {
      this.cursor, remaining := cursor, cursor.len;
    }

    function AsSlice(): seq<byte>
      requires Valid()
      reads this, cursor
    {
      cursor.View(remaining)
    }

    method TryConsume(amount: nat) returns (r: Result<()>)
      requires Valid()
      modifies this`remaining
      ensures Valid()
      ensures r == if amount <= old(remaining) then Ok(()) else Err(Consume)
      ensures AsSlice() == if r.Ok? then old(AsSlice())[amount..] else old(AsSlice())
      ensures remaining == if r.Ok? then old(remaining) - amount else old(remaining)
    {
      if amount > remaining {
        return Err(Consume);
      }
      remaining := remaining - amount;
      return Ok(());
    }

    method ConsumeMax(max: nat) returns (amount: nat)
      requires Valid()
      modifies this`remaining
      ensures Valid() && amount == Min(max, old(remaining)) && remaining == old(remaining) - amount
      ensures AsSlice() == old(AsSlice())[amount..]
    {
      amount := Min(max, remaining);
      remaining := remaining - amount;
    }

    method Commit() returns (consumed: nat)
      requires Valid()
      modifies cursor`len
      ensures cursor.Valid() && Valid() && cursor.len == remaining
      ensures consumed == old(cursor.len) - remaining
      ensures cursor.AsSlice() == old(cursor.AsSlice())[consumed..]
    {
      consumed := cursor.len - remaining;
      cursor.len := remaining;
    }
  }

  function Length(c: Option<Cursor>): nat
      reads if c.Some? then {c.value} else {}
  {
    if c.Some? then c.value.len else 0
  }

  class Retained {
    const staged: Option<Cursor>
    const plain: Option<Cursor>
    var remaining: nat

    ghost function Owned(): set<object> {
      (if staged.Some? then {staged.value as object} else {}) + (if plain.Some? then {plain.value as object} else {})
    }

    /** `remaining` is a cache of the two segments' lengths. */
    ghost predicate Valid()
      reads this, Owned()
    {
      && (staged.Some? ==> staged.value.Valid())
      && (plain.Some? ==> plain.value.Valid())
      && (staged.Some? && plain.Some? ==> staged.value != plain.value)
      && remaining == |Contents(Queue())|
    }

    ghost function Queue(): Segments
      reads this, Owned()
    {
      Segments(if staged.Some? && staged.value.Valid() then staged.value.AsSlice() else [],
               if plain.Some? && plain.value.Valid() then plain.value.AsSlice() else [])
    }

    constructor (staged: Option<Cursor>, plain: Option<Cursor>, remaining: nat)
      requires staged.Some? ==> staged.value.Valid()
      requires plain.Some? ==> plain.value.Valid()
      requires staged.Some? && plain.Some? ==> staged.value != plain.value
      requires remaining == Length(staged) + Length(plain)
      ensures Valid() && this.staged == staged && this.plain == plain && this.remaining == remaining
    {
      this.staged, this.plain, this.remaining := staged, plain, remaining;
    }

    /** An empty chunk is none. */
    static method Stage(chunk: Option<seq<byte>>) returns (staged: Option<Cursor>)
      ensures staged.Some? <==> chunk.Some? && chunk.value != []
      ensures staged.Some? ==>
        && fresh(staged.value) && staged.value.Valid()
        && staged.value.AsSlice() == chunk.value && staged.value.len == |chunk.value|
    {
      staged := None;
      if chunk.Some? && chunk.value != [] {
        var c := new Cursor(chunk.value, |chunk.value|);
        staged := Some(c);
        assert c.AsSlice() == chunk.value;
      }
    }

    /** An empty read is no read; one longer than a transfer may be is refused. */
    static method TryNew(limit: nat, chunk: Option<seq<byte>>, plain: Cursor) returns (r: Result<Option<Retained>>)
      requires plain.Valid()
      ensures var stage := if chunk.Some? then |chunk.value| else 0;
              && (r.Err? <==> stage + plain.len > limit)
              && (r.Err? ==> r.error == if stage > limit then Error.Staged else Error.Retained)
              && (r == Ok(None) <==> stage + plain.len == 0)
      ensures r.Ok? && r.value.Some? ==>
        && fresh(r.value.value) && fresh(r.value.value.Owned() - {plain})
        && r.value.value.Valid() && r.value.value.remaining <= limit
        && r.value.value.Queue().staged == (if chunk.Some? then chunk.value else [])
        && r.value.value.Queue().plain == plain.AsSlice()
    {
      var staged := Stage(chunk);
      var body := plain.len;
      var kept := if body != 0 then Some(plain) else None;
      var stage := Length(staged);
      if stage > limit {
        r := Err(Error.Staged);
      } else if stage + body > limit {
        r := Err(Error.Retained);
      } else if stage + body == 0 {
        r := Ok(None);
      } else {
        var q := new Retained(staged, kept, stage + body);
        r := Ok(Some(q));
      }
    }

    /** The view is the current segment's remaining suffix. */
    function View(): (v: seq<byte>)
      requires Valid()
      reads this, Owned()
      ensures v == Front(Queue())
    {
      if staged.Some? && staged.value.len != 0 then staged.value.AsSlice()
      else if plain.Some? then plain.value.AsSlice()
      else []
    }

    method Next() returns (current: Option<Current>)
      requires Valid()
      ensures current.None? <==> Contents(Queue()) == []
      ensures current.Some? ==>
        && fresh(current.value) && fresh(current.value.head) && current.value.Valid()
        && current.value.owner == this && current.value.head.AsSlice() == View()
        && current.value.head.remaining == current.value.head.cursor.len
    {
      if staged.Some? && staged.value.len != 0 {
        var h := staged.value.NewHead();
        if h.Some? {
          var c := new Current(this, h.value);
          return Some(c);
        }
      }
      if plain.None? {
        return None;
      }
      var h := plain.value.NewHead();
      if h.None? {
        return None;
      }
      var c := new Current(this, h.value);
      return Some(c);
    }

    method TryConsume(amount: nat) returns (r: Result<()>)
      requires Valid()
      modifies this`remaining, Owned()
      ensures Valid()
      ensures r == if amount <= |old(View())| then Ok(()) else Err(Consume)
      ensures Queue() == Pop(old(Queue()), Grant(old(Queue()), Exactly(amount)))
      ensures Contents(Queue()) == if r.Ok? then Contents(old(Queue()))[amount..] else Contents(old(Queue()))
    {
      PopDropsTheFront(Queue(), Grant(Queue(), Exactly(amount)));
      var current := Next();
      if current.None? {
        r := if amount > 0 then Err(Consume) else Ok(());
      } else {
        r := current.value.CommitExactly(amount);
      }
    }

    method ConsumeMax(max: nat) returns (amount: nat)
      requires Valid()
      modifies this`remaining, Owned()
      ensures Valid()
      ensures amount == Grant(old(Queue()), UpTo(max)) == Min(max, |old(View())|)
      ensures Queue() == Pop(old(Queue()), amount)
      ensures Contents(Queue()) == Contents(old(Queue()))[amount..]
    {
      PopDropsTheFront(Queue(), Grant(Queue(), UpTo(max)));
      var current := Next();
      if current.None? {
        amount := 0;
      } else {
        amount := current.value.CommitUpTo(max);
      }
    }
  }

  // The head of a retained read, with the cache it must keep up to date.
  class Current {
    const owner: Retained
    const head: Head

    ghost predicate Valid()
      reads this, owner, owner.Owned(), head, head.cursor
    {
      && owner.Valid() && head.Valid()
      && (owner.staged == Some(head.cursor) || owner.plain == Some(head.cursor))
      && (owner.plain == Some(head.cursor) ==> owner.staged.None? || owner.staged.value.len == 0)
    }

    constructor (owner: Retained, head: Head)
      ensures this.owner == owner && this.head == head
    {
      this.owner, this.head := owner, head;
    }

    /** Keeps what the head consumed: the front segment loses exactly that prefix. A head
        that is dropped instead has written nothing. */
    method Commit() returns (consumed: nat)
      requires Valid()
      modifies owner`remaining, head.cursor`len
      ensures owner.Valid()
      ensures consumed == old(head.cursor.len) - head.remaining
      ensures consumed <= |Front(old(owner.Queue()))| && owner.Queue() == Pop(old(owner.Queue()), consumed)
    {
      consumed := head.Commit();
      owner.remaining := owner.remaining - consumed;
    }

    /** A fresh head is consumed and committed: exactly `amount` of it or none. */
    method CommitExactly(amount: nat) returns (r: Result<()>)
      requires Valid() && head.remaining == |Front(owner.Queue())|
      modifies head`remaining, owner`remaining, head.cursor`len
      ensures owner.Valid()
      ensures r == if amount <= |Front(old(owner.Queue()))| then Ok(()) else Err(Consume)
      ensures owner.Queue() == if r.Ok? then Pop(old(owner.Queue()), amount) else old(owner.Queue())
    {
      r := head.TryConsume(amount);
      assert owner.Queue() == old(owner.Queue()) && owner.Valid();
      if r.Ok? {
        var consumed := Commit();
        assert consumed == amount;
      }
    }

    /** Or as much of it as there is up to `max`. */
    method CommitUpTo(max: nat) returns (amount: nat)
      requires Valid() && head.remaining == |Front(owner.Queue())|
      modifies head`remaining, owner`remaining, head.cursor`len
      ensures owner.Valid()
      ensures amount == Min(max, |Front(old(owner.Queue()))|)
      ensures owner.Queue() == Pop(old(owner.Queue()), amount)
    {
      amount := head.ConsumeMax(max);
      var consumed := Commit();
      assert consumed == amount;
    }
  }
}
