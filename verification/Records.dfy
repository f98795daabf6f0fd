// What a TLS byte stream means, independent of how it is cut into reads: the reference
// against which the receive path is proved. Framing follows sections 5.1 and 5.2 of
// RFC 8446, the closing alert section 6.1. Cryptography is a parameter.

module Records {
  import opened Basics
  import opened Staging

  const HEADER: nat := 5

  // What one opened record is to the layer above.
  datatype Opened =
    | Data(plain: seq<byte>)
    | Control(reply: seq<byte>, update: seq<byte>, established: bool)
    | CloseNotify
    | Bad(alert: seq<byte>)

  // The foreign record layer of one connection. `open` may depend on the record's
  // position in the stream (the sequence number) and on its bytes in any way.
  datatype Suite = Suite(
    room: nat,
    admits: seq<byte> -> bool,
    open: (nat, seq<byte>) -> Opened,
    alert: seq<byte>)

  datatype Frame = Short | Refused | Whole(size: nat)

  /** The first record of `b`, if its header is acceptable and all its bytes are there. */
  function Next(s: Suite, b: seq<byte>): (f: Frame)
    ensures f.Whole? ==> HEADER <= f.size <= |b|
    ensures f.Short? ==> |b| < HEADER + s.room
  {
    if |b| < HEADER then
      Short
    else
      var body := b[3] as int * 256 + b[4] as int;
      if body > s.room || !s.admits(b[..HEADER]) then Refused
      else if |b| < HEADER + body then Short
      else Whole(HEADER + body)
  }

  /** Opening with the size rules of section 5.2: the inner plaintext carries at least a
      content type byte, and at most 2^14 bytes of content. */
  function Open(s: Suite, n: nat, record: seq<byte>): (o: Opened)
    ensures o.Data? ==> |o.plain| + HEADER + 1 <= |record| && |o.plain| <= MAX_PLAINTEXT
  {
    var o := s.open(n, record);
    if o.Data? && (|o.plain| + HEADER + 1 > |record| || |o.plain| > MAX_PLAINTEXT) then Bad(s.alert) else o
  }

  datatype End = Running | Clean | Broken

  function EndOf(e: Opened): End {
    if e.CloseNotify? then Clean else if e.Bad? then Broken else Running
  }

  // The records completed by some bytes, what is left of them, and how they ended.
  datatype Parsed = Parsed(events: seq<Opened>, rest: seq<byte>, end: End)

  /** All complete records of `b`, the first being number `n`, up to and including the
      first close_notify or bad record; bytes after that are ignored. */
  function Deframe(s: Suite, n: nat, b: seq<byte>): (p: Parsed)
    decreases |b|
  {
    match Next(s, b)
    case Short => Parsed([], b, Running)
    case Refused => Parsed([Bad(s.alert)], [], Broken)
    case Whole(size) =>
      var e := Open(s, n, b[..size]);
      if EndOf(e) != Running then
        Parsed([e], [], EndOf(e))
      else
        var tail := Deframe(s, n + 1, b[size..]);
        Parsed([e] + tail.events, tail.rest, tail.end)
  }

  /** `parse` is Deframe for this suite. */
  ghost predicate IsParser(parse: (nat, seq<byte>) -> Parsed, s: Suite) {
    forall n: nat, b: seq<byte> {:trigger Deframe(s, n, b)} :: parse(n, b) == Deframe(s, n, b)
  }

  lemma SomeParser(s: Suite) returns (parse: (nat, seq<byte>) -> Parsed)
    ensures IsParser(parse, s)
  {
    parse := (n: nat, b: seq<byte>) => Deframe(s, n, b);
  }

  /** The application data of the events, one chunk per record that has any. */
  function Plains(events: seq<Opened>): (r: seq<seq<byte>>) {
    if events == [] then []
    else if events[0].Data? && events[0].plain != [] then [events[0].plain] + Plains(events[1..])
    else Plains(events[1..])
  }

  lemma {:induction false} PlainsConcat(a: seq<Opened>, b: seq<Opened>)
    ensures Plains(a + b) == Plains(a) + Plains(b)
  {
    if a == [] {
      assert a + b == b;
    } else {
      assert (a + b)[0] == a[0] && (a + b)[1..] == a[1..] + b;
      PlainsConcat(a[1..], b);
    }
  }

  lemma NextStable(s: Suite, a: seq<byte>, b: seq<byte>)
    requires !Next(s, a).Short?
    ensures Next(s, a + b) == Next(s, a)
  {
    assert (a + b)[..HEADER] == a[..HEADER];
  }

  /** `p`, then whatever more bytes bring. */
  function Resume(s: Suite, n: nat, p: Parsed, more: seq<byte>): (r: Parsed) {
    if p.end != Running then p
    else
      var q := Deframe(s, n + |p.events|, p.rest + more);
      Parsed(p.events + q.events, q.rest, q.end)
  }

  lemma ResumeAfter(s: Suite, n: nat, e: Opened, t: Parsed, more: seq<byte>)
    ensures var r := Resume(s, n + 1, t, more);
            Resume(s, n, Parsed([e] + t.events, t.rest, t.end), more) == Parsed([e] + r.events, r.rest, r.end)
  {
    assert n + |[e] + t.events| == n + 1 + |t.events|;
    if t.end == Running {
      var q := Deframe(s, n + 1 + |t.events|, t.rest + more);
      assert [e] + (t.events + q.events) == ([e] + t.events) + q.events;
    }
  }

  /** Fragmentation independence of framing: parsing can stop anywhere and resume. */
  lemma {:induction false} DeframeAppend(s: Suite, n: nat, a: seq<byte>, b: seq<byte>)
    ensures Deframe(s, n, a + b) == Resume(s, n, Deframe(s, n, a), b)
    decreases |a|
  {
    match Next(s, a)
    case Short =>
      var q := Deframe(s, n, a + b);
      assert [] + q.events == q.events;
    case Refused =>
      NextStable(s, a, b);
    case Whole(size) =>
      NextStable(s, a, b);
      assert (a + b)[..size] == a[..size];
      assert (a + b)[size..] == a[size..] + b;
      var e := Open(s, n, a[..size]);
      if EndOf(e) == Running {
        DeframeAppend(s, n + 1, a[size..], b);
        ResumeAfter(s, n, e, Deframe(s, n + 1, a[size..]), b);
      }
  }

  // One connection's incoming half between calls.
  datatype Line = Line(seqno: nat, carry: seq<byte>, end: End)

  /** One receive call: the line after it and the plaintext it yields. */
  function Receive(s: Suite, l: Line, bytes: seq<byte>): (Line, seq<byte>) {
    if l.end != Running then (l, [])
    else
      var p := Deframe(s, l.seqno, l.carry + bytes);
      (Line(l.seqno + |p.events|, p.rest, p.end), Flatten(Plains(p.events)))
  }

  /** What is left of a running stream is less than one record. */
  lemma {:induction false} RestIsShort(s: Suite, n: nat, b: seq<byte>)
    ensures Deframe(s, n, b).end == Running ==> Next(s, Deframe(s, n, b).rest).Short?
    decreases |b|
  {
    match Next(s, b)
    case Short =>
    case Refused =>
    case Whole(size) =>
      RestIsShort(s, n + 1, b[size..]);
  }

  /** A stream ends with the record that ended it. */
  lemma {:induction false} EndIsLast(s: Suite, n: nat, b: seq<byte>)
    ensures var p := Deframe(s, n, b);
            p.end == if p.events == [] then Running else EndOf(p.events[|p.events| - 1])
    decreases |b|
  {
    match Next(s, b)
    case Short =>
    case Refused =>
    case Whole(size) =>
      EndIsLast(s, n + 1, b[size..]);
  }

  /** Every chunk is one record's plaintext: never empty, never over 2^14 bytes. */
  lemma {:induction false} PlainsBounded(s: Suite, n: nat, b: seq<byte>)
    ensures var cs := Plains(Deframe(s, n, b).events);
            NoneEmpty(cs) && (forall i :: 0 <= i < |cs| ==> |cs[i]| <= MAX_PLAINTEXT)
    decreases |b|
  {
    match Next(s, b)
    case Short =>
    case Refused =>
    case Whole(size) =>
      var e := Open(s, n, b[..size]);
      if EndOf(e) == Running {
        PlainsBounded(s, n + 1, b[size..]);
        var t := Deframe(s, n + 1, b[size..]);
        assert ([e] + t.events)[1..] == t.events;
      }
  }

  /** Records are longer than their plaintext. */
  lemma {:induction false} PlainsFit(s: Suite, n: nat, b: seq<byte>)
    ensures |Flatten(Plains(Deframe(s, n, b).events))| <= |b|
    decreases |b|
  {
    match Next(s, b)
    case Short =>
    case Refused =>
    case Whole(size) =>
      var e := Open(s, n, b[..size]);
      if EndOf(e) == Running {
        PlainsFit(s, n + 1, b[size..]);
        var t := Deframe(s, n + 1, b[size..]);
        assert ([e] + t.events)[1..] == t.events;
        if e.Data? && e.plain != [] {
          assert ([e.plain] + Plains(t.events))[1..] == Plains(t.events);
        }
      }
  }

  /** Plaintext that input already held back can add: the content of the record that
      began in `carry`, and nothing when no record was left open. */
  function Lead(s: Suite, n: nat, carry: seq<byte>, input: seq<byte>): (r: nat)
    ensures r <= MAX_PLAINTEXT
  {
    if carry == [] then 0
    else match Next(s, carry + input)
      case Short => 0
      case Refused => 0
      case Whole(size) => var e := Open(s, n, (carry + input)[..size]); if e.Data? then |e.plain| else 0
  }

  /** The arithmetic behind the single spill: at every prefix of one call's input the
      plaintext completed so far exceeds that prefix by at most the one record that was
      left open, and that record's plaintext comes first. */
  lemma {:induction false} LeadBound(s: Suite, n: nat, carry: seq<byte>, input: seq<byte>, used: nat)
    requires Next(s, carry).Short? && used <= |input|
    ensures var cs := Plains(Deframe(s, n, carry + input[..used]).events);
            var lead := Lead(s, n, carry, input);
            && |Flatten(cs)| <= used + lead
            && (cs != [] ==> |cs[0]| >= lead)
  {
    var b := carry + input[..used];
    PlainsFit(s, n, b);
    if carry != [] && Next(s, b).Whole? {
      var size := Next(s, b).size;
      assert |carry| >= HEADER ==> b[..HEADER] == carry[..HEADER];
      assert size > |carry|;
      assert b + input[used..] == carry + input;
      NextStable(s, b, input[used..]);
      assert (carry + input)[..size] == b[..size];
      var e := Open(s, n, b[..size]);
      if EndOf(e) == Running {
        var t := Deframe(s, n + 1, b[size..]);
        PlainsFit(s, n + 1, b[size..]);
        assert ([e] + t.events)[1..] == t.events;
        if e.Data? && e.plain != [] {
          assert ([e.plain] + Plains(t.events))[1..] == Plains(t.events);
        }
      }
    } else if carry == [] {
      assert b == input[..used];
    }
  }
}
