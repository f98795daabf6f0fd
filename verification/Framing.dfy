// What receiving makes of records that someone framed: an encoder, and that receiving
// undoes it, whatever reads the records come in.

module Framing {
  import opened Basics
  import opened Staging
  import opened Records
  import opened Receiving

  // One record before framing: its content type and version, and its encrypted body.
  datatype Piece = Piece(head: seq<byte>, body: seq<byte>)

  type Record = r: Piece | |r.head| == 3 && |r.body| < 0x1_0000 witness Piece([23, 3, 3], [])

  /** The body's size, most significant byte first. */
  function SizeBytes(n: nat): (r: seq<byte>)
    requires n < 0x1_0000
  {
    [(n / 256) as byte, (n % 256) as byte]
  }

  function Header(r: Record): seq<byte> {
    r.head + SizeBytes(|r.body|)
  }

  function Frame(r: Record): seq<byte> {
    Header(r) + r.body
  }

  function Encode(records: seq<Record>): seq<byte> {
    if records == [] then [] else Frame(records[0]) + Encode(records[1..])
  }

  predicate Admitted(s: Suite, r: Record) {
    |r.body| <= s.room && s.admits(Header(r))
  }

  /** The opened record says `text`: what it carries if it is application data of a size
      that section 5.2 of RFC 8446 allows, nothing if it is control, and anything else ends
      the stream. */
  predicate Says(e: Opened, size: nat, text: seq<byte>) {
    match e
    case Data(plain) => text == plain && |plain| <= MAX_PLAINTEXT && |plain| + 6 <= size
    case Control(_, _, _) => text == []
    case CloseNotify => false
    case Bad(_) => false
  }

  predicate Carries(s: Suite, n: nat, records: seq<Record>, texts: seq<seq<byte>>, i: nat)
    requires i < |records| == |texts|
  {
    Admitted(s, records[i]) && Says(s.open(n + i, Frame(records[i])), |Frame(records[i])|, texts[i])
  }

  ghost predicate CarryAll(s: Suite, n: nat, records: seq<Record>, texts: seq<seq<byte>>) {
    |records| == |texts| && forall i :: 0 <= i < |records| ==> Carries(s, n, records, texts, i)
  }

  lemma NextIsFrame(s: Suite, r: Record, more: seq<byte>)
    requires Admitted(s, r)
    ensures Next(s, Frame(r) + more) == Whole(|Frame(r)|)
    ensures (Frame(r) + more)[..|Frame(r)|] == Frame(r) && (Frame(r) + more)[|Frame(r)|..] == more
  {
    var b := Frame(r) + more;
    assert b[..HEADER] == Header(r);
    assert b[3] == SizeBytes(|r.body|)[0] && b[4] == SizeBytes(|r.body|)[1];
  }

  /** `p` is `count` records that say `text`, and then `t`. */
  ghost predicate Precedes(count: nat, text: seq<byte>, t: Parsed, p: Parsed) {
    && |p.events| == count + |t.events| && p.rest == t.rest && p.end == t.end
    && Flatten(Plains(p.events)) == text + Flatten(Plains(t.events))
  }

  lemma OneMore(e: Opened, t: Parsed, size: nat, text: seq<byte>)
    requires Says(e, size, text)
    ensures Precedes(1, text, t, Parsed([e] + t.events, t.rest, t.end))
  {
    assert ([e] + t.events)[1..] == t.events;
    if e.Data? && e.plain != [] { assert ([e.plain] + Plains(t.events))[1..] == Plains(t.events); }
  }

  lemma PrecedesTrans(a: nat, x: seq<byte>, b: nat, y: seq<byte>, t: Parsed, p: Parsed, q: Parsed)
    requires Precedes(a, x, t, p) && Precedes(b, y, p, q)
    ensures Precedes(b + a, y + x, t, q)
  {
    Regroup(y, x, Flatten(Plains(t.events)));
  }

  lemma DeframesOne(s: Suite, n: nat, r: Record, text: seq<byte>, more: seq<byte>)
    requires Admitted(s, r) && Says(s.open(n, Frame(r)), |Frame(r)|, text)
    ensures Precedes(1, text, Deframe(s, n + 1, more), Deframe(s, n, Frame(r) + more))
  {
    var e := s.open(n, Frame(r));
    var t := Deframe(s, n + 1, more);
    NextIsFrame(s, r, more);
    assert Deframe(s, n, Frame(r) + more) == Parsed([e] + t.events, t.rest, t.end);
    OneMore(e, t, |Frame(r)|, text);
  }

  lemma DeframesOneSealed(s: Suite, parse: (nat, seq<byte>) -> Parsed, n: nat,
                          r: Record, text: seq<byte>, more: seq<byte>)
    requires IsParser(parse, s) && Admitted(s, r) && Says(s.open(n, Frame(r)), |Frame(r)|, text)
    ensures Precedes(1, text, parse(n + 1, more), parse(n, Frame(r) + more))
  {
    DeframesOne(s, n, r, text, more);
    assert parse(n + 1, more) == Deframe(s, n + 1, more) && parse(n, Frame(r) + more) == Deframe(s, n, Frame(r) + more);
  }

  lemma CarryRest(s: Suite, n: nat, records: seq<Record>, texts: seq<seq<byte>>)
    requires CarryAll(s, n, records, texts) && records != []
    ensures CarryAll(s, n + 1, records[1..], texts[1..])
  {
    var m := n + 1;
    forall i | 0 <= i < |records[1..]|
      ensures Carries(s, m, records[1..], texts[1..], i)
    {
      assert Carries(s, n, records, texts, i + 1);
    }
  }

  lemma {:induction false} DeframesEncoded(s: Suite, parse: (nat, seq<byte>) -> Parsed, n: nat,
                                           records: seq<Record>, texts: seq<seq<byte>>, more: seq<byte>)
    requires IsParser(parse, s) && CarryAll(s, n, records, texts)
    ensures Precedes(|records|, Flatten(texts), parse(n + |records|, more), parse(n, Encode(records) + more))
    decreases |records|
  {
    if records == [] {
      assert Encode(records) + more == more;
      assert [] + Flatten(Plains(parse(n, more).events)) == Flatten(Plains(parse(n, more).events));
    } else {
      var later := Encode(records[1..]) + more;
      assert Carries(s, n, records, texts, 0);
      CarryRest(s, n, records, texts);
      DeframesEncoded(s, parse, n + 1, records[1..], texts[1..], more);
      DeframesOneSealed(s, parse, n, records[0], texts[0], later);
      Regroup(Frame(records[0]), Encode(records[1..]), more);
      PrecedesTrans(|records| - 1, Flatten(texts[1..]), 1, texts[0], parse(n + |records|, more), parse(n + 1, later),
                    parse(n, Encode(records) + more));
    }
  }

  lemma SaysOnly(count: nat, text: seq<byte>, t: Parsed, p: Parsed)
    requires Precedes(count, text, t, p) && Plains(t.events) == []
    ensures |p.events| == count + |t.events| && p.rest == t.rest && p.end == t.end && Flatten(Plains(p.events)) == text
  {
    NothingMore(text);
  }

  /** Receiving from a line that holds nothing back is parsing everything at once. */
  lemma ReceivesAtOnce(s: Suite, parse: (nat, seq<byte>) -> Parsed, n: nat, bytes: seq<byte>)
    requires IsParser(parse, s)
    ensures var p := parse(n, bytes);
            Receive(s, Line(n, [], Running), bytes) == (Line(n + |p.events|, p.rest, p.end), Flatten(Plains(p.events)))
  {
    assert [] + bytes == bytes;
    assert parse(n, bytes) == Deframe(s, n, bytes);
  }

  lemma HeardAtOnce(s: Suite, n: nat, calls: seq<seq<byte>>, bytes: seq<byte>) returns (heard: (Line, seq<byte>))
    requires bytes == Flatten(calls)
    ensures heard == ReceiveAll(s, Line(n, [], Running), calls) == Receive(s, Line(n, [], Running), bytes)
  {
    FragmentationIndependence(s, Line(n, [], Running), calls);
    heard := ReceiveAll(s, Line(n, [], Running), calls);
  }

  /** What the records in front and `t`, which says nothing, come to. */
  lemma ParsesThen(s: Suite, parse: (nat, seq<byte>) -> Parsed, n: nat, records: seq<Record>, texts: seq<seq<byte>>,
                   more: seq<byte>, t: Parsed)
      returns (p: Parsed)
    requires IsParser(parse, s) && CarryAll(s, n, records, texts)
    requires t == parse(n + |records|, more) && Plains(t.events) == []
    ensures p == parse(n, Encode(records) + more)
    ensures |p.events| == |records| + |t.events| && p.rest == t.rest && p.end == t.end
    ensures Flatten(Plains(p.events)) == Flatten(texts)
  {
    p := parse(n, Encode(records) + more);
    DeframesEncoded(s, parse, n, records, texts, more);
    SaysOnly(|records|, Flatten(texts), t, p);
  }

  lemma ReceivesThen(s: Suite, n: nat, records: seq<Record>, texts: seq<seq<byte>>, more: seq<byte>,
                     t: Parsed, calls: seq<seq<byte>>)
      returns (heard: (Line, seq<byte>))
    requires CarryAll(s, n, records, texts) && Flatten(calls) == Encode(records) + more
    requires t == Deframe(s, n + |records|, more) && Plains(t.events) == []
    ensures heard == ReceiveAll(s, Line(n, [], Running), calls)
    ensures heard == (Line(n + |records| + |t.events|, t.rest, t.end), Flatten(texts))
  {
    var parse := SomeParser(s);
    assert t == parse(n + |records|, more);
    var p := ParsesThen(s, parse, n, records, texts, more, t);
    heard := HeardAtOnce(s, n, calls, Encode(records) + more);
    ReceivesAtOnce(s, parse, n, Encode(records) + more);
  }

  lemma NothingComes(s: Suite, n: nat) returns (t: Parsed)
    ensures t == Deframe(s, n, []) == Parsed([], [], Running) && Plains(t.events) == []
  {
    t := Deframe(s, n, []);
  }

  /** Whatever reads some records come in, receiving yields exactly what they carry, in
      order, and leaves nothing over. */
  lemma ReceivesEncoded(s: Suite, n: nat, records: seq<Record>, texts: seq<seq<byte>>, calls: seq<seq<byte>>)
      returns (heard: (Line, seq<byte>))
    requires CarryAll(s, n, records, texts) && Flatten(calls) == Encode(records)
    ensures heard == ReceiveAll(s, Line(n, [], Running), calls)
    ensures heard == (Line(n + |records|, [], Running), Flatten(texts))
  {
    NothingMore(Encode(records));
    var t := NothingComes(s, n + |records|);
    heard := ReceivesThen(s, n, records, texts, [], t, calls);
  }

  /** A record that closes the stream. */
  predicate Closes(s: Suite, n: nat, r: Record) {
    Admitted(s, r) && s.open(n, Frame(r)) == CloseNotify
  }

  /** A record that breaks it: one with a header the engine does not take, one that does
      not open, or one whose content is not of a size that is allowed. */
  predicate Breaks(s: Suite, n: nat, r: Record) {
    !Admitted(s, r) ||
    match s.open(n, Frame(r))
    case Data(plain) => |plain| > MAX_PLAINTEXT || |plain| + 6 > |Frame(r)|
    case Control(_, _, _) => false
    case CloseNotify => false
    case Bad(_) => true
  }

  lemma EndsThere(s: Suite, n: nat, r: Record, more: seq<byte>)
    requires Closes(s, n, r) || Breaks(s, n, r)
    ensures var p := Deframe(s, n, Frame(r) + more);
            && |p.events| == 1 && p.rest == [] && Plains(p.events) == []
            && p.end == (if Closes(s, n, r) then Clean else Broken)
  {
    if Admitted(s, r) {
      NextIsFrame(s, r, more);
    } else {
      var b := Frame(r) + more;
      assert b[..HEADER] == Header(r);
      assert b[3] == SizeBytes(|r.body|)[0] && b[4] == SizeBytes(|r.body|)[1];
    }
  }

  /** And when a record follows that ends the stream, that is how it ends, and whatever
      comes behind it says nothing. */
  lemma ReceivesUntilTheEnd(s: Suite, n: nat, records: seq<Record>, texts: seq<seq<byte>>, last: Record,
                            more: seq<byte>, calls: seq<seq<byte>>)
      returns (heard: (Line, seq<byte>))
    requires CarryAll(s, n, records, texts) && (Closes(s, n + |records|, last) || Breaks(s, n + |records|, last))
    requires Flatten(calls) == Encode(records) + (Frame(last) + more)
    ensures heard == ReceiveAll(s, Line(n, [], Running), calls)
    ensures heard == (Line(n + |records| + 1, [], if Closes(s, n + |records|, last) then Clean else Broken),
                      Flatten(texts))
  {
    EndsThere(s, n + |records|, last, more);
    var t := Deframe(s, n + |records|, Frame(last) + more);
    heard := ReceivesThen(s, n, records, texts, Frame(last) + more, t, calls);
  }
}
