// src/tls/receive/waiters.rs: the two lanes in which blocked connections wait.
// What becomes of a credit is the driver's business; `claimed` and `settled` record what
// the queue tells it.

module Waiters {
  import opened Basics

  // A connection's slot in the driver's table; the epoch tells its occupants apart.
  datatype Id = Id(index: nat, epoch: nat)

  datatype Resource = Recv | HandshakeEgress

  // A claimed credit, numbered in the order of claiming.
  datatype Credit = Credit(id: Id, ticket: nat)

  datatype Fate = Taken | Retried | Cancelled

  datatype Settlement = Settlement(lane: Resource, credit: Credit, fate: Fate)

  // recvWakes, egressWakes: how often each lane was told of a slot, whoever was there.
  datatype Waiting = Waiting(
    cap: nat,
    recv: seq<Credit>,
    egress: seq<Credit>,
    claimed: seq<Credit>,
    settled: seq<Settlement>,
    recvWakes: nat,
    egressWakes: nat)

  function Lane(q: Waiting, kind: Resource): seq<Credit> {
    if kind.Recv? then q.recv else q.egress
  }

  function WithLane(q: Waiting, kind: Resource, lane: seq<Credit>): Waiting {
    if kind.Recv? then q.(recv := lane) else q.(egress := lane)
  }

  function All(q: Waiting): seq<Credit> {
    q.recv + q.egress
  }

  function Position(lane: seq<Credit>, index: nat): (at: Option<nat>)
    ensures at.Some? ==> at.value < |lane| && lane[at.value].id.index == index
    ensures at.None? <==> forall i :: 0 <= i < |lane| ==> lane[i].id.index != index
  {
    if lane == [] then None
    else if lane[0].id.index == index then Some(0)
    else match Position(lane[1..], index)
      case None =>
        assert forall i :: 0 < i < |lane| ==> lane[i] == lane[1..][i - 1];
        None
      case Some(i) => Some(i + 1)
  }

  /** The lane and place of the entry for `index`. */
  function Find(q: Waiting, index: nat): Option<(Resource, nat)> {
    match Position(q.recv, index)
    case Some(i) => Some((Recv, i))
    case None =>
      match Position(q.egress, index)
      case Some(i) => Some((HandshakeEgress, i))
      case None => None
  }

  /** Takes entry `i` out of its lane. */
  function Settle(q: Waiting, kind: Resource, i: nat, fate: Fate): Waiting
    requires i < |Lane(q, kind)|
  {
    var lane := Lane(q, kind);
    WithLane(q, kind, lane[..i] + lane[i + 1..]).(settled := q.settled + [Settlement(kind, lane[i], fate)])
  }

  predicate CanEnter(q: Waiting, index: nat) {
    index < q.cap && Find(q, index).None?
  }

  function Enter(q: Waiting, kind: Resource, credit: Credit): Waiting {
    WithLane(q, kind, Lane(q, kind) + [credit]).(claimed := q.claimed + [credit])
  }

  function Pop(q: Waiting, kind: Resource, fate: Fate): Waiting {
    if Lane(q, kind) == [] then q else Settle(q, kind, 0, fate)
  }

  /** Tells a lane of a slot that came back. */
  function Wake(q: Waiting, kind: Resource): Waiting {
    var r := Pop(q, kind, Retried);
    if kind.Recv? then r.(recvWakes := q.recvWakes + 1) else r.(egressWakes := q.egressWakes + 1)
  }

  /** A target of another epoch than the waiting one is not waiting. */
  function Cancel(q: Waiting, target: Id): Waiting {
    match Find(q, target.index)
    case None => q
    case Some((kind, i)) =>
      if Lane(q, kind)[i].id == target then Settle(q, kind, i, Cancelled) else q
  }

  function Fresh(cap: nat): Waiting {
    Waiting(cap, [], [], [], [], 0, 0)
  }

  /** From `q` to `r` whoever has waited longest in a lane, if anyone, has met `fate`, and
      nothing happened to anybody else. */
  predicate LetsGo(q: Waiting, kind: Resource, fate: Fate, r: Waiting) {
    match kind
    case Recv =>
      && r.egress == q.egress
      && (if q.recv == [] then r.recv == [] && r.settled == q.settled
          else r.recv == q.recv[1..] && r.settled == q.settled + [Settlement(Recv, q.recv[0], fate)])
    case HandshakeEgress =>
      && r.recv == q.recv
      && (if q.egress == [] then r.egress == [] && r.settled == q.settled
          else r.egress == q.egress[1..] && r.settled == q.settled + [Settlement(HandshakeEgress, q.egress[0], fate)])
  }

  lemma PopLetsGo(q: Waiting, kind: Resource, fate: Fate)
    ensures LetsGo(q, kind, fate, Pop(q, kind, fate))
  {
    var lane := Lane(q, kind);
    if lane != [] { assert lane[..0] + lane[1..] == lane[1..]; }
  }

  /** A wake is for the one who has waited longest, who is to try again. */
  lemma WakeRetries(q: Waiting, kind: Resource)
    ensures LetsGo(q, kind, Retried, Wake(q, kind))
  {
    PopLetsGo(q, kind, Retried);
  }

  lemma CanEnterExactly(q: Waiting, index: nat)
    ensures CanEnter(q, index) <==> index < q.cap && forall c :: c in q.recv + q.egress ==> c.id.index != index
  {
    FindIsExact(q, index);
    assert All(q) == q.recv + q.egress;
    if forall c :: c in q.recv + q.egress ==> c.id.index != index {
      forall i | 0 <= i < |All(q)|
        ensures All(q)[i].id.index != index
      {
        assert All(q)[i] in q.recv + q.egress;
      }
    }
  }

  // ----- the queue itself -----

  class Queue {
    const cap: nat
    var recv: seq<Credit>
    var egress: seq<Credit>
    ghost var claimed: seq<Credit>
    ghost var settled: seq<Settlement>
    ghost var recvWakes: nat
    ghost var egressWakes: nat

    ghost function View(): Waiting
      reads this
    {
      Waiting(cap, recv, egress, claimed, settled, recvWakes, egressWakes)
    }

    constructor (cap: nat)
      ensures View() == Fresh(cap)
    {
      this.cap, recv, egress, claimed, settled := cap, [], [], [], [];
      recvWakes, egressWakes := 0, 0;
    }

    /** The entry is looked up before the credit is claimed, so a refused registration
        claims nothing. */
    method Register(kind: Resource, credit: Credit) returns (r: Option<Registration>)
      modifies this
      ensures r.Some? <==>
        credit.id.index < cap && forall c :: c in old(recv + egress) ==> c.id.index != credit.id.index
      ensures r.None? ==> View() == old(View())
      ensures r.Some? && kind.Recv? ==> recv == old(recv) + [credit] && egress == old(egress)
      ensures r.Some? && kind.HandshakeEgress? ==> egress == old(egress) + [credit] && recv == old(recv)
      ensures r.Some? ==> fresh(r.value) && r.value.Valid() && r.value.armed
      ensures r.Some? ==> r.value.queue == this && r.value.kind == kind && r.value.credit == credit
      ensures r.Some? ==> View() == Enter(old(View()), kind, credit)
    {
      var index := credit.id.index;
      CanEnterExactly(View(), index);
      if index >= cap || Position(recv, index).Some? || Position(egress, index).Some? {
        return None;
      }
      claimed := claimed + [credit];
      match kind {
        case Recv => recv := recv + [credit];
        case HandshakeEgress => egress := egress + [credit];
      }
      var registration := new Registration(this, kind, credit);
      return Some(registration);
    }

    method Take(kind: Resource, ghost fate: Fate := Taken) returns (credit: Option<Credit>)
      modifies this
      ensures View() == Pop(old(View()), kind, fate)
      ensures credit == if Lane(old(View()), kind) == [] then None else Some(Lane(old(View()), kind)[0])
    {
      credit := None;
      match kind {
        case Recv =>
          if recv != [] {
            credit, recv := Some(recv[0]), recv[1..];
          }
        case HandshakeEgress =>
          if egress != [] {
            credit, egress := Some(egress[0]), egress[1..];
          }
      }
      if credit.Some? {
        settled := settled + [Settlement(kind, credit.value, fate)];
      }
    }

    /** Whoever is in front is retried, and nobody else is touched. */
    method WakeOne(kind: Resource)
      modifies this
      ensures View() == Wake(old(View()), kind)
      ensures LetsGo(old(View()), kind, Retried, View())
    {
      WakeRetries(View(), kind);
      var credit := Take(kind, Retried);
      match kind {
        case Recv => recvWakes := recvWakes + 1;
        case HandshakeEgress => egressWakes := egressWakes + 1;
      }
    }

    function HasWaiters(kind: Resource): (b: bool)
      reads this
      ensures b == (Lane(View(), kind) != [])
    {
      match kind
      case Recv => recv != []
      case HandshakeEgress => egress != []
    }

    method CancelWaiter(target: Id)
      modifies this
      ensures View() == Cancel(old(View()), target)
    {
      var i := Position(recv, target.index);
      if i.Some? {
        if recv[i.value].id == target {
          settled := settled + [Settlement(Recv, recv[i.value], Cancelled)];
          recv := recv[..i.value] + recv[i.value + 1..];
        }
      } else {
        i := Position(egress, target.index);
        if i.Some? && egress[i.value].id == target {
          settled := settled + [Settlement(HandshakeEgress, egress[i.value], Cancelled)];
          egress := egress[..i.value] + egress[i.value + 1..];
        }
      }
    }
  }

  // A registration that has not been committed takes its entry out again when it goes. It
  // borrows the queue, so its entry is still the last of its lane.
  class Registration {
    const queue: Queue
    const kind: Resource
    const credit: Credit
    var armed: bool

    ghost predicate Valid()
      reads this, queue
    {
      var lane := Lane(queue.View(), kind);
      armed ==> lane != [] && lane[|lane| - 1] == credit
    }

    constructor (queue: Queue, kind: Resource, credit: Credit)
      ensures this.queue == queue && this.kind == kind && this.credit == credit && armed
    {
      this.queue, this.kind, this.credit, armed := queue, kind, credit, true;
    }

    method Commit()
      modifies this`armed
      ensures !armed && Valid()
    {
      armed := false;
    }

    method Drop()
      requires Valid()
      modifies this`armed, queue
      ensures !armed && Valid()
      ensures var q := old(queue.View());
              queue.View() == if old(armed) then Settle(q, kind, |Lane(q, kind)| - 1, Cancelled) else q
      ensures old(armed) ==>
        && Lane(old(queue.View()), kind) == Lane(queue.View(), kind) + [credit]
        && queue.View().settled == old(queue.View()).settled + [Settlement(kind, credit, Cancelled)]
    {
      if armed {
        armed := false;
        match kind {
          case Recv =>
            var i := |queue.recv| - 1;
            queue.settled := queue.settled + [Settlement(kind, queue.recv[i], Cancelled)];
            queue.recv := queue.recv[..i];
          case HandshakeEgress =>
            var i := |queue.egress| - 1;
            queue.settled := queue.settled + [Settlement(kind, queue.egress[i], Cancelled)];
            queue.egress := queue.egress[..i];
        }
      }
    }
  }

  // ----- what holds of it over every run -----

  predicate Before(s: seq<Credit>, i: nat, j: nat)
    requires i < |s| && j < |s|
  {
    s[i].ticket < s[j].ticket
  }

  predicate Apart(s: seq<Credit>, i: nat, j: nat)
    requires i < |s| && j < |s|
  {
    s[i].id.index != s[j].id.index
  }

  ghost predicate Increasing(s: seq<Credit>) {
    forall i, j {:trigger Before(s, i, j)} :: 0 <= i < j < |s| ==> Before(s, i, j)
  }

  /** Those a lane has let go without cancelling them, in the order it did. */
  function Served(settled: seq<Settlement>, kind: Resource): seq<Credit>
    decreases |settled|
  {
    if settled == [] then []
    else
      var last := settled[|settled| - 1];
      Served(settled[..|settled| - 1], kind) +
      if last.lane == kind && !last.fate.Cancelled? then [last.credit] else []
  }

  function Credits(settled: seq<Settlement>): (r: seq<Credit>)
    ensures |r| == |settled|
  {
    seq(|settled|, i requires 0 <= i < |settled| => settled[i].credit)
  }

  function Line(q: Waiting, kind: Resource): seq<Credit> {
    Served(q.settled, kind) + Lane(q, kind)
  }

  ghost predicate OncePerIndex(s: seq<Credit>) {
    forall i, j {:trigger Apart(s, i, j)} :: 0 <= i < j < |s| ==> Apart(s, i, j)
  }

  predicate Under(s: seq<Credit>, i: nat, limit: nat)
    requires i < |s|
  {
    s[i].ticket < limit
  }

  ghost predicate Numbered(s: seq<Credit>, limit: nat) {
    forall i {:trigger Under(s, i, limit)} :: 0 <= i < |s| ==> Under(s, i, limit)
  }

  predicate Ordinal(s: seq<Credit>, i: nat)
    requires i < |s|
  {
    s[i].ticket == i
  }

  ghost predicate InSequence(s: seq<Credit>) {
    forall i {:trigger Ordinal(s, i)} :: 0 <= i < |s| ==> Ordinal(s, i)
  }

  /** A connection waits at most once; each lane serves in the order of registration; and
      every credit claimed is either waiting or settled, once. */
  ghost predicate Orderly(q: Waiting) {
    && OncePerIndex(All(q))
    && Increasing(Line(q, Recv)) && Numbered(Line(q, Recv), |q.claimed|)
    && Increasing(Line(q, HandshakeEgress)) && Numbered(Line(q, HandshakeEgress), |q.claimed|)
    && InSequence(q.claimed)
    && Accounted(q)
  }

  ghost predicate Accounted(q: Waiting) {
    multiset(q.claimed) == multiset(All(q)) + multiset(Credits(q.settled))
  }

  datatype Action =
    | Entering(kind: Resource, id: Id, commits: bool)
    | Popping(kind: Resource)
    | Waking(kind: Resource)
    | Cancelling(target: Id)

  function Step(q: Waiting, a: Action): Waiting {
    match a
    case Entering(kind, id, commits) =>
      if !CanEnter(q, id.index) then q
      else
        var entered := Enter(q, kind, Credit(id, |q.claimed|));
        if commits then entered else Settle(entered, kind, |Lane(q, kind)|, Cancelled)
    case Popping(kind) => Pop(q, kind, Taken)
    case Waking(kind) => Wake(q, kind)
    case Cancelling(target) => Cancel(q, target)
  }

  function Run(q: Waiting, actions: seq<Action>): Waiting
    decreases |actions|
  {
    if actions == [] then q else Run(Step(q, actions[0]), actions[1..])
  }

  lemma FindIsExact(q: Waiting, index: nat)
    ensures Find(q, index).None? <==> forall i :: 0 <= i < |All(q)| ==> All(q)[i].id.index != index
  {
    assert forall i :: 0 <= i < |q.recv| ==> All(q)[i] == q.recv[i];
    assert forall i :: 0 <= i < |q.egress| ==> All(q)[|q.recv| + i] == q.egress[i];
  }

  lemma InsertedOnce(a: seq<Credit>, credit: Credit, b: seq<Credit>)
    requires OncePerIndex(a + b)
    requires forall i :: 0 <= i < |a + b| ==> (a + b)[i].id.index != credit.id.index
    ensures OncePerIndex(a + [credit] + b)
    ensures multiset(a + [credit] + b) == multiset(a + b) + multiset{credit}
  {
    var n := |a|;
    var s := a + [credit] + b;
    forall i, j | 0 <= i < j < |s|
      ensures Apart(s, i, j)
    {
      var i', j' := if i <= n then i else i - 1, if j <= n then j else j - 1;
      if i != n && j != n {
        assert Apart(a + b, i', j');
        assert s[i] == (a + b)[i'] && s[j] == (a + b)[j'];
      } else if i == n {
        assert s[j] == (a + b)[j'];
      } else {
        assert s[i] == (a + b)[i'];
      }
    }
    assert s == a + ([credit] + b);
  }

  lemma Removed(s: seq<Credit>, k: nat)
    requires k < |s|
    ensures var r := s[..k] + s[k + 1..];
            && (OncePerIndex(s) ==> OncePerIndex(r))
            && (Increasing(s) ==> Increasing(r))
            && multiset(s) == multiset(r) + multiset{s[k]}
  {
    var r := s[..k] + s[k + 1..];
    assert forall i :: 0 <= i < |r| ==> r[i] == s[if i < k then i else i + 1];
    forall i, j | 0 <= i < j < |r|
      ensures Before(s, if i < k then i else i + 1, if j < k then j else j + 1) ==> Before(r, i, j)
      ensures Apart(s, if i < k then i else i + 1, if j < k then j else j + 1) ==> Apart(r, i, j)
    {
    }
    assert s == s[..k] + ([s[k]] + s[k + 1..]);
  }

  lemma RemovedNumbered(s: seq<Credit>, k: nat, n: nat)
    requires k < |s| && Numbered(s, n)
    ensures Numbered(s[..k] + s[k + 1..], n)
  {
    var r := s[..k] + s[k + 1..];
    forall i | 0 <= i < |r|
      ensures Under(r, i, n)
    {
      assert Under(s, if i < k then i else i + 1, n);
    }
  }

  lemma RemovedBehind(a: seq<Credit>, b: seq<Credit>, i: nat)
    requires i < |b|
    ensures (a + b)[..|a| + i] + (a + b)[|a| + i + 1..] == a + (b[..i] + b[i + 1..])
  {
  }

  lemma Appended(s: seq<Credit>, credit: Credit, limit: nat)
    requires Increasing(s) && Numbered(s, credit.ticket) && credit.ticket < limit
    ensures Increasing(s + [credit]) && Numbered(s + [credit], limit)
  {
    var r := s + [credit];
    forall i, j | 0 <= i < j < |r|
      ensures Before(r, i, j)
    {
      assert Under(s, i, credit.ticket);
      if j < |s| { assert Before(s, i, j); }
    }
    forall i | 0 <= i < |r|
      ensures Under(r, i, limit)
    {
      if i < |s| { assert Under(s, i, credit.ticket); }
    }
  }

  lemma NumberedMore(s: seq<Credit>, n: nat, limit: nat)
    requires Numbered(s, n) && n <= limit
    ensures Numbered(s, limit)
  {
    forall i | 0 <= i < |s|
      ensures Under(s, i, limit)
    {
      assert Under(s, i, n);
    }
  }

  lemma EnteredOnce(q: Waiting, kind: Resource, credit: Credit)
    requires OncePerIndex(All(q)) && CanEnter(q, credit.id.index)
    ensures OncePerIndex(All(Enter(q, kind, credit)))
    ensures multiset(All(Enter(q, kind, credit))) == multiset(All(q)) + multiset{credit}
  {
    FindIsExact(q, credit.id.index);
    if kind.Recv? {
      InsertedOnce(q.recv, credit, q.egress);
    } else {
      NothingMore(All(q));
      InsertedOnce(All(q), credit, []);
      NothingMore(All(q) + [credit]);
      Regroup(q.recv, q.egress, [credit]);
    }
  }

  lemma EnteredLine(q: Waiting, kind: Resource, credit: Credit, other: Resource)
    requires Increasing(Line(q, other)) && Numbered(Line(q, other), credit.ticket)
    ensures Increasing(Line(Enter(q, kind, credit), other))
    ensures Numbered(Line(Enter(q, kind, credit), other), credit.ticket + 1)
  {
    if kind == other {
      Appended(Line(q, kind), credit, credit.ticket + 1);
      Regroup(Served(q.settled, kind), Lane(q, kind), [credit]);
    } else {
      NumberedMore(Line(q, other), credit.ticket, credit.ticket + 1);
    }
  }

  lemma EnteredClaims(q: Waiting, r: Waiting, credit: Credit)
    requires InSequence(q.claimed) && Accounted(q) && credit.ticket == |q.claimed|
    requires r.claimed == q.claimed + [credit] && r.settled == q.settled
    requires multiset(All(r)) == multiset(All(q)) + multiset{credit}
    ensures InSequence(r.claimed) && Accounted(r)
  {
    forall i | 0 <= i < |r.claimed|
      ensures Ordinal(r.claimed, i)
    {
      if i < |q.claimed| { assert Ordinal(q.claimed, i); }
    }
  }

  lemma EnterKeepsOrder(q: Waiting, kind: Resource, id: Id)
    requires Orderly(q) && CanEnter(q, id.index)
    ensures Orderly(Enter(q, kind, Credit(id, |q.claimed|)))
  {
    var credit := Credit(id, |q.claimed|);
    EnteredOnce(q, kind, credit);
    EnteredClaims(q, Enter(q, kind, credit), credit);
    EnteredLine(q, kind, credit, Recv);
    EnteredLine(q, kind, credit, HandshakeEgress);
  }

  lemma CreditsAppend(settled: seq<Settlement>, s: Settlement, kind: Resource)
    ensures Credits(settled + [s]) == Credits(settled) + [s.credit]
    ensures Served(settled + [s], kind) ==
            Served(settled, kind) + if s.lane == kind && !s.fate.Cancelled? then [s.credit] else []
  {
    assert (settled + [s])[..|settled|] == settled;
  }

  /** Where entry `i` of a lane stands among all that wait, and what is left without it. */
  lemma SettledFrom(q: Waiting, kind: Resource, i: nat, fate: Fate)
    requires i < |Lane(q, kind)|
    ensures var k := if kind.Recv? then i else |q.recv| + i;
            && k < |All(q)| && All(q)[k] == Lane(q, kind)[i]
            && All(Settle(q, kind, i, fate)) == All(q)[..k] + All(q)[k + 1..]
  {
  }

  lemma FrontServed(served: seq<Credit>, lane: seq<Credit>)
    requires lane != []
    ensures (served + [lane[0]]) + (lane[..0] + lane[1..]) == served + lane
  {
    assert lane == [lane[0]] + lane[1..];
  }

  /** A lane's line is what it has served and what it holds: serving the front moves the
      boundary, and a cancelled entry leaves. */
  lemma LineWithout(q: Waiting, kind: Resource, i: nat, fate: Fate, other: Resource)
    requires i < |Lane(q, kind)| && (i == 0 || fate.Cancelled?)
    ensures var r := Settle(q, kind, i, fate);
            if other == kind && fate.Cancelled? then
              var n := |Served(q.settled, kind)| + i;
              n < |Line(q, kind)| && Line(r, kind) == Line(q, kind)[..n] + Line(q, kind)[n + 1..]
            else
              Line(r, other) == Line(q, other)
  {
    var lane := Lane(q, kind);
    var served := Served(q.settled, other);
    CreditsAppend(q.settled, Settlement(kind, lane[i], fate), other);
    NothingMore(served);
    if other == kind {
      if fate.Cancelled? { RemovedBehind(served, lane, i); } else { FrontServed(served, lane); }
    }
  }

  lemma CutLine(s: seq<Credit>, r: seq<Credit>, k: nat, n: nat)
    requires Increasing(s) && Numbered(s, n) && k < |s| && r == s[..k] + s[k + 1..]
    ensures Increasing(r) && Numbered(r, n)
  {
    Removed(s, k);
    RemovedNumbered(s, k, n);
  }

  lemma SettledLine(q: Waiting, kind: Resource, i: nat, fate: Fate, other: Resource, n: nat)
    requires i < |Lane(q, kind)| && (i == 0 || fate.Cancelled?)
    requires Increasing(Line(q, other)) && Numbered(Line(q, other), n)
    ensures Increasing(Line(Settle(q, kind, i, fate), other))
    ensures Numbered(Line(Settle(q, kind, i, fate), other), n)
  {
    var before, after := Line(q, other), Line(Settle(q, kind, i, fate), other);
    LineWithout(q, kind, i, fate, other);
    if other == kind && fate.Cancelled? {
      CutLine(before, after, |Served(q.settled, kind)| + i, n);
    } else {
      assert after == before;
    }
  }

  lemma SettledAll(q: Waiting, kind: Resource, i: nat, fate: Fate)
    requires OncePerIndex(All(q)) && Accounted(q) && i < |Lane(q, kind)|
    ensures OncePerIndex(All(Settle(q, kind, i, fate))) && Accounted(Settle(q, kind, i, fate))
  {
    var r := Settle(q, kind, i, fate);
    SettledFrom(q, kind, i, fate);
    CreditsAppend(q.settled, Settlement(kind, Lane(q, kind)[i], fate), kind);
    InheritAll(All(q), All(r), if kind.Recv? then i else |q.recv| + i, Credits(q.settled), Credits(r.settled));
  }

  lemma InheritAll(s: seq<Credit>, r: seq<Credit>, k: nat, before: seq<Credit>, after: seq<Credit>)
    requires k < |s| && r == s[..k] + s[k + 1..] && after == before + [s[k]]
    ensures OncePerIndex(s) ==> OncePerIndex(r)
    ensures multiset(s) + multiset(before) == multiset(r) + multiset(after)
  {
    Removed(s, k);
  }

  /** Taking any entry out keeps the order, so long as only the front is served. */
  lemma SettleKeepsOrder(q: Waiting, kind: Resource, i: nat, fate: Fate)
    requires Orderly(q) && i < |Lane(q, kind)| && (i == 0 || fate.Cancelled?)
    ensures Orderly(Settle(q, kind, i, fate))
  {
    SettledAll(q, kind, i, fate);
    SettledLine(q, kind, i, fate, Recv, |q.claimed|);
    SettledLine(q, kind, i, fate, HandshakeEgress, |q.claimed|);
  }

  lemma CancelKeepsOrder(q: Waiting, target: Id)
    requires Orderly(q)
    ensures Orderly(Cancel(q, target))
  {
    match Find(q, target.index) {
      case None =>
      case Some((kind, i)) => if Lane(q, kind)[i].id == target { SettleKeepsOrder(q, kind, i, Cancelled); }
    }
  }

  lemma PopKeepsOrder(q: Waiting, kind: Resource, fate: Fate)
    requires Orderly(q)
    ensures Orderly(Pop(q, kind, fate))
  {
    if Lane(q, kind) != [] { SettleKeepsOrder(q, kind, 0, fate); }
  }

  lemma WakeKeepsOrder(q: Waiting, kind: Resource)
    requires Orderly(q)
    ensures Orderly(Wake(q, kind))
  {
    PopKeepsOrder(q, kind, Retried);
    SameOrder(Pop(q, kind, Retried), Wake(q, kind));
  }

  lemma SameOrder(q: Waiting, r: Waiting)
    requires Orderly(q) && r == q.(recvWakes := r.recvWakes, egressWakes := r.egressWakes)
    ensures Orderly(r)
  {
    assert All(r) == All(q) && Line(r, Recv) == Line(q, Recv) && Line(r, HandshakeEgress) == Line(q, HandshakeEgress);
  }

  lemma StepKeepsOrder(q: Waiting, a: Action)
    requires Orderly(q)
    ensures Orderly(Step(q, a))
  {
    match a {
      case Entering(kind, id, commits) =>
        if CanEnter(q, id.index) {
          EnterKeepsOrder(q, kind, id);
          if !commits { SettleKeepsOrder(Enter(q, kind, Credit(id, |q.claimed|)), kind, |Lane(q, kind)|, Cancelled); }
        }
      case Popping(kind) => PopKeepsOrder(q, kind, Taken);
      case Waking(kind) => WakeKeepsOrder(q, kind);
      case Cancelling(target) => CancelKeepsOrder(q, target);
    }
  }

  lemma {:induction false} EveryRunIsOrderly(q: Waiting, actions: seq<Action>)
    requires Orderly(q)
    ensures Orderly(Run(q, actions))
    decreases |actions|
  {
    if actions != [] {
      StepKeepsOrder(q, actions[0]);
      EveryRunIsOrderly(Step(q, actions[0]), actions[1..]);
    }
  }

  lemma {:induction false} OnceEach(s: seq<Credit>, t: nat)
    requires t < |s| && InSequence(s)
    ensures multiset(s)[s[t]] == 1
    decreases |s|
  {
    var n := |s| - 1;
    assert s == s[..n] + [s[n]];
    assert Ordinal(s, t) && Ordinal(s, n);
    forall i | 0 <= i < n
      ensures Ordinal(s[..n], i) && s[i] != s[n]
    {
      assert Ordinal(s, i);
    }
    if t < n {
      OnceEach(s[..n], t);
    } else {
      assert s[t] !in s[..n];
    }
  }

  /** Whatever is registered, served and cancelled, from an empty queue: every claimed
      credit is either still waiting, once, or was settled, once. */
  lemma SettledOnce(cap: nat, actions: seq<Action>, t: nat)
    requires t < |Run(Fresh(cap), actions).claimed|
    ensures var q := Run(Fresh(cap), actions);
            multiset(All(q))[q.claimed[t]] + multiset(Credits(q.settled))[q.claimed[t]] == 1
  {
    var empty := Fresh(cap);
    assert Credits([]) == [] && All(empty) == [];
    EveryRunIsOrderly(empty, actions);
    OnceEach(Run(empty, actions).claimed, t);
  }

  /** A registration dropped before it is committed leaves both lanes as they were. */
  lemma DroppedRegistration(q: Waiting, kind: Resource, id: Id)
    requires CanEnter(q, id.index)
    ensures var r := Step(q, Entering(kind, id, false));
            && r.recv == q.recv && r.egress == q.egress
            && r.settled == q.settled + [Settlement(kind, Credit(id, |q.claimed|), Cancelled)]
  {
    var lane := Lane(q, kind);
    var credit := Credit(id, |q.claimed|);
    assert (lane + [credit])[..|lane|] + (lane + [credit])[|lane| + 1..] == lane;
  }

  function Ids(s: seq<Credit>): set<Id> {
    set i | 0 <= i < |s| :: s[i].id
  }

  lemma IdsWithout(s: seq<Credit>, k: nat)
    requires OncePerIndex(s) && k < |s|
    ensures Ids(s[..k] + s[k + 1..]) == Ids(s) - {s[k].id}
  {
    var r := s[..k] + s[k + 1..];
    forall i | 0 <= i < |s| && i != k
      ensures s[i].id != s[k].id
    {
      assert if i < k then Apart(s, i, k) else Apart(s, k, i);
    }
    forall id | id in Ids(s) && id != s[k].id
      ensures id in Ids(r)
    {
      var j :| 0 <= j < |s| && s[j].id == id;
      assert r[if j < k then j else j - 1].id == id;
    }
    assert forall i :: 0 <= i < |r| ==> r[i] == s[if i < k then i else i + 1];
  }

  /** `r` is `q` with one more settlement: someone named `id` met `fate`. */
  predicate OneMore(q: Waiting, r: Waiting, id: Id, fate: Fate) {
    && |r.settled| == |q.settled| + 1 && r.settled[..|q.settled|] == q.settled
    && r.settled[|q.settled|].credit.id == id && r.settled[|q.settled|].fate == fate
  }

  /** A cancel names one occupant of a slot: that waiter goes and no other does, and is
      noted as cancelled; and if that occupant is not waiting, as when the epoch is stale,
      nothing changes. */
  lemma CancelIsExact(q: Waiting, target: Id)
    requires Orderly(q)
    ensures Ids(All(Cancel(q, target))) == Ids(All(q)) - {target}
    ensures if target in Ids(All(q)) then OneMore(q, Cancel(q, target), target, Cancelled) else Cancel(q, target) == q
  {
    FindIsExact(q, target.index);
    match Find(q, target.index) {
      case None =>
      case Some((kind, i)) =>
        var k := if kind.Recv? then i else |q.recv| + i;
        SettledFrom(q, kind, i, Cancelled);
        IdsWithout(All(q), k);
        forall j | 0 <= j < |All(q)| && j != k
          ensures All(q)[j].id.index != target.index
        {
          assert if j < k then Apart(All(q), j, k) else Apart(All(q), k, j);
        }
    }
  }
}
