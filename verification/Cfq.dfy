/** The request lists of one CFQ queue (kernel/block/cfq-iosched.c): the sector tree, the fifo and
    the next-request cache.  A tree of requests is a sequence sorted by sector. */
module Cfq {
  import opened ListOps

  /** A pending request; `queue` is the CFQ queue it belongs to, `start` its start_time. */
  datatype Rq = Rq(id: nat, queue: nat, sector: nat, len: nat, sync: bool, meta: bool, start: int)

  /** last_position and the tunables that weigh backward seeks. */
  datatype Head = Head(last: nat, backMax: nat, penalty: nat)

  predicate Wraps(h: Head, s: nat) {
    s < h.last && s + h.backMax * 2 < h.last
  }

  function Distance(h: Head, s: nat): nat {
    if s >= h.last then s - h.last else (h.last - s) * h.penalty
  }

  /** cfq_choose_req on the sectors alone. */
  predicate FirstIsCloser(h: Head, s1: nat, s2: nat) {
    if Wraps(h, s1) && Wraps(h, s2) then s1 <= s2
    else if Wraps(h, s1) || Wraps(h, s2) then Wraps(h, s2)
    else if Distance(h, s1) == Distance(h, s2) then s1 >= s2
    else Distance(h, s1) < Distance(h, s2)
  }

  /** cfq_choose_req for two different requests: sync first, then metadata, then the head's position. */
  function Choose(h: Head, r1: Rq, r2: Rq): Rq {
    if r1.sync != r2.sync then if r1.sync then r1 else r2
    else if r1.meta != r2.meta then if r1.meta then r1 else r2
    else if FirstIsCloser(h, r1.sector, r2.sector) then r1 else r2
  }

  /** cfq_choose_req, where either may be missing. */
  function ChooseReq(h: Head, r1: Option<Rq>, r2: Option<Rq>): Option<Rq> {
    if r1.None? || r1 == r2 then r2
    else if r2.None? then r1
    else Some(Choose(h, r1.value, r2.value))
  }

  /** cfq_find_next_rq: the better neighbour of list[k], wrapping to the first. */
  function FindNext(h: Head, list: seq<Rq>, k: nat): Option<Rq>
    requires k < |list|
  {
    var prev := if k > 0 then Some(list[k - 1]) else None;
    var next := if k + 1 < |list| then Some(list[k + 1])
                else if k > 0 then Some(list[0])
                else None;
    ChooseReq(h, next, prev)
  }

  // ----- sequences -----

  function IndexOf<T(==)>(s: seq<T>, x: T): (k: nat)
    requires x in s
    ensures k < |s| && s[k] == x
  {
    if s[0] == x then 0 else 1 + IndexOf(s[1..], x)
  }

  predicate Distinct<T(==)>(s: seq<T>) {
    forall i, j :: 0 <= i < j < |s| ==> s[i] != s[j]
  }

  predicate Sorted(s: seq<Rq>) {
    forall i, j :: 0 <= i < j < |s| ==> s[i].sector < s[j].sector
  }

  lemma RemoveAtMembers<T>(s: seq<T>, k: nat)
    requires k < |s| && Distinct(s)
    ensures Distinct(RemoveAt(s, k))
    ensures forall x :: x in RemoveAt(s, k) <==> x in s && x != s[k]
  {
    var t := RemoveAt(s, k);
    forall x ensures x in t <==> x in s && x != s[k] {
      if x in s && x != s[k] {
        var i := IndexOf(s, x);
        assert t[if i < k then i else i - 1] == x;
      }
    }
  }

  lemma InsertAtMembers<T>(s: seq<T>, k: nat, y: T)
    requires k <= |s|
    ensures forall x :: x in InsertAt(s, k, y) <==> x in s || x == y
    ensures Distinct(s) && y !in s ==> Distinct(InsertAt(s, k, y))
  {
    assert s == s[..k] + s[k..];
  }

  lemma SortedDistinct(s: seq<Rq>)
    requires Sorted(s)
    ensures Distinct(s)
  {
  }

  /** Where elv_rb_add links a request of this sector: after every smaller sector. */
  function Position(s: seq<Rq>, sector: nat): (k: nat)
    ensures k <= |s|
    ensures forall i :: 0 <= i < k ==> s[i].sector < sector
    ensures k < |s| ==> sector <= s[k].sector
  {
    if s == [] || sector <= s[0].sector then 0 else 1 + Position(s[1..], sector)
  }

  /** The request elv_rb_add finds in the way: one that starts at the same sector. */
  function Alias(s: seq<Rq>, sector: nat): Option<Rq> {
    var k := Position(s, sector);
    if k < |s| && s[k].sector == sector then Some(s[k]) else None
  }

  lemma AliasFinds(s: seq<Rq>, sector: nat)
    requires Sorted(s)
    ensures Alias(s, sector).Some? <==> exists x :: x in s && x.sector == sector
    ensures Alias(s, sector).Some? ==> Alias(s, sector).value in s && Alias(s, sector).value.sector == sector
  {
    if x :| x in s && x.sector == sector {
      var k := IndexOf(s, x);
      assert s[k].sector == sector;
    }
  }

  lemma InsertSorted(s: seq<Rq>, rq: Rq)
    requires Sorted(s) && Alias(s, rq.sector) == None
    ensures Sorted(InsertAt(s, Position(s, rq.sector), rq))
  {
  }

  // ----- what is counted -----

  datatype Kind = Sync | Async | Meta

  function One(x: Rq, kind: Kind): int {
    match kind
    case Sync => if x.sync then 1 else 0
    case Async => if x.sync then 0 else 1
    case Meta => if x.meta then 1 else 0
  }

  function Tally(s: seq<Rq>, kind: Kind): int {
    if s == [] then 0 else One(s[0], kind) + Tally(s[1..], kind)
  }

  lemma {:induction false} TallyConcat(a: seq<Rq>, b: seq<Rq>, kind: Kind)
    ensures Tally(a + b, kind) == Tally(a, kind) + Tally(b, kind)
  {
    if a == [] {
      assert a + b == b;
    } else {
      assert (a + b)[1..] == a[1..] + b;
      TallyConcat(a[1..], b, kind);
    }
  }

  lemma TallyRemove(s: seq<Rq>, k: nat, kind: Kind)
    requires k < |s|
    ensures Tally(RemoveAt(s, k), kind) == Tally(s, kind) - One(s[k], kind)
  {
    assert s == s[..k] + ([s[k]] + s[k + 1..]);
    TallyConcat(s[..k], [s[k]] + s[k + 1..], kind);
    TallyConcat([s[k]], s[k + 1..], kind);
    TallyConcat(s[..k], s[k + 1..], kind);
  }

  lemma TallyInsert(s: seq<Rq>, k: nat, x: Rq, kind: Kind)
    requires k <= |s|
    ensures Tally(InsertAt(s, k, x), kind) == Tally(s, kind) + One(x, kind)
  {
    var t := InsertAt(s, k, x);
    assert RemoveAt(t, k) == s;
    TallyRemove(t, k, kind);
  }

  lemma {:induction false} TallyPositive(s: seq<Rq>, x: Rq, kind: Kind)
    requires x in s
    ensures Tally(s, kind) >= One(x, kind)
  {
    TallyRemove(s, IndexOf(s, x), kind);
    TallyNonNegative(RemoveAt(s, IndexOf(s, x)), kind);
  }

  lemma {:induction false} TallyNonNegative(s: seq<Rq>, kind: Kind)
    ensures Tally(s, kind) >= 0
  {
    if s != [] {
      TallyNonNegative(s[1..], kind);
    }
  }

  // ----- the lists of one queue -----

  /** sort_list, fifo, next_rq, queued[1], queued[0] and meta_pending. */
  datatype Pending = Pending(sort: seq<Rq>, fifo: seq<Rq>, next: Option<Rq>, sync: int, async: int, meta: int)

  const EMPTY: Pending := Pending([], [], None, 0, 0, 0)

  predicate Counted(p: Pending, s: seq<Rq>) {
    p.sync == Tally(s, Sync) && p.async == Tally(s, Async) && p.meta == Tally(s, Meta)
  }

  predicate Owned(s: seq<Rq>, q: nat) {
    forall x :: x in s ==> x.queue == q
  }

  /** A request is one object: nothing else on the list has its identity. */
  predicate Unique(s: seq<Rq>) {
    forall x, y :: x in s && y in s && x.id == y.id ==> x == y
  }

  predicate Absent(s: seq<Rq>, id: nat) {
    forall x :: x in s ==> x.id != id
  }

  ghost predicate SameMembers(a: seq<Rq>, b: seq<Rq>) {
    forall x :: x in a <==> x in b
  }

  predicate NextOk(p: Pending) {
    if p.sort == [] then p.next == None else p.next.Some? && p.next.value in p.sort
  }

  /** What holds of every queue between operations. */
  ghost predicate PendingOk(p: Pending, q: nat) {
    Sorted(p.sort) && Owned(p.sort, q) && Unique(p.sort) && Distinct(p.fifo) && SameMembers(p.fifo, p.sort) &&
    NextOk(p) && Counted(p, p.sort)
  }

  /** The fifo is empty exactly when the tree is. */
  lemma EmptyTogether(p: Pending, q: nat)
    requires PendingOk(p, q)
    ensures p.fifo == [] <==> p.sort == []
  {
    if p.fifo != [] {
      assert p.fifo[0] in p.sort;
    }
  }

  /** While rq is being put into (or back into) the tree: it is not in the tree, may be on the fifo
      and may still be the next request. */
  ghost predicate Loose(p: Pending, q: nat, rq: Rq) {
    && Sorted(p.sort) && Owned(p.sort, q) && Unique(p.sort) && Distinct(p.fifo) && Absent(p.sort, rq.id)
    && (forall x :: x in p.sort ==> x in p.fifo)
    && (forall x :: x in p.fifo ==> x in p.sort || x == rq)
    && (p.next.None? ==> p.sort == [])
    && (p.next.Some? ==> p.next.value in p.sort || p.next.value == rq)
  }

  /** cfq_remove_request. */
  function Removed(h: Head, p: Pending, rq: Rq): Pending
    requires rq in p.sort && rq in p.fifo
  {
    var k := IndexOf(p.sort, rq);
    Pending(RemoveAt(p.sort, k), RemoveAt(p.fifo, IndexOf(p.fifo, rq)),
            if p.next == Some(rq) then FindNext(h, p.sort, k) else p.next,
            p.sync - One(rq, Sync), p.async - One(rq, Async), p.meta - One(rq, Meta))
  }

  /** queued[rq_is_sync(rq)]++ */
  function CountIn(p: Pending, rq: Rq): Pending {
    p.(sync := p.sync + One(rq, Sync), async := p.async + One(rq, Async))
  }

  function LinkedIn(h: Head, p: Pending, rq: Rq): Pending {
    p.(sort := InsertAt(p.sort, Position(p.sort, rq.sector), rq), next := ChooseReq(h, p.next, Some(rq)))
  }

  /** cfq_add_rq_rb: an alias is dispatched, which is the other result. */
  function Placed(h: Head, p: Pending, rq: Rq): Pending
    requires forall x :: x in p.sort ==> x in p.fifo
  {
    var p0 := CountIn(p, rq);
    var alias := Alias(p.sort, rq.sector);
    LinkedIn(h, if alias.Some? then Removed(h, p0, alias.value) else p0, rq)
  }

  /** cfq_insert_request, as far as the lists are concerned. */
  function Inserted(h: Head, p: Pending, rq: Rq): Pending
    requires forall x :: x in p.sort ==> x in p.fifo
  {
    var p1 := Placed(h, p, rq);
    p1.(fifo := p1.fifo + [rq], meta := p1.meta + One(rq, Meta))
  }

  /** The request object `was` changes its fields: everything that points to it sees `rq`. */
  function Rewritten(p: Pending, was: Rq, rq: Rq): Pending
    requires was in p.sort && was in p.fifo
  {
    p.(sort := p.sort[IndexOf(p.sort, was) := rq], fifo := p.fifo[IndexOf(p.fifo, was) := rq],
       next := if p.next == Some(was) then Some(rq) else p.next)
  }

  /** elv_rb_del and queued[]-- at the start of cfq_reposition_rq_rb. */
  function TakenOut(p: Pending, rq: Rq): Pending
    requires rq in p.sort
  {
    p.(sort := RemoveAt(p.sort, IndexOf(p.sort, rq)), sync := p.sync - One(rq, Sync), async := p.async - One(rq, Async))
  }

  lemma FindNextMember(h: Head, list: seq<Rq>, k: nat)
    requires k < |list| && Distinct(list)
    ensures var r := FindNext(h, list, k);
            if |list| == 1 then r == None else r.Some? && r.value in list && r.value != list[k]
  {
    hide Choose;
    if |list| > 1 {
      var prev := if k > 0 then Some(list[k - 1]) else None;
      var next := if k + 1 < |list| then Some(list[k + 1]) else Some(list[0]);
      ChooseEither(h, next, prev);
    }
  }

  lemma ChooseEither(h: Head, r1: Option<Rq>, r2: Option<Rq>)
    ensures ChooseReq(h, r1, r2) == (if r1.Some? && ChooseReq(h, r1, r2) == r1 then r1 else if r2.Some? then r2 else r1)
  {
  }

  lemma RemovedMembers(h: Head, p: Pending, rq: Rq)
    requires Sorted(p.sort) && Distinct(p.fifo) && rq in p.sort && rq in p.fifo
    ensures var p' := Removed(h, p, rq);
            && Sorted(p'.sort) && |p'.sort| == |p.sort| - 1 && Distinct(p'.fifo)
            && (forall x :: x in p'.sort <==> x in p.sort && x != rq)
            && (forall x :: x in p'.fifo <==> x in p.fifo && x != rq)
            && (p.next == Some(rq) ==> NextOk(p'))
            && (p.next != Some(rq) ==> p'.next == p.next)
  {
    var k := IndexOf(p.sort, rq);
    SortedDistinct(p.sort);
    RemoveAtMembers(p.sort, k);
    RemoveAtMembers(p.fifo, IndexOf(p.fifo, rq));
    FindNextMember(h, p.sort, k);
  }

  lemma RemovedCounts(h: Head, p: Pending, rq: Rq)
    requires rq in p.sort && rq in p.fifo && Counted(p, p.sort)
    ensures Counted(Removed(h, p, rq), Removed(h, p, rq).sort)
  {
    var k := IndexOf(p.sort, rq);
    TallyRemove(p.sort, k, Sync);
    TallyRemove(p.sort, k, Async);
    TallyRemove(p.sort, k, Meta);
  }

  /** Removing a request keeps the lists in step. */
  lemma {:induction false} RemovedOk(h: Head, p: Pending, q: nat, rq: Rq)
    requires PendingOk(p, q) && rq in p.sort
    ensures PendingOk(Removed(h, p, rq), q)
    ensures |Removed(h, p, rq).sort| == |p.sort| - 1
    ensures forall x :: x in Removed(h, p, rq).sort <==> x in p.sort && x != rq
  {
    RemovedMembers(h, p, rq);
    RemovedCounts(h, p, rq);
  }

  lemma RemovedLoose(h: Head, p: Pending, q: nat, rq: Rq, a: Rq)
    requires Loose(p, q, rq) && a in p.sort
    ensures Loose(Removed(h, p, a), q, rq)
    ensures forall x :: x in Removed(h, p, a).sort <==> x in p.sort && x != a
    ensures rq in Removed(h, p, a).fifo <==> rq in p.fifo
  {
    RemovedMembers(h, p, a);
  }

  /** Once there is no alias, linking rq in restores everything but the fifo entry of a new request. */
  lemma LinkedInOk(h: Head, p: Pending, q: nat, rq: Rq)
    requires Loose(p, q, rq) && rq.queue == q && Alias(p.sort, rq.sector) == None
    ensures var p' := LinkedIn(h, p, rq);
            && Sorted(p'.sort) && Owned(p'.sort, q) && Unique(p'.sort) && NextOk(p')
            && (forall x :: x in p'.sort <==> x in p.sort || x == rq)
            && (rq in p.fifo ==> SameMembers(p'.fifo, p'.sort))
            && |p'.sort| == |p.sort| + 1
  {
    hide Choose;
    InsertSorted(p.sort, rq);
    InsertAtMembers(p.sort, Position(p.sort, rq.sector), rq);
    ChooseEither(h, p.next, Some(rq));
  }

  /** cfq_add_rq_rb puts rq into the tree and throws out the alias, if there is one. */
  lemma {:induction false} PlacedOk(h: Head, p: Pending, q: nat, rq: Rq)
    requires Loose(p, q, rq) && rq.queue == q
    ensures var p', alias := Placed(h, p, rq), Alias(p.sort, rq.sector);
            && Sorted(p'.sort) && Owned(p'.sort, q) && Unique(p'.sort) && Distinct(p'.fifo) && NextOk(p')
            && (forall x :: x in p'.sort <==> (x in p.sort && Some(x) != alias) || x == rq)
            && (forall x :: x in p'.fifo <==> x in p.fifo && Some(x) != alias)
            && |p'.sort| == |p.sort| + (if alias.Some? then 0 else 1)
  {
    var p0, alias := CountIn(p, rq), Alias(p.sort, rq.sector);
    AliasFinds(p.sort, rq.sector);
    if alias.Some? {
      RemovedLoose(h, p0, q, rq, alias.value);
      RemovedMembers(h, p0, alias.value);
      var p1 := Removed(h, p0, alias.value);
      NoAlias(p, p1, rq, alias.value);
      LinkedInOk(h, p1, q, rq);
    } else {
      LinkedInOk(h, p0, q, rq);
    }
  }

  lemma NoAlias(p: Pending, p1: Pending, rq: Rq, a: Rq)
    requires Sorted(p.sort) && Sorted(p1.sort) && a in p.sort && a.sector == rq.sector
    requires forall x :: x in p1.sort <==> x in p.sort && x != a
    ensures Alias(p1.sort, rq.sector) == None
  {
    AliasFinds(p1.sort, rq.sector);
    forall x | x in p1.sort ensures x.sector != rq.sector {
      assert p.sort[IndexOf(p.sort, x)] == x && p.sort[IndexOf(p.sort, a)] == a;
    }
  }

  lemma PlacedCounts(h: Head, p: Pending, rq: Rq)
    requires Sorted(p.sort) && forall x :: x in p.sort ==> x in p.fifo
    ensures var p' := Placed(h, p, rq);
            && p'.sync - Tally(p'.sort, Sync) == p.sync - Tally(p.sort, Sync)
            && p'.async - Tally(p'.sort, Async) == p.async - Tally(p.sort, Async)
            && p'.meta - Tally(p'.sort, Meta) == p.meta - Tally(p.sort, Meta) - One(rq, Meta)
  {
    var p0, alias := CountIn(p, rq), Alias(p.sort, rq.sector);
    var p1 := if alias.Some? then Removed(h, p0, alias.value) else p0;
    forall kind ensures Tally(p1.sort, kind) == Tally(p.sort, kind) - (if alias.Some? then One(alias.value, kind) else 0) {
      if alias.Some? {
        TallyRemove(p.sort, IndexOf(p.sort, alias.value), kind);
      }
    }
    forall kind ensures Tally(Placed(h, p, rq).sort, kind) == Tally(p1.sort, kind) + One(rq, kind) {
      TallyInsert(p1.sort, Position(p1.sort, rq.sector), rq, kind);
    }
  }

  /** Inserting a new request keeps the lists in step. */
  lemma {:induction false} InsertedOk(h: Head, p: Pending, q: nat, rq: Rq)
    requires PendingOk(p, q) && Absent(p.sort, rq.id) && rq.queue == q
    ensures PendingOk(Inserted(h, p, rq), q)
    ensures forall x :: x in Inserted(h, p, rq).sort <==> (x in p.sort && Some(x) != Alias(p.sort, rq.sector)) || x == rq
    ensures |Inserted(h, p, rq).sort| == |p.sort| + (if Alias(p.sort, rq.sector).Some? then 0 else 1)
  {
    hide Placed, Removed, Tally, Alias, Sorted, ChooseReq;
    PlacedOk(h, p, q, rq);
    PlacedCounts(h, p, rq);
  }

  // ----- merges -----

  lemma RewrittenIndex(s: seq<Rq>, was: Rq, rq: Rq)
    requires was in s && was.id == rq.id && Unique(s)
    ensures rq in s[IndexOf(s, was) := rq]
    ensures IndexOf(s[IndexOf(s, was) := rq], rq) == IndexOf(s, was)
  {
    var k := IndexOf(s, was);
    var t := s[k := rq];
    assert t[k] == rq;
    var i := IndexOf(t, rq);
    if i != k {
      assert s[i] == rq;
      FirstIndex(s, was);
      FirstIndex(t, rq);
    }
  }

  lemma {:induction false} FirstIndex<T>(s: seq<T>, x: T)
    requires x in s
    ensures forall i :: 0 <= i < IndexOf(s, x) ==> s[i] != x
  {
    if s[0] != x {
      FirstIndex(s[1..], x);
    }
  }

  lemma ReplacedMembers(s: seq<Rq>, k: nat, rq: Rq)
    requires k < |s| && Distinct(s) && (forall x :: x in s && x != s[k] ==> x.id != rq.id)
    ensures Distinct(s[k := rq])
    ensures forall x :: x in s[k := rq] <==> (x in s && x != s[k]) || x == rq
  {
    var t := s[k := rq];
    forall x | x in s && x != s[k] ensures x in t {
      assert t[IndexOf(s, x)] == x;
    }
    forall x | x in t ensures (x in s && x != s[k]) || x == rq {
      var j := IndexOf(t, x);
      assert j != k ==> s[j] == x;
    }
    assert t[k] == rq;
  }

  lemma RewrittenMembers(p: Pending, q: nat, was: Rq, rq: Rq)
    requires PendingOk(p, q) && was in p.sort && was.id == rq.id
    ensures var p' := Rewritten(p, was, rq);
            && Distinct(p'.sort) && Distinct(p'.fifo) && SameMembers(p'.fifo, p'.sort) && Unique(p'.sort)
            && (forall x :: x in p'.sort <==> (x in p.sort && x != was) || x == rq)
  {
    SortedDistinct(p.sort);
    ReplacedMembers(p.sort, IndexOf(p.sort, was), rq);
    ReplacedMembers(p.fifo, IndexOf(p.fifo, was), rq);
    var p' := Rewritten(p, was, rq);
    forall x ensures x in p'.fifo <==> x in p'.sort {
      assert x in p.fifo <==> x in p.sort;
    }
  }

  lemma RewrittenTally(s: seq<Rq>, was: Rq, rq: Rq, kind: Kind)
    requires was in s && was.sync == rq.sync && was.meta == rq.meta
    ensures Tally(s[IndexOf(s, was) := rq], kind) == Tally(s, kind)
  {
    var k := IndexOf(s, was);
    TallyRemove(s, k, kind);
    TallyRemove(s[k := rq], k, kind);
    assert RemoveAt(s[k := rq], k) == RemoveAt(s, k);
  }

  lemma RemoveAtSorted(s: seq<Rq>, k: nat)
    requires Sorted(s) && k < |s|
    ensures Sorted(RemoveAt(s, k))
  {
  }

  /** Taking out a request whose fields have changed leaves lists it can be put back into. */
  lemma TakenOutLoose(p: Pending, q: nat, was: Rq, rq: Rq)
    requires PendingOk(p, q) && was in p.sort && was.id == rq.id
    ensures rq in Rewritten(p, was, rq).sort
    ensures var p' := TakenOut(Rewritten(p, was, rq), rq);
            && p'.sort == RemoveAt(p.sort, IndexOf(p.sort, was))
            && Loose(p', q, rq) && rq in p'.fifo
            && (forall x :: x in p'.sort <==> x in p.sort && x != was)
            && (forall x :: x in p'.fifo <==> (x in p.fifo && x != was) || x == rq)
  {
    hide Tally, Sorted;
    var k := IndexOf(p.sort, was);
    RewrittenIndex(p.sort, was, rq);
    assert RemoveAt(p.sort[k := rq], k) == RemoveAt(p.sort, k);
    SortedDistinct(p.sort);
    RemoveAtSorted(p.sort, k);
    RemoveAtMembers(p.sort, k);
    RewrittenMembers(p, q, was, rq);
  }

  /** cfq_merged_request for a front merge, after which the request object reads `rq`. */
  function Repositioned(h: Head, p: Pending, was: Rq, rq: Rq): Pending
    requires PendingOk(p, was.queue) && was in p.sort && was.id == rq.id
  {
    TakenOutLoose(p, was.queue, was, rq);
    Placed(h, TakenOut(Rewritten(p, was, rq), rq), rq)
  }

  /** A front merge moves the request to its new sector and throws out a request that starts there. */
  lemma {:induction false} RepositionedOk(h: Head, p: Pending, q: nat, was: Rq, rq: Rq)
    requires PendingOk(p, q) && was in p.sort && rq == was.(sector := rq.sector, len := rq.len)
    ensures var p', alias := Repositioned(h, p, was, rq), Alias(RemoveAt(p.sort, IndexOf(p.sort, was)), rq.sector);
            && PendingOk(p', q) && |p'.sort| == |p.sort| - (if alias.Some? then 1 else 0)
            && (alias.Some? ==> alias.value in p.sort && alias.value != was)
            && (forall x :: x in p'.sort <==> (x in p.sort && x != was && Some(x) != alias) || x == rq)
  {
    hide Placed, Removed, Rewritten, TakenOut, Tally, NextOk, Unique;
    TakenOutLoose(p, q, was, rq);
    var p1 := TakenOut(Rewritten(p, was, rq), rq);
    PlacedOk(h, p1, q, rq);
    assert Sorted(p1.sort);
    AliasFinds(p1.sort, rq.sector);
    RepositionedCounts(h, p, p1, was, rq) by {
      TakenOutFrame(p, was, rq);
    }
  }

  lemma TakenOutFrame(p: Pending, was: Rq, rq: Rq)
    requires was in p.sort && was in p.fifo && rq in Rewritten(p, was, rq).sort
    ensures var p1 := TakenOut(Rewritten(p, was, rq), rq);
            p1.sync == p.sync - One(rq, Sync) && p1.async == p.async - One(rq, Async) && p1.meta == p.meta
  {
  }

  lemma RepositionedCounts(h: Head, p: Pending, p1: Pending, was: Rq, rq: Rq)
    requires was in p.sort && Counted(p, p.sort) && was.sync == rq.sync && was.meta == rq.meta
    requires Sorted(p1.sort) && (forall x :: x in p1.sort ==> x in p1.fifo)
    requires p1.sort == RemoveAt(p.sort, IndexOf(p.sort, was))
    requires p1.sync == p.sync - One(rq, Sync) && p1.async == p.async - One(rq, Async) && p1.meta == p.meta
    ensures Counted(Placed(h, p1, rq), Placed(h, p1, rq).sort)
  {
    hide Placed, Removed, Tally;
    PlacedCounts(h, p1, rq);
    TallyRemove(p.sort, IndexOf(p.sort, was), Sync);
    TallyRemove(p.sort, IndexOf(p.sort, was), Async);
    TallyRemove(p.sort, IndexOf(p.sort, was), Meta);
  }

  /** What attempt_merge leaves in the request that swallows `next`. */
  function Swallowing(rq: Rq, next: Rq): Rq {
    rq.(len := rq.len + next.len, start := if rq.start > next.start then next.start else rq.start)
  }

  /** The fifo step of cfq_merged_requests: behind `next` if that one is older. */
  function FifoMoved(fifo: seq<Rq>, rq: Rq, next: Rq): seq<Rq>
    requires rq in fifo && next in fifo && rq != next && Distinct(fifo)
  {
    if next.start < rq.start then
      var rest := RemoveAt(fifo, IndexOf(fifo, rq));
      RemoveAtMembers(fifo, IndexOf(fifo, rq));
      InsertAt(rest, IndexOf(rest, next) + 1, rq)
    else fifo
  }

  /** attempt_merge followed by cfq_merged_requests. */
  function MergedRequests(h: Head, p: Pending, rq: Rq, next: Rq): Pending
    requires PendingOk(p, rq.queue) && rq in p.sort && next in p.sort && rq != next
  {
    var p1 := Rewritten(p, rq, Swallowing(rq, next));
    SwallowingOk(p, rq.queue, rq, next);
    Removed(h, p1.(fifo := FifoMoved(p1.fifo, Swallowing(rq, next), next)), next)
  }

  lemma SwallowingOk(p: Pending, q: nat, rq: Rq, next: Rq)
    requires PendingOk(p, q) && rq in p.sort && next in p.sort && rq != next
    ensures var p', rq' := Rewritten(p, rq, Swallowing(rq, next)), Swallowing(rq, next);
            && PendingOk(p', q) && rq' != next
            && (forall x :: x in p'.sort <==> (x in p.sort && x != rq) || x == rq')
            && FifoMoved(p'.fifo, rq', next) == p'.fifo
  {
    var rq' := Swallowing(rq, next);
    RewrittenMembers(p, q, rq, rq');
    RewrittenTally(p.sort, rq, rq', Sync);
    RewrittenTally(p.sort, rq, rq', Async);
    RewrittenTally(p.sort, rq, rq', Meta);
  }

  /** Merging two requests removes one and lets the other take over its extent. */
  lemma {:induction false} MergedRequestsOk(h: Head, p: Pending, q: nat, rq: Rq, next: Rq)
    requires PendingOk(p, q) && rq in p.sort && next in p.sort && rq != next
    ensures var p' := MergedRequests(h, p, rq, next);
            && PendingOk(p', q) && |p'.sort| == |p.sort| - 1
            && (forall x :: x in p'.sort <==> (x in p.sort && x != rq && x != next) || x == Swallowing(rq, next))
  {
    hide Removed, FifoMoved;
    SwallowingOk(p, q, rq, next);
    RemovedOk(h, Rewritten(p, rq, Swallowing(rq, next)), q, next);
  }

  predicate OldestFirst(fifo: seq<Rq>) {
    forall i, j :: 0 <= i < j < |fifo| ==> fifo[i].start <= fifo[j].start
  }

  /** The merged request inherits the older start time but not the older place: attempt_merge has
      already lowered its start time when cfq_merged_requests compares them, so the fifo step never
      moves it.  The fifo stays oldest first exactly when nothing younger than `next` stands
      between `next` and the request behind it. */
  lemma {:induction false} MergeKeepsAgeOrderIff(h: Head, p: Pending, rq: Rq, next: Rq)
    requires PendingOk(p, rq.queue) && rq in p.sort && next in p.sort && rq != next && OldestFirst(p.fifo)
    ensures OldestFirst(MergedRequests(h, p, rq, next).fifo) <==>
            forall i :: IndexOf(p.fifo, next) < i < IndexOf(p.fifo, rq) ==> p.fifo[i].start <= next.start
  {
    hide FifoMoved;
    var f, n, rq' := IndexOf(p.fifo, rq), IndexOf(p.fifo, next), Swallowing(rq, next);
    SwallowingOk(p, rq.queue, rq, next);
    var fifo := p.fifo[f := rq'];
    assert fifo[n] == next;
    assert IndexOf(fifo, next) == n;
    AgeOrderIff(p.fifo, f, n, rq');
  }

  lemma AgeOrderIff(fifo: seq<Rq>, f: nat, n: nat, rq: Rq)
    requires f < |fifo| && n < |fifo| && f != n && OldestFirst(fifo)
    requires rq.start == if fifo[f].start > fifo[n].start then fifo[n].start else fifo[f].start
    ensures OldestFirst(RemoveAt(fifo[f := rq], n)) <==> forall i :: n < i < f ==> fifo[i].start <= fifo[n].start
  {
    var t := RemoveAt(fifo[f := rq], n);
    if n < f {
      assert t[f - 1] == rq;
      assert forall i :: n < i < f ==> t[i - 1] == fifo[i];
      if OldestFirst(t) {
        forall i | n < i < f ensures fifo[i].start <= fifo[n].start {
          assert t[i - 1].start <= t[f - 1].start;
        }
      }
    }
  }

  /** Three requests on the fifo, the youngest swallowing the oldest: the head is no longer the oldest. */
  lemma MergeCanSpoilAgeOrder(h: Head)
    ensures exists p: Pending, rq: Rq, next: Rq ::
              && PendingOk(p, rq.queue) && rq in p.sort && next in p.sort && rq != next
              && OldestFirst(p.fifo) && !OldestFirst(MergedRequests(h, p, rq, next).fifo)
  {
    hide PendingOk, MergedRequests;
    var a, b, c := Rq(1, 0, 8, 8, true, false, 0), Rq(2, 0, 100, 8, true, false, 5), Rq(3, 0, 0, 8, true, false, 9);
    var p := Pending([c, a, b], [a, b, c], Some(a), 3, 0, 0);
    ThreeOk(a, b, c, p);
    assert p.fifo[1].start > a.start;
    assert IndexOf(p.fifo, c) == 2 by {
      assert p.fifo[1..] == [b, c] && p.fifo[1..][1..] == [c];
    }
    MergeKeepsAgeOrderIff(h, p, c, a);
    assert !OldestFirst(MergedRequests(h, p, c, a).fifo);
  }

  lemma ThreeOk(a: Rq, b: Rq, c: Rq, p: Pending)
    requires c.sector < a.sector < b.sector && a.id != b.id && b.id != c.id && a.id != c.id
    requires a.queue == b.queue == c.queue && p.sort == [c, a, b] && p.fifo == [a, b, c] && p.next == Some(a)
    requires p.sync == One(a, Sync) + One(b, Sync) + One(c, Sync)
    requires p.async == One(a, Async) + One(b, Async) + One(c, Async)
    requires p.meta == One(a, Meta) + One(b, Meta) + One(c, Meta)
    ensures PendingOk(p, a.queue)
  {
    forall kind ensures Tally(p.sort, kind) == One(c, kind) + One(a, kind) + One(b, kind) {
      assert p.sort == [c] + ([a] + [b]);
      TallyConcat([c], [a] + [b], kind);
      TallyConcat([a], [b], kind);
    }
  }
}
