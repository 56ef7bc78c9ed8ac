/** The deadline scheduler (kernel/block/deadline-iosched.c): for each direction a list
    sorted by sector and a fifo with expiry times that hold the same requests, the batch in
    progress, and the count of read batches that passed over waiting writes.

    The rb-tree is a sequence sorted by sector; jiffies is a parameter. */
module Deadline {
  import opened ListOps

  datatype Rq = Rq(id: nat, write: bool, sector: nat, len: nat)

  /** A request on a fifo, with its expiry time. */
  datatype Timed = Timed(rq: Rq, expire: nat)

  /** sort_list, fifo_list and next_rq of one direction. */
  datatype Dir = Dir(sort: seq<Rq>, fifo: seq<Timed>, next: Option<Rq>)

  datatype Tunables = Tunables(readExpire: nat, writeExpire: nat, fifoBatch: nat, writesStarved: nat)

  datatype State = State(read: Dir, write: Dir, batching: nat, starved: nat, lastSector: nat, dispatched: seq<Rq>)

  function Of(s: State, write: bool): Dir {
    if write then s.write else s.read
  }

  function With(s: State, write: bool, d: Dir): State {
    if write then s.(write := d) else s.(read := d)
  }

  // ----- lists -----

  predicate Sorted(sort: seq<Rq>) {
    forall i, j :: 0 <= i < j < |sort| ==> sort[i].sector < sort[j].sector
  }

  predicate Distinct(fifo: seq<Timed>) {
    forall i, j :: 0 <= i < j < |fifo| ==> fifo[i].rq.id != fifo[j].rq.id
  }

  predicate Expiring(fifo: seq<Timed>) {
    forall i, j :: 0 <= i < j < |fifo| ==> fifo[i].expire <= fifo[j].expire
  }

  predicate OnFifo(fifo: seq<Timed>, r: Rq) {
    exists i :: 0 <= i < |fifo| && fifo[i].rq == r
  }

  /** The two lists of a direction hold the same requests, each once, and the fifo is in
      order of expiry. */
  ghost predicate ListsOk(sort: seq<Rq>, fifo: seq<Timed>, write: bool) {
    && Sorted(sort) && Distinct(fifo) && Expiring(fifo)
    && |sort| == |fifo|
    && (forall r :: r in sort <==> OnFifo(fifo, r))
    && (forall r :: r in sort ==> r.write == write)
  }

  /** And the cached request is one of them. */
  ghost predicate DirOk(d: Dir, write: bool) {
    ListsOk(d.sort, d.fifo, write) && (d.next.Some? ==> d.next.value in d.sort)
  }

  /** The invariant: both directions are in order and at most one of them has a batch. */
  ghost predicate Valid(s: State) {
    DirOk(s.read, false) && DirOk(s.write, true) && (s.read.next.None? || s.write.next.None?)
  }

  function FifoIndex(fifo: seq<Timed>, r: Rq): (k: nat)
    requires OnFifo(fifo, r)
    ensures k < |fifo| && fifo[k].rq == r
  {
    if fifo[0].rq == r then 0 else
      assert OnFifo(fifo[1..], r) by {
        var i :| 0 <= i < |fifo| && fifo[i].rq == r;
        assert fifo[1..][i - 1].rq == r;
      }
      1 + FifoIndex(fifo[1..], r)
  }

  function SortIndex(sort: seq<Rq>, r: Rq): (k: nat)
    requires r in sort
    ensures k < |sort| && sort[k] == r
  {
    if sort[0] == r then 0 else 1 + SortIndex(sort[1..], r)
  }

  /** Where a request at `sector` belongs in a sorted list (elv_rb_add). */
  function Place(sort: seq<Rq>, sector: nat): (p: nat)
    ensures p <= |sort|
    ensures forall i :: 0 <= i < p ==> sort[i].sector < sector
    ensures p < |sort| ==> sort[p].sector >= sector
  {
    if sort == [] || sort[0].sector >= sector then 0 else 1 + Place(sort[1..], sector)
  }

  // ----- deadline_move_request -----

  /** Take sort[k] off both lists of a direction; the batch goes on with its successor. */
  function TakeOff(d: Dir, k: nat): Dir
    requires k < |d.sort| && OnFifo(d.fifo, d.sort[k])
  {
    Dir(RemoveAt(d.sort, k), RemoveAt(d.fifo, FifoIndex(d.fifo, d.sort[k])),
        if k + 1 < |d.sort| then Some(d.sort[k + 1]) else None)
  }

  function MoveRequest(s: State, write: bool, k: nat): State
    requires k < |Of(s, write).sort| && OnFifo(Of(s, write).fifo, Of(s, write).sort[k])
  {
    var rq := Of(s, write).sort[k];
    var s1 := With(s, !write, Of(s, !write).(next := None));
    With(s1, write, TakeOff(Of(s, write), k)).(lastSector := rq.sector + rq.len, dispatched := s.dispatched + [rq])
  }

  lemma RemoveMember<T>(s: seq<T>, k: nat, x: T)
    requires k < |s|
    ensures x in s <==> x in RemoveAt(s, k) || x == s[k]
  {
    assert s == s[..k] + [s[k]] + s[k + 1..];
  }

  lemma SortRemove(sort: seq<Rq>, k: nat)
    requires Sorted(sort) && k < |sort|
    ensures Sorted(RemoveAt(sort, k)) && sort[k] !in RemoveAt(sort, k)
  {
    var t := RemoveAt(sort, k);
    forall i | 0 <= i < |t| ensures t[i] == if i < k then sort[i] else sort[i + 1] {}
  }

  lemma FifoRemove(fifo: seq<Timed>, k: nat, r: Rq)
    requires Distinct(fifo) && Expiring(fifo) && k < |fifo|
    ensures Distinct(RemoveAt(fifo, k)) && Expiring(RemoveAt(fifo, k))
    ensures OnFifo(RemoveAt(fifo, k), r) <==> OnFifo(fifo, r) && r != fifo[k].rq
  {
    var t := RemoveAt(fifo, k);
    forall i | 0 <= i < |t| ensures t[i] == if i < k then fifo[i] else fifo[i + 1] {}
    if OnFifo(fifo, r) && r != fifo[k].rq {
      var i :| 0 <= i < |fifo| && fifo[i].rq == r;
      assert t[if i < k then i else i - 1].rq == r;
    }
  }

  lemma TakeOffOk(d: Dir, write: bool, k: nat)
    requires DirOk(d, write) && k < |d.sort|
    ensures OnFifo(d.fifo, d.sort[k]) && DirOk(TakeOff(d, k), write)
    ensures forall r :: r in TakeOff(d, k).sort <==> r in d.sort && r != d.sort[k]
  {
    var t, f := TakeOff(d, k), FifoIndex(d.fifo, d.sort[k]);
    SortRemove(d.sort, k);
    forall r ensures r in t.sort <==> r in d.sort && r != d.sort[k] {
      RemoveMember(d.sort, k, r);
    }
    forall r ensures r in t.sort <==> OnFifo(t.fifo, r) {
      FifoRemove(d.fifo, f, r);
    }
    FifoRemove(d.fifo, f, d.sort[k]);
    if k + 1 < |d.sort| {
      assert t.sort[k] == d.sort[k + 1];
    }
  }

  lemma MoveOk(s: State, write: bool, k: nat)
    requires Valid(s) && k < |Of(s, write).sort|
    ensures OnFifo(Of(s, write).fifo, Of(s, write).sort[k]) && Valid(MoveRequest(s, write, k))
  {
    TakeOffOk(Of(s, write), write, k);
  }

  // ----- adding and moving within the lists -----

  /** `r` is on the fifo but not yet, or not at the moment, in the sorted list. */
  ghost predicate Pending(sort: seq<Rq>, fifo: seq<Timed>, write: bool, r: Rq) {
    && Sorted(sort) && Distinct(fifo) && Expiring(fifo)
    && |sort| + 1 == |fifo|
    && r !in sort
    && (forall x :: x in sort || x == r <==> OnFifo(fifo, x))
    && (forall x :: x in sort ==> x.write == write) && r.write == write
  }

  /** Does a request at this sector have to be moved out of the way first? */
  predicate Alias(sort: seq<Rq>, sector: nat) {
    Place(sort, sector) < |sort| && sort[Place(sort, sector)].sector == sector
  }

  lemma InsertMember<T>(s: seq<T>, p: nat, x: T, y: T)
    requires p <= |s|
    ensures y in InsertAt(s, p, x) <==> y in s || y == x
  {
    assert s == s[..p] + s[p..];
    assert InsertAt(s, p, x)[p] == x;
  }

  lemma InsertPending(sort: seq<Rq>, fifo: seq<Timed>, write: bool, r: Rq)
    requires Pending(sort, fifo, write, r) && !Alias(sort, r.sector)
    ensures ListsOk(InsertAt(sort, Place(sort, r.sector), r), fifo, write)
  {
    var p := Place(sort, r.sector);
    var t := InsertAt(sort, p, r);
    forall i, j | 0 <= i < j < |t| ensures t[i].sector < t[j].sector {
      assert t[i] == if i < p then sort[i] else if i == p then r else sort[i - 1];
      assert t[j] == if j < p then sort[j] else if j == p then r else sort[j - 1];
      assert p < |sort| && j > p + 1 ==> sort[p].sector < sort[j - 1].sector;
    }
    forall x ensures x in t <==> x in sort || x == r {
      InsertMember(sort, p, r, x);
    }
  }

  lemma AliasPending(sort: seq<Rq>, fifo: seq<Timed>, write: bool, r: Rq, k: nat)
    requires Pending(sort, fifo, write, r) && k < |sort|
    ensures OnFifo(fifo, sort[k])
    ensures Pending(RemoveAt(sort, k), RemoveAt(fifo, FifoIndex(fifo, sort[k])), write, r)
  {
    var f := FifoIndex(fifo, sort[k]);
    SortRemove(sort, k);
    RemoveMember(sort, k, r);
    forall x ensures x in RemoveAt(sort, k) || x == r <==> OnFifo(RemoveAt(fifo, f), x) {
      RemoveMember(sort, k, x);
      FifoRemove(fifo, f, x);
    }
    forall x | x in RemoveAt(sort, k) ensures x.write == write {
      RemoveMember(sort, k, x);
    }
    FifoRemove(fifo, f, r);
  }

  lemma NoAliasLeft(sort: seq<Rq>, sector: nat)
    requires Sorted(sort) && Alias(sort, sector)
    ensures !Alias(RemoveAt(sort, Place(sort, sector)), sector)
  {
    var k := Place(sort, sector);
    var t := RemoveAt(sort, k);
    var p := Place(t, sector);
    if p < |t| {
      assert p >= k && t[p] == sort[p + 1];
    }
  }

  /** A request that is not on the fifo yet is appended with the latest expiry. */
  lemma AppendPending(sort: seq<Rq>, fifo: seq<Timed>, write: bool, r: Rq, expire: nat)
    requires ListsOk(sort, fifo, write) && r.write == write
    requires forall i :: 0 <= i < |fifo| ==> fifo[i].rq.id != r.id && fifo[i].expire <= expire
    ensures Pending(sort, fifo + [Timed(r, expire)], write, r)
  {
    var t := fifo + [Timed(r, expire)];
    assert t[|fifo|].rq == r;
    assert r in sort ==> OnFifo(fifo, r);
    forall x ensures x in sort || x == r <==> OnFifo(t, x) {
      if x in sort {
        var i :| 0 <= i < |fifo| && fifo[i].rq == x;
        assert t[i].rq == x;
      } else if OnFifo(t, x) {
        var i :| 0 <= i < |t| && t[i].rq == x;
        assert i < |fifo| ==> OnFifo(fifo, x);
      }
    }
  }

  // ----- the operations -----

  function Expiry(t: Tunables, write: bool, now: nat): nat {
    now + if write then t.writeExpire else t.readExpire
  }

  /** deadline_add_rq_rb and deadline_merged_request put `r` into the sorted list; a request at
      the same sector is dispatched first. */
  function PutSorted(s: State, r: Rq): State
    requires var d := Of(s, r.write); Alias(d.sort, r.sector) ==> OnFifo(d.fifo, d.sort[Place(d.sort, r.sector)])
  {
    var d := Of(s, r.write);
    var s1 := if Alias(d.sort, r.sector) then MoveRequest(s, r.write, Place(d.sort, r.sector)) else s;
    With(s1, r.write, Inserted(Of(s1, r.write), r))
  }

  /** Neither list of the other direction changes, and no batch is left in both. */
  predicate OtherKept(s: State, t: State, write: bool) {
    && Of(t, !write).sort == Of(s, !write).sort && Of(t, !write).fifo == Of(s, !write).fifo
    && (Of(t, !write).next == Of(s, !write).next || Of(t, !write).next == None)
  }

  /** The direction of r after r went into its place. */
  function Inserted(d: Dir, r: Rq): Dir {
    d.(sort := InsertAt(d.sort, Place(d.sort, r.sector), r))
  }

  lemma InsertedOk(d: Dir, r: Rq)
    requires Pending(d.sort, d.fifo, r.write, r) && !Alias(d.sort, r.sector)
    requires d.next.Some? ==> d.next.value in d.sort || d.next.value == r
    ensures DirOk(Inserted(d, r), r.write) && r in Inserted(d, r).sort
  {
    hide Pending, ListsOk;
    InsertPending(d.sort, d.fifo, r.write, r);
    InsertAll(d.sort, Place(d.sort, r.sector), r);
  }

  lemma AliasTakenOff(d: Dir, r: Rq)
    requires Pending(d.sort, d.fifo, r.write, r) && Alias(d.sort, r.sector)
    ensures OnFifo(d.fifo, d.sort[Place(d.sort, r.sector)])
    ensures var d1 := TakeOff(d, Place(d.sort, r.sector));
            && Pending(d1.sort, d1.fifo, r.write, r) && !Alias(d1.sort, r.sector)
            && (d1.next.Some? ==> d1.next.value in d1.sort)
            && forall e :: e in d1.fifo ==> e in d.fifo
  {
    var p := Place(d.sort, r.sector);
    AliasPending(d.sort, d.fifo, r.write, r, p);
    NoAliasLeft(d.sort, r.sector);
    if p + 1 < |d.sort| {
      assert RemoveAt(d.sort, p)[p] == d.sort[p + 1];
    }
    forall e | e in RemoveAt(d.fifo, FifoIndex(d.fifo, d.sort[p])) ensures e in d.fifo {
      RemoveMember(d.fifo, FifoIndex(d.fifo, d.sort[p]), e);
    }
  }

  lemma PutSortedOk(s: State, r: Rq)
    requires Pending(Of(s, r.write).sort, Of(s, r.write).fifo, r.write, r) && DirOk(Of(s, !r.write), !r.write)
    requires s.read.next.None? || s.write.next.None?
    requires var d := Of(s, r.write); d.next.Some? ==> d.next.value in d.sort || d.next.value == r
    ensures var d := Of(s, r.write); Alias(d.sort, r.sector) ==> OnFifo(d.fifo, d.sort[Place(d.sort, r.sector)])
    ensures var t := PutSorted(s, r);
            && Valid(t) && r in Of(t, r.write).sort && OtherKept(s, t, r.write)
            && t.batching == s.batching && t.starved == s.starved
            && forall e :: e in Of(t, r.write).fifo ==> e in Of(s, r.write).fifo
  {
    hide Pending, ListsOk, TakeOff, Place;
    var d, w := Of(s, r.write), r.write;
    if Alias(d.sort, r.sector) {
      AliasTakenOff(d, r);
      InsertedOk(TakeOff(d, Place(d.sort, r.sector)), r);
    } else {
      InsertedOk(d, r);
    }
  }

  lemma InsertAll<T>(s: seq<T>, p: nat, x: T)
    requires p <= |s|
    ensures forall y :: y in InsertAt(s, p, x) <==> y in s || y == x
  {
    forall y ensures y in InsertAt(s, p, x) <==> y in s || y == x {
      InsertMember(s, p, x, y);
    }
  }

  /** deadline_add_request. */
  function AddRequest(s: State, t: Tunables, now: nat, r: Rq): State
    requires var d := Of(s, r.write); Alias(d.sort, r.sector) ==>
               OnFifo(d.fifo + [Timed(r, Expiry(t, r.write, now))], d.sort[Place(d.sort, r.sector)])
  {
    var d := Of(s, r.write);
    PutSorted(With(s, r.write, d.(fifo := d.fifo + [Timed(r, Expiry(t, r.write, now))])), r)
  }

  /** The expiry times handed out so far do not lie beyond those handed out at `now`. */
  ghost predicate InTime(s: State, t: Tunables, now: nat) {
    && (forall e :: e in s.read.fifo ==> e.expire <= Expiry(t, false, now))
    && (forall e :: e in s.write.fifo ==> e.expire <= Expiry(t, true, now))
  }

  predicate Fresh(s: State, r: Rq) {
    forall e :: e in Of(s, r.write).fifo ==> e.rq.id != r.id
  }

  lemma {:induction false} AddOk(s: State, t: Tunables, now: nat, r: Rq)
    requires Valid(s) && InTime(s, t, now) && Fresh(s, r)
    ensures var d := Of(s, r.write); Alias(d.sort, r.sector) ==>
              OnFifo(d.fifo + [Timed(r, Expiry(t, r.write, now))], d.sort[Place(d.sort, r.sector)])
    ensures var s' := AddRequest(s, t, now, r);
            && Valid(s') && InTime(s', t, now) && r in Of(s', r.write).sort && OtherKept(s, s', r.write)
            && s'.batching == s.batching && s'.starved == s.starved
  {
    var d := Of(s, r.write);
    AppendPending(d.sort, d.fifo, r.write, r, Expiry(t, r.write, now));
    PutSortedOk(With(s, r.write, d.(fifo := d.fifo + [Timed(r, Expiry(t, r.write, now))])), r);
  }

  // ----- merges -----

  /** The request object changed in place: wherever the lists named `r`, they now name `r1`. */
  function Replaced(d: Dir, k: nat, r1: Rq): Dir
    requires k < |d.sort| && OnFifo(d.fifo, d.sort[k])
  {
    var f := FifoIndex(d.fifo, d.sort[k]);
    Dir(d.sort[k := r1], d.fifo[f := d.fifo[f].(rq := r1)], if d.next == Some(d.sort[k]) then Some(r1) else d.next)
  }

  /** A bio was appended to sort[k]; it keeps its place everywhere. */
  function BackMerged(s: State, write: bool, k: nat, len: nat): State
    requires k < |Of(s, write).sort| && OnFifo(Of(s, write).fifo, Of(s, write).sort[k])
  {
    With(s, write, Replaced(Of(s, write), k, Of(s, write).sort[k].(len := len)))
  }

  /** deadline_merged_request after a front merge: the request starts earlier, so it is taken
      out of the sorted list and put back. */
  function FrontMerged(s: State, write: bool, k: nat, r1: Rq): State
    requires k < |Of(s, write).sort| && OnFifo(Of(s, write).fifo, Of(s, write).sort[k]) && r1.write == write
    requires var d := Unsorted(Of(s, write), k, r1);
             Alias(d.sort, r1.sector) ==> OnFifo(d.fifo, d.sort[Place(d.sort, r1.sector)])
  {
    PutSorted(With(s, write, Unsorted(Of(s, write), k, r1)), r1)
  }

  function Unsorted(d: Dir, k: nat, r1: Rq): Dir
    requires k < |d.sort| && OnFifo(d.fifo, d.sort[k])
  {
    var d1 := Replaced(d, k, r1);
    d1.(sort := RemoveAt(d.sort, k))
  }

  lemma ReplacedFifo(fifo: seq<Timed>, f: nat, r1: Rq, x: Rq)
    requires Distinct(fifo) && Expiring(fifo) && f < |fifo| && r1.id == fifo[f].rq.id
    ensures var g := fifo[f := fifo[f].(rq := r1)];
            && Distinct(g) && Expiring(g)
            && (OnFifo(g, x) <==> x == r1 || (OnFifo(fifo, x) && x != fifo[f].rq))
  {
    var g := fifo[f := fifo[f].(rq := r1)];
    assert g[f].rq == r1;
    if OnFifo(fifo, x) && x != fifo[f].rq {
      var i :| 0 <= i < |fifo| && fifo[i].rq == x;
      assert g[i].rq == x;
    }
    if OnFifo(g, x) && x != r1 {
      var i :| 0 <= i < |g| && g[i].rq == x;
      assert fifo[i].rq == x && i != f;
    }
  }

  /** No other request of the direction has this id. */
  lemma OnlyId(sort: seq<Rq>, fifo: seq<Timed>, write: bool, k: nat, x: Rq)
    requires ListsOk(sort, fifo, write) && k < |sort| && x in sort && x.id == sort[k].id
    ensures x == sort[k]
  {
    assert OnFifo(fifo, x) && OnFifo(fifo, sort[k]);
    var i :| 0 <= i < |fifo| && fifo[i].rq == x;
    var j :| 0 <= j < |fifo| && fifo[j].rq == sort[k];
  }

  lemma UnsortedPending(d: Dir, write: bool, k: nat, r1: Rq)
    requires DirOk(d, write) && k < |d.sort| && r1.id == d.sort[k].id && r1.write == write
    ensures OnFifo(d.fifo, d.sort[k])
    ensures var d1 := Unsorted(d, k, r1);
            && Pending(d1.sort, d1.fifo, write, r1)
            && (d1.next.Some? ==> d1.next.value in d1.sort || d1.next.value == r1)
  {
    var f := FifoIndex(d.fifo, d.sort[k]);
    SortRemove(d.sort, k);
    var sort1 := RemoveAt(d.sort, k);
    forall x ensures x in sort1 <==> x in d.sort && x != d.sort[k] {
      RemoveMember(d.sort, k, x);
    }
    if r1 in sort1 {
      OnlyId(d.sort, d.fifo, write, k, r1);
    }
    forall x ensures x in sort1 || x == r1 <==> OnFifo(d.fifo[f := d.fifo[f].(rq := r1)], x) {
      ReplacedFifo(d.fifo, f, r1, x);
    }
    ReplacedFifo(d.fifo, f, r1, r1);
  }

  lemma {:induction false} FrontMergeOk(s: State, write: bool, k: nat, r1: Rq)
    requires Valid(s) && k < |Of(s, write).sort| && r1.id == Of(s, write).sort[k].id && r1.write == write
    ensures OnFifo(Of(s, write).fifo, Of(s, write).sort[k])
    ensures var d := Unsorted(Of(s, write), k, r1);
            Alias(d.sort, r1.sector) ==> OnFifo(d.fifo, d.sort[Place(d.sort, r1.sector)])
    ensures var t := FrontMerged(s, write, k, r1);
            && Valid(t) && r1 in Of(t, write).sort && OtherKept(s, t, write)
            && t.batching == s.batching && t.starved == s.starved
  {
    hide Pending, ListsOk;
    UnsortedPending(Of(s, write), write, k, r1);
    PutSortedOk(With(s, write, Unsorted(Of(s, write), k, r1)), r1);
  }

  lemma ReplacedMembers(sort: seq<Rq>, k: nat, r1: Rq, x: Rq)
    requires Sorted(sort) && k < |sort|
    ensures x in sort[k := r1] <==> x == r1 || (x in sort && x != sort[k])
  {
    if x in sort && x != sort[k] {
      var i :| 0 <= i < |sort| && sort[i] == x;
      assert sort[k := r1][i] == x;
    }
    assert sort[k := r1][k] == r1;
  }

  lemma BackMergeOk(s: State, write: bool, k: nat, len: nat)
    requires Valid(s) && k < |Of(s, write).sort|
    ensures OnFifo(Of(s, write).fifo, Of(s, write).sort[k]) && Valid(BackMerged(s, write, k, len))
  {
    var d := Of(s, write);
    var f, r1 := FifoIndex(d.fifo, d.sort[k]), d.sort[k].(len := len);
    var sort1 := d.sort[k := r1];
    forall x ensures x in sort1 <==> x == r1 || (x in d.sort && x != d.sort[k]) {
      ReplacedMembers(d.sort, k, r1, x);
    }
    forall x ensures x in sort1 <==> OnFifo(d.fifo[f := d.fifo[f].(rq := r1)], x) {
      ReplacedFifo(d.fifo, f, r1, x);
    }
    ReplacedFifo(d.fifo, f, r1, r1);
  }

  /** The fifo after request fifo[i] absorbed request fifo[j]: one entry for both, at the
      place and with the expiry of the one that expires first. */
  function FifoMerged(fifo: seq<Timed>, i: nat, j: nat): seq<Timed>
    requires i < |fifo| && j < |fifo|
  {
    if fifo[j].expire < fifo[i].expire then FifoTaken(fifo, i, j) else RemoveAt(fifo, j)
  }

  /** Entry j takes the request of entry i, and entry i goes. */
  function FifoTaken(fifo: seq<Timed>, i: nat, j: nat): seq<Timed>
    requires i < |fifo| && j < |fifo|
  {
    RemoveAt(fifo[j := Timed(fifo[i].rq, fifo[j].expire)], i)
  }

  lemma FifoTakenOrder(fifo: seq<Timed>, i: nat, j: nat)
    requires Distinct(fifo) && Expiring(fifo) && i < |fifo| && j < |fifo| && i != j
    ensures Distinct(FifoTaken(fifo, i, j)) && Expiring(FifoTaken(fifo, i, j))
  {
    var g := FifoTaken(fifo, i, j);
    forall n | 0 <= n < |g|
      ensures g[n].expire == fifo[if n < i then n else n + 1].expire
      ensures g[n].rq == fifo[if (if n < i then n else n + 1) == j then i else if n < i then n else n + 1].rq
    {
    }
  }

  lemma FifoTakenMembers(fifo: seq<Timed>, i: nat, j: nat, x: Rq)
    requires Distinct(fifo) && i < |fifo| && j < |fifo| && i != j
    ensures OnFifo(FifoTaken(fifo, i, j), x) <==> OnFifo(fifo, x) && x != fifo[j].rq
  {
    var h, g := fifo[j := Timed(fifo[i].rq, fifo[j].expire)], FifoTaken(fifo, i, j);
    assert g[if j < i then j else j - 1].rq == fifo[i].rq;
    if OnFifo(fifo, x) && x != fifo[j].rq && x != fifo[i].rq {
      var n :| 0 <= n < |fifo| && fifo[n].rq == x;
      assert g[if n < i then n else n - 1].rq == x;
    }
    if OnFifo(g, x) {
      var n :| 0 <= n < |g| && g[n].rq == x;
      var m := if n < i then n else n + 1;
      assert g[n] == h[m];
      assert fifo[if m == j then i else m].rq == x;
    }
  }

  lemma FifoMergedOk(fifo: seq<Timed>, i: nat, j: nat, x: Rq)
    requires Distinct(fifo) && Expiring(fifo) && i < |fifo| && j < |fifo| && i != j
    ensures var g := FifoMerged(fifo, i, j);
            && Distinct(g) && Expiring(g) && |g| == |fifo| - 1
            && (OnFifo(g, x) <==> OnFifo(fifo, x) && x != fifo[j].rq)
  {
    hide OnFifo;
    if fifo[j].expire < fifo[i].expire {
      FifoTakenOrder(fifo, i, j);
      FifoTakenMembers(fifo, i, j, x);
    } else {
      FifoRemove(fifo, j, x);
    }
  }

  /** The merged request is found with the earlier of the two expiry times. */
  lemma MergedExpiry(fifo: seq<Timed>, i: nat, j: nat)
    requires i < |fifo| && j < |fifo| && i != j
    ensures Timed(fifo[i].rq, if fifo[j].expire < fifo[i].expire then fifo[j].expire else fifo[i].expire) in FifoMerged(fifo, i, j)
  {
    var g := FifoMerged(fifo, i, j);
    if fifo[j].expire < fifo[i].expire {
      assert g[if j < i then j else j - 1] == Timed(fifo[i].rq, fifo[j].expire);
    } else {
      assert g[if i < j then i else i - 1] == fifo[i];
    }
  }

  /** deadline_merged_requests: sort[k] absorbs sort[j]. */
  function MergedRequests(d: Dir, k: nat, j: nat): Dir
    requires k < |d.sort| && j < |d.sort| && OnFifo(d.fifo, d.sort[k]) && OnFifo(d.fifo, d.sort[j])
  {
    Dir(RemoveAt(d.sort, j),
        FifoMerged(d.fifo, FifoIndex(d.fifo, d.sort[k]), FifoIndex(d.fifo, d.sort[j])),
        if d.next != Some(d.sort[j]) then d.next
        else if j + 1 < |d.sort| then Some(d.sort[j + 1]) else None)
  }

  lemma {:induction false} MergedRequestsOk(d: Dir, write: bool, k: nat, j: nat)
    requires DirOk(d, write) && k < |d.sort| && j < |d.sort| && k != j
    ensures OnFifo(d.fifo, d.sort[k]) && OnFifo(d.fifo, d.sort[j])
    ensures DirOk(MergedRequests(d, k, j), write)
    ensures forall x :: x in MergedRequests(d, k, j).sort <==> x in d.sort && x != d.sort[j]
  {
    var t := MergedRequests(d, k, j);
    var fi, fj := FifoIndex(d.fifo, d.sort[k]), FifoIndex(d.fifo, d.sort[j]);
    assert d.sort[k] != d.sort[j];
    SortRemove(d.sort, j);
    forall x ensures x in t.sort <==> x in d.sort && x != d.sort[j] {
      RemoveMember(d.sort, j, x);
    }
    forall x ensures x in t.sort <==> OnFifo(t.fifo, x) {
      FifoMergedOk(d.fifo, fi, fj, x);
    }
    FifoMergedOk(d.fifo, fi, fj, d.sort[k]);
    if j + 1 < |d.sort| {
      assert t.sort[j] == d.sort[j + 1];
    }
  }

  /** attempt_merge: sort[k] has grown by sort[j] before the scheduler hears of it. */
  function Swallowed(s: State, write: bool, k: nat, j: nat): State
    requires Swallows(s, write, k, j)
  {
    var d := Of(s, write);
    var s1 := BackMerged(s, write, k, d.sort[k].len + d.sort[j].len);
    With(s1, write, MergedRequests(Of(s1, write), k, j))
  }

  predicate Swallows(s: State, write: bool, k: nat, j: nat) {
    var d := Of(s, write);
    && k < |d.sort| && j < |d.sort| && OnFifo(d.fifo, d.sort[k])
    && var d1 := Of(BackMerged(s, write, k, d.sort[k].len + d.sort[j].len), write);
    && OnFifo(d1.fifo, d1.sort[k]) && OnFifo(d1.fifo, d1.sort[j])
  }

  /** One request with the sectors of both takes the place of the two. */
  lemma {:induction false} SwallowedOk(s: State, write: bool, k: nat, j: nat)
    requires Valid(s) && k < |Of(s, write).sort| && j < |Of(s, write).sort| && k != j
    ensures Swallows(s, write, k, j)
    ensures var d, t := Of(s, write), Swallowed(s, write, k, j);
            && Valid(t) && t.batching == s.batching && t.starved == s.starved
            && Of(t, !write) == Of(s, !write)
            && forall x :: x in Of(t, write).sort <==>
                 x == d.sort[k].(len := d.sort[k].len + d.sort[j].len) || (x in d.sort && x != d.sort[k] && x != d.sort[j])
  {
    hide FifoMerged, FifoIndex, ListsOk, OnFifo, Sorted;
    var d := Of(s, write);
    assert Sorted(d.sort) && d.sort[k] != d.sort[j] by { UnfoldSorted(d, write, k, j); }
    var r1 := d.sort[k].(len := d.sort[k].len + d.sort[j].len);
    BackMergeOk(s, write, k, r1.len);
    var s1 := BackMerged(s, write, k, r1.len);
    MergedRequestsOk(Of(s1, write), write, k, j);
    forall x ensures x in Of(s1, write).sort <==> x == r1 || (x in d.sort && x != d.sort[k]) {
      ReplacedMembers(d.sort, k, r1, x);
    }
  }

  lemma UnfoldSorted(d: Dir, write: bool, k: nat, j: nat)
    requires DirOk(d, write) && k < |d.sort| && j < |d.sort| && k != j
    ensures Sorted(d.sort) && d.sort[k] != d.sort[j]
  {
  }

  // ----- dispatching -----

  /** What deadline_dispatch_requests decided. */
  datatype Choice = Choice(write: bool, rq: Rq, batching: nat, starved: nat)

  /** The request that starts a new batch: the oldest one if it has expired or there is
      nothing to continue from. */
  function BatchStart(d: Dir, now: nat): Rq
    requires d.fifo != []
  {
    if now > d.fifo[0].expire || d.next.None? then d.fifo[0].rq else d.next.value
  }

  function Pick(s: State, t: Tunables, now: nat): Option<Choice> {
    var hasReads, hasWrites := s.read.fifo != [], s.write.fifo != [];
    if (s.write.next.Some? || s.read.next.Some?) && s.batching < t.fifoBatch then
      var w := s.write.next.Some?;
      Some(Choice(w, Of(s, w).next.value, s.batching + 1, s.starved))
    else if hasReads && !(hasWrites && s.starved >= t.writesStarved) then
      Some(Choice(false, BatchStart(s.read, now), 1, s.starved + if hasWrites then 1 else 0))
    else if hasWrites then
      Some(Choice(true, BatchStart(s.write, now), 1, 0))
    else None
  }

  lemma PickOk(s: State, t: Tunables, now: nat)
    requires Valid(s)
    ensures Pick(s, t, now).None? <==> s.read.sort == [] && s.write.sort == []
    ensures Pick(s, t, now).Some? ==> var c := Pick(s, t, now).value;
              c.rq in Of(s, c.write).sort && OnFifo(Of(s, c.write).fifo, c.rq)
  {
    assert s.read.fifo != [] ==> OnFifo(s.read.fifo, s.read.fifo[0].rq);
    assert s.write.fifo != [] ==> OnFifo(s.write.fifo, s.write.fifo[0].rq);
  }

  /** deadline_dispatch_requests. */
  function Dispatch(s: State, t: Tunables, now: nat): State
    requires Valid(s)
  {
    PickOk(s, t, now);
    match Pick(s, t, now)
    case None => s
    case Some(c) =>
      MoveRequest(s.(batching := c.batching, starved := c.starved), c.write, SortIndex(Of(s, c.write).sort, c.rq))
  }

  lemma {:induction false} DispatchOk(s: State, t: Tunables, now: nat)
    requires Valid(s)
    ensures Valid(Dispatch(s, t, now))
    ensures match Pick(s, t, now)
            case None => Dispatch(s, t, now) == s
            case Some(c) =>
              var s' := Dispatch(s, t, now);
              && s'.dispatched == s.dispatched + [c.rq] && s'.batching == c.batching && s'.starved == c.starved
              && OtherKept(s, s', c.write)
              && forall r :: r in Of(s', c.write).sort <==> r in Of(s, c.write).sort && r != c.rq
  {
    PickOk(s, t, now);
    if Pick(s, t, now).Some? {
      var c := Pick(s, t, now).value;
      var k := SortIndex(Of(s, c.write).sort, c.rq);
      MoveOk(s.(batching := c.batching, starved := c.starved), c.write, k);
      TakeOffOk(Of(s, c.write), c.write, k);
    }
  }

  /** A write batch that starts while the oldest write has expired starts with that write,
      and no queued write expires earlier. */
  lemma ExpiredWriteFirst(s: State, t: Tunables, now: nat)
    requires Valid(s) && s.write.fifo != [] && now > s.write.fifo[0].expire
    requires !((s.write.next.Some? || s.read.next.Some?) && s.batching < t.fifoBatch)
    requires Pick(s, t, now).Some? && Pick(s, t, now).value.write
    ensures Pick(s, t, now).value.rq == s.write.fifo[0].rq
    ensures forall e :: e in s.write.fifo ==> s.write.fifo[0].expire <= e.expire
  {
  }

  // ----- runs -----

  datatype Event =
    | Add(r: Rq)
    | BackMerge(write: bool, k: nat, len: nat)
    | FrontMerge(write: bool, k: nat, r: Rq)
    | MergeRequests(write: bool, k: nat, j: nat)
    | DispatchOne

  predicate EventOk(s: State, ev: Event) {
    match ev
    case Add(r) => Fresh(s, r)
    case BackMerge(w, k, _) => k < |Of(s, w).sort|
    case FrontMerge(w, k, r) => k < |Of(s, w).sort| && r.id == Of(s, w).sort[k].id && r.write == w
    case MergeRequests(w, k, j) => k < |Of(s, w).sort| && j < |Of(s, w).sort| && k != j
    case DispatchOne => true
  }

  ghost function Step(s: State, t: Tunables, now: nat, ev: Event): State
    requires Valid(s) && InTime(s, t, now) && EventOk(s, ev)
  {
    match ev
    case Add(r) => AddOk(s, t, now, r); AddRequest(s, t, now, r)
    case BackMerge(w, k, len) => BackMergeOk(s, w, k, len); BackMerged(s, w, k, len)
    case FrontMerge(w, k, r) => FrontMergeOk(s, w, k, r); FrontMerged(s, w, k, r)
    case MergeRequests(w, k, j) =>
      SwallowedOk(s, w, k, j);
      Swallowed(s, w, k, j)
    case DispatchOne => Dispatch(s, t, now)
  }

  lemma StepOk(s: State, t: Tunables, now: nat, ev: Event)
    requires Valid(s) && InTime(s, t, now) && EventOk(s, ev)
    ensures Valid(Step(s, t, now, ev))
    ensures !ev.DispatchOne? ==> Step(s, t, now, ev).batching == s.batching && Step(s, t, now, ev).starved == s.starved
  {
    hide ListsOk, AddRequest, FrontMerged, Dispatch, Replaced, FifoMerged;
    match ev
    case Add(r) => AddOk(s, t, now, r);
    case BackMerge(w, k, len) => BackMergeOk(s, w, k, len);
    case FrontMerge(w, k, r) => FrontMergeOk(s, w, k, r);
    case MergeRequests(w, k, j) => SwallowedOk(s, w, k, j);
    case DispatchOne => DispatchOk(s, t, now);
  }

  /** Every expiry time on fifo g was already on fifo f. */
  predicate TimesFrom(f: seq<Timed>, g: seq<Timed>) {
    forall e :: e in g ==> exists i :: 0 <= i < |f| && f[i].expire == e.expire
  }

  lemma TimesRemove(f: seq<Timed>, k: nat)
    requires k < |f|
    ensures TimesFrom(f, RemoveAt(f, k))
  {
    forall e | e in RemoveAt(f, k) ensures exists i :: 0 <= i < |f| && f[i].expire == e.expire {
      RemoveMember(f, k, e);
      var i :| 0 <= i < |f| && f[i] == e;
    }
  }

  lemma TimesReplace(f: seq<Timed>, k: nat, r: Rq)
    requires k < |f|
    ensures TimesFrom(f, f[k := f[k].(rq := r)])
  {
    var g := f[k := f[k].(rq := r)];
    forall e | e in g ensures exists i :: 0 <= i < |f| && f[i].expire == e.expire {
      var i :| 0 <= i < |g| && g[i] == e;
      assert f[i].expire == e.expire;
    }
  }

  lemma TimesMerged(f: seq<Timed>, i: nat, j: nat)
    requires i < |f| && j < |f| && i != j
    ensures TimesFrom(f, FifoMerged(f, i, j))
  {
    if f[j].expire < f[i].expire {
      var g := FifoTaken(f, i, j);
      forall e | e in g ensures exists n :: 0 <= n < |f| && f[n].expire == e.expire {
        var m :| 0 <= m < |g| && g[m] == e;
        assert f[if m < i then m else m + 1].expire == e.expire;
      }
    } else {
      TimesRemove(f, j);
    }
  }

  lemma TimesInTime(s: State, s': State, t: Tunables, now: nat)
    requires InTime(s, t, now) && TimesFrom(s.read.fifo, s'.read.fifo) && TimesFrom(s.write.fifo, s'.write.fifo)
    ensures InTime(s', t, now)
  {
    forall e | e in s'.read.fifo ensures e.expire <= Expiry(t, false, now) {
      var i :| 0 <= i < |s.read.fifo| && s.read.fifo[i].expire == e.expire;
      assert s.read.fifo[i] in s.read.fifo;
    }
    forall e | e in s'.write.fifo ensures e.expire <= Expiry(t, true, now) {
      var i :| 0 <= i < |s.write.fifo| && s.write.fifo[i].expire == e.expire;
      assert s.write.fifo[i] in s.write.fifo;
    }
  }

  lemma TimesSame(f: seq<Timed>)
    ensures TimesFrom(f, f)
  {
  }

  lemma DirectionInTime(s: State, s': State, t: Tunables, now: nat, write: bool)
    requires InTime(s, t, now) && TimesFrom(Of(s, write).fifo, Of(s', write).fifo) && Of(s', !write).fifo == Of(s, !write).fifo
    ensures InTime(s', t, now)
  {
    TimesSame(s.read.fifo);
    TimesSame(s.write.fifo);
    TimesInTime(s, s', t, now);
  }

  lemma FrontMergeTimes(s: State, write: bool, k: nat, r: Rq)
    requires Valid(s) && EventOk(s, FrontMerge(write, k, r))
    ensures OnFifo(Of(s, write).fifo, Of(s, write).sort[k])
    ensures var d := Unsorted(Of(s, write), k, r);
            Alias(d.sort, r.sector) ==> OnFifo(d.fifo, d.sort[Place(d.sort, r.sector)])
    ensures var s' := FrontMerged(s, write, k, r);
            TimesFrom(Of(s, write).fifo, Of(s', write).fifo) && Of(s', !write).fifo == Of(s, !write).fifo
  {
    hide Pending, ListsOk;
    var d := Of(s, write);
    FrontMergeOk(s, write, k, r);
    UnsortedPending(d, write, k, r);
    PutSortedOk(With(s, write, Unsorted(d, k, r)), r);
    TimesReplace(d.fifo, FifoIndex(d.fifo, d.sort[k]), r);
  }

  lemma StepInTime(s: State, t: Tunables, now: nat, ev: Event, later: nat)
    requires Valid(s) && InTime(s, t, now) && EventOk(s, ev) && now <= later
    ensures InTime(Step(s, t, now, ev), t, later)
  {
    hide ListsOk, AddRequest, FrontMerged, Place, FifoMerged, TimesFrom;
    var s' := Step(s, t, now, ev);
    match ev
    case Add(r) => AddOk(s, t, now, r);
    case BackMerge(w, k, len) =>
      BackMergeInTime(s, w, k, len, t, now);
    case FrontMerge(w, k, r) =>
      FrontMergeTimes(s, w, k, r);
      DirectionInTime(s, s', t, now, w);
    case MergeRequests(w, k, j) =>
      SwallowedInTime(s, w, k, j, t, now);
    case DispatchOne =>
      DispatchTimes(s, t, now);
  }

  lemma BackMergeInTime(s: State, w: bool, k: nat, len: nat, t: Tunables, now: nat)
    requires Valid(s) && InTime(s, t, now) && k < |Of(s, w).sort|
    ensures OnFifo(Of(s, w).fifo, Of(s, w).sort[k]) && InTime(BackMerged(s, w, k, len), t, now)
  {
    hide ListsOk, TimesFrom;
    var d := Of(s, w);
    BackMergeOk(s, w, k, len);
    TimesReplace(d.fifo, FifoIndex(d.fifo, d.sort[k]), d.sort[k].(len := len));
    DirectionInTime(s, BackMerged(s, w, k, len), t, now, w);
  }

  lemma SwallowedInTime(s: State, w: bool, k: nat, j: nat, t: Tunables, now: nat)
    requires Valid(s) && InTime(s, t, now) && k < |Of(s, w).sort| && j < |Of(s, w).sort| && k != j
    ensures Swallows(s, w, k, j) && InTime(Swallowed(s, w, k, j), t, now)
  {
    hide ListsOk, TimesFrom, FifoMerged, InTime, OnFifo, FifoIndex;
    var d := Of(s, w);
    var len := d.sort[k].len + d.sort[j].len;
    SwallowedOk(s, w, k, j);
    BackMergeOk(s, w, k, len);
    BackMergeInTime(s, w, k, len, t, now);
    var s1 := BackMerged(s, w, k, len);
    var d1 := Of(s1, w);
    MergeIndices(d1, w, k, j);
    TimesMerged(d1.fifo, FifoIndex(d1.fifo, d1.sort[k]), FifoIndex(d1.fifo, d1.sort[j]));
    DirectionInTime(s1, Swallowed(s, w, k, j), t, now, w);
  }

  lemma MergeIndices(d: Dir, write: bool, k: nat, j: nat)
    requires DirOk(d, write) && k < |d.sort| && j < |d.sort| && k != j
    ensures OnFifo(d.fifo, d.sort[k]) && OnFifo(d.fifo, d.sort[j])
    ensures FifoIndex(d.fifo, d.sort[k]) != FifoIndex(d.fifo, d.sort[j])
  {
    assert d.sort[k] != d.sort[j];
  }

  lemma DispatchTimes(s: State, t: Tunables, now: nat)
    requires Valid(s) && InTime(s, t, now)
    ensures InTime(Dispatch(s, t, now), t, now)
  {
    hide ListsOk, TimesFrom;
    PickOk(s, t, now);
    if Pick(s, t, now).Some? {
      var c := Pick(s, t, now).value;
      var d := Of(s, c.write);
      TimesRemove(d.fifo, FifoIndex(d.fifo, d.sort[SortIndex(d.sort, c.rq)]));
      DirectionInTime(s, Dispatch(s, t, now), t, now, c.write);
    }
  }

  /** An event with the time at which it happens. */
  datatype At = At(now: nat, ev: Event)

  lemma LaterInTime(s: State, t: Tunables, now: nat, later: nat)
    requires InTime(s, t, now) && now <= later
    ensures InTime(s, t, later)
  {
  }

  /** A run: time does not go back and every event is possible where it happens. */
  ghost predicate Runs(s: State, t: Tunables, now: nat, run: seq<At>)
    requires Valid(s) && InTime(s, t, now)
    decreases |run|
  {
    run == [] ||
    (now <= run[0].now && EventOk(s, run[0].ev) &&
     (LaterInTime(s, t, now, run[0].now);
      StepOk(s, t, run[0].now, run[0].ev);
      StepInTime(s, t, run[0].now, run[0].ev, run[0].now);
      Runs(Step(s, t, run[0].now, run[0].ev), t, run[0].now, run[1..])))
  }

  ghost function After(s: State, t: Tunables, now: nat, run: seq<At>): State
    requires Valid(s) && InTime(s, t, now) && Runs(s, t, now, run)
    decreases |run|
  {
    if run == [] then s else
      LaterInTime(s, t, now, run[0].now);
      StepOk(s, t, run[0].now, run[0].ev);
      StepInTime(s, t, run[0].now, run[0].ev, run[0].now);
      After(Step(s, t, run[0].now, run[0].ev), t, run[0].now, run[1..])
  }

  /** In every reachable state both lists of each direction hold the same requests, at most
      one batch is in progress, its next request is queued, and the fifos are sorted by expiry. */
  lemma {:induction false} AlwaysValid(s: State, t: Tunables, now: nat, run: seq<At>)
    requires Valid(s) && InTime(s, t, now) && Runs(s, t, now, run)
    ensures Valid(After(s, t, now, run))
    decreases |run|
  {
    if run != [] {
      LaterInTime(s, t, now, run[0].now);
      StepOk(s, t, run[0].now, run[0].ev);
      StepInTime(s, t, run[0].now, run[0].ev, run[0].now);
      AlwaysValid(Step(s, t, run[0].now, run[0].ev), t, run[0].now, run[1..]);
    }
  }

  // ----- the starvation bound -----

  function BatchSize(t: Tunables): nat {
    if t.fifoBatch > 1 then t.fifoBatch else 1
  }

  /** How many more reads may be dispatched while a write waits. */
  function Patience(s: State, t: Tunables): nat {
    (if s.starved < t.writesStarved then (t.writesStarved - s.starved) * BatchSize(t) else 0) +
    (if s.batching < BatchSize(t) then BatchSize(t) - s.batching else 0)
  }

  lemma SamePatience(s: State, s': State, t: Tunables)
    requires s'.batching == s.batching && s'.starved == s.starved
    ensures Patience(s', t) == Patience(s, t)
  {
  }

  lemma PatienceBound(s: State, t: Tunables)
    ensures Patience(s, t) <= (t.writesStarved + 1) * BatchSize(t)
  {
    var b, w := BatchSize(t), t.writesStarved;
    if s.starved < w {
      Product(w - s.starved, w, b);
    }
    assert (w + 1) * b == w * b + b;
    Product(0, w, b);
  }

  lemma Product(x: nat, y: nat, b: nat)
    requires x <= y
    ensures x * b <= y * b
  {
    assert y * b == x * b + (y - x) * b;
  }

  /** Dispatching a read while a write waits uses up patience. */
  lemma ReadCosts(s: State, t: Tunables, now: nat)
    requires Valid(s) && s.write.fifo != [] && Pick(s, t, now).Some? && !Pick(s, t, now).value.write
    ensures Patience(Dispatch(s, t, now), t) < Patience(s, t)
  {
    DispatchOk(s, t, now);
    var b := BatchSize(t);
    if s.starved < t.writesStarved {
      assert (t.writesStarved - s.starved) * b == (t.writesStarved - s.starved - 1) * b + b;
    }
  }

  function Dispatches(run: seq<At>): nat {
    if run == [] then 0 else (if run[0].ev.DispatchOne? then 1 else 0) + Dispatches(run[1..])
  }

  /** Every dispatch of the run finds a write queued and takes a read. */
  ghost predicate PassesWrites(s: State, t: Tunables, now: nat, run: seq<At>)
    requires Valid(s) && InTime(s, t, now) && Runs(s, t, now, run)
    decreases |run|
  {
    run == [] ||
    ((run[0].ev.DispatchOne? ==>
        s.write.fifo != [] && Pick(s, t, run[0].now).Some? && !Pick(s, t, run[0].now).value.write) &&
     (LaterInTime(s, t, now, run[0].now);
      StepOk(s, t, run[0].now, run[0].ev);
      StepInTime(s, t, run[0].now, run[0].ev, run[0].now);
      PassesWrites(Step(s, t, run[0].now, run[0].ev), t, run[0].now, run[1..])))
  }

  lemma {:induction false} PatienceRunsOut(s: State, t: Tunables, now: nat, run: seq<At>)
    requires Valid(s) && InTime(s, t, now) && Runs(s, t, now, run) && PassesWrites(s, t, now, run)
    ensures Dispatches(run) <= Patience(s, t)
    decreases |run|
  {
    hide Valid, InTime, Pick, Dispatch, Patience;
    if run != [] {
      var at := run[0];
      LaterInTime(s, t, now, at.now);
      StepOk(s, t, at.now, at.ev);
      StepInTime(s, t, at.now, at.ev, at.now);
      PatienceRunsOut(Step(s, t, at.now, at.ev), t, at.now, run[1..]);
      if at.ev.DispatchOne? {
        ReadCosts(s, t, at.now);
      } else {
        SamePatience(s, Step(s, t, at.now, at.ev), t);
      }
    }
  }

  /** While a write stays queued, at most (writes_starved + 1) * max(fifo_batch, 1) reads are
      dispatched before a write is, whatever is added and merged in between. */
  lemma {:induction false} StarvationBound(s: State, t: Tunables, now: nat, run: seq<At>)
    requires Valid(s) && InTime(s, t, now) && Runs(s, t, now, run) && PassesWrites(s, t, now, run)
    ensures Dispatches(run) <= (t.writesStarved + 1) * (if t.fifoBatch > 1 then t.fifoBatch else 1)
  {
    PatienceRunsOut(s, t, now, run);
    PatienceBound(s, t);
  }

  // ----- an expired write is served in time -----

  predicate OnList(f: seq<Timed>, id: nat) {
    exists i :: 0 <= i < |f| && f[i].rq.id == id
  }

  /** Request `id` heads fifo f and expires at `expire`. */
  predicate Heads(f: seq<Timed>, id: nat, expire: nat) {
    f != [] && f[0].rq.id == id && f[0].expire == expire
  }

  lemma HeadRemove(f: seq<Timed>, k: nat, id: nat, expire: nat)
    requires k < |f| && Distinct(f) && Heads(f, id, expire)
    ensures OnList(RemoveAt(f, k), id) <==> k > 0
    ensures k > 0 ==> Heads(RemoveAt(f, k), id, expire)
  {
    var g := RemoveAt(f, k);
    forall i | 0 <= i < |g| ensures g[i] == f[if i < k then i else i + 1] {}
    assert k > 0 ==> g[0].rq.id == id;
  }

  lemma HeadMerge(f: seq<Timed>, i: nat, j: nat, id: nat, expire: nat)
    requires i < |f| && j < |f| && i != j && Distinct(f) && Expiring(f) && Heads(f, id, expire)
    requires OnList(FifoMerged(f, i, j), id)
    ensures Heads(FifoMerged(f, i, j), id, expire)
  {
    if f[j].expire < f[i].expire {
      var g := FifoTaken(f, i, j);
      forall n | 0 <= n < |g|
        ensures g[n].rq == f[if (if n < i then n else n + 1) == j then i else if n < i then n else n + 1].rq
      {
      }
      assert i > 0;
      assert j > 0;
    } else {
      HeadRemove(f, j, id, expire);
    }
  }

  lemma HeadPut(s: State, r: Rq, id: nat, expire: nat)
    requires Pending(Of(s, r.write).sort, Of(s, r.write).fifo, r.write, r)
    requires var d := Of(s, r.write); Alias(d.sort, r.sector) ==> OnFifo(d.fifo, d.sort[Place(d.sort, r.sector)])
    requires r.write && Heads(s.write.fifo, id, expire) && OnList(PutSorted(s, r).write.fifo, id)
    ensures Heads(PutSorted(s, r).write.fifo, id, expire)
  {
    hide Place;
    var d := s.write;
    if Alias(d.sort, r.sector) {
      HeadRemove(d.fifo, FifoIndex(d.fifo, d.sort[Place(d.sort, r.sector)]), id, expire);
    }
  }

  lemma HeadAdd(s: State, t: Tunables, now: nat, r: Rq, id: nat, expire: nat)
    requires Valid(s) && InTime(s, t, now) && Fresh(s, r) && Heads(s.write.fifo, id, expire)
    requires OnList(Step(s, t, now, Add(r)).write.fifo, id)
    ensures Heads(Step(s, t, now, Add(r)).write.fifo, id, expire)
  {
    hide PutSorted, Place;
    AddOk(s, t, now, r);
    if r.write {
      var d, x := s.write, Timed(r, Expiry(t, true, now));
      AppendPending(d.sort, d.fifo, true, r, x.expire);
      HeadPut(s.(write := d.(fifo := d.fifo + [x])), r, id, expire);
    }
  }

  lemma HeadFrontMerge(s: State, write: bool, k: nat, r: Rq, id: nat, expire: nat)
    requires Valid(s) && EventOk(s, FrontMerge(write, k, r)) && Heads(s.write.fifo, id, expire)
    requires OnFifo(Of(s, write).fifo, Of(s, write).sort[k])
    requires var d := Unsorted(Of(s, write), k, r);
             Alias(d.sort, r.sector) ==> OnFifo(d.fifo, d.sort[Place(d.sort, r.sector)])
    requires OnList(FrontMerged(s, write, k, r).write.fifo, id)
    ensures Heads(FrontMerged(s, write, k, r).write.fifo, id, expire)
  {
    hide PutSorted, Place, Pending;
    FrontMergeOk(s, write, k, r);
    if write {
      UnsortedPending(s.write, true, k, r);
      HeadPut(s.(write := Unsorted(s.write, k, r)), r, id, expire);
    }
  }

  lemma HeadDispatch(s: State, t: Tunables, now: nat, id: nat, expire: nat)
    requires Valid(s) && Heads(s.write.fifo, id, expire) && OnList(Dispatch(s, t, now).write.fifo, id)
    ensures Heads(Dispatch(s, t, now).write.fifo, id, expire)
    ensures Pick(s, t, now).Some? ==> Pick(s, t, now).value.rq != s.write.fifo[0].rq
  {
    hide Pick;
    PickOk(s, t, now);
    if Pick(s, t, now).Some? {
      var c := Pick(s, t, now).value;
      if c.write {
        var k := SortIndex(s.write.sort, c.rq);
        HeadRemove(s.write.fifo, FifoIndex(s.write.fifo, s.write.sort[k]), id, expire);
      } else {
        assert OnFifo(s.write.fifo, s.write.fifo[0].rq);
      }
    }
  }

  /** The oldest write stays the oldest for as long as it is queued, whatever is added, merged or
      dispatched. */
  lemma HeadStays(s: State, t: Tunables, now: nat, ev: Event, id: nat, expire: nat)
    requires Valid(s) && InTime(s, t, now) && EventOk(s, ev) && Heads(s.write.fifo, id, expire)
    requires OnList(Step(s, t, now, ev).write.fifo, id)
    ensures Heads(Step(s, t, now, ev).write.fifo, id, expire)
  {
    hide ListsOk, Place, PutSorted, Dispatch, FifoMerged, Heads, OnList;
    match ev
    case Add(r) => HeadAdd(s, t, now, r, id, expire);
    case BackMerge(w, k, len) =>
      BackMergeOk(s, w, k, len);
      HeadBackMerge(s, w, k, len, id, expire);
    case FrontMerge(w, k, r) =>
      FrontMergeOk(s, w, k, r);
      HeadFrontMerge(s, w, k, r, id, expire);
    case MergeRequests(w, k, j) =>
      SwallowedOk(s, w, k, j);
      HeadSwallowed(s, w, k, j, id, expire);
    case DispatchOne => HeadDispatch(s, t, now, id, expire);
  }

  lemma HeadBackMerge(s: State, write: bool, k: nat, len: nat, id: nat, expire: nat)
    requires k < |Of(s, write).sort| && OnFifo(Of(s, write).fifo, Of(s, write).sort[k]) && Heads(s.write.fifo, id, expire)
    ensures Heads(BackMerged(s, write, k, len).write.fifo, id, expire)
  {
  }

  lemma HeadMerged(d: Dir, k: nat, j: nat, id: nat, expire: nat)
    requires DirOk(d, true) && k < |d.sort| && j < |d.sort| && k != j && Heads(d.fifo, id, expire)
    requires OnFifo(d.fifo, d.sort[k]) && OnFifo(d.fifo, d.sort[j]) && OnList(MergedRequests(d, k, j).fifo, id)
    ensures Heads(MergedRequests(d, k, j).fifo, id, expire)
  {
    hide FifoMerged;
    assert d.sort[k] != d.sort[j];
    HeadMerge(d.fifo, FifoIndex(d.fifo, d.sort[k]), FifoIndex(d.fifo, d.sort[j]), id, expire);
  }

  lemma HeadSwallowed(s: State, w: bool, k: nat, j: nat, id: nat, expire: nat)
    requires Valid(s) && k < |Of(s, w).sort| && j < |Of(s, w).sort| && k != j && Heads(s.write.fifo, id, expire)
    requires Swallows(s, w, k, j) && OnList(Swallowed(s, w, k, j).write.fifo, id)
    ensures Heads(Swallowed(s, w, k, j).write.fifo, id, expire)
  {
    hide FifoMerged, Heads, OnList, ListsOk;
    var len := Of(s, w).sort[k].len + Of(s, w).sort[j].len;
    BackMergeOk(s, w, k, len);
    HeadBackMerge(s, w, k, len, id, expire);
    if w {
      HeadMerged(BackMerged(s, w, k, len).write, k, j, id, expire);
    }
  }

  /** Every dispatch that does not take the expired oldest write uses up patience: a batch that goes on
      gets shorter, a new batch of reads counts against the reads, and a new batch of writes would
      start with that write. */
  lemma OtherCosts(s: State, t: Tunables, now: nat)
    requires Valid(s) && s.write.fifo != [] && now > s.write.fifo[0].expire && Pick(s, t, now).Some?
    requires Pick(s, t, now).value.rq != s.write.fifo[0].rq
    ensures Patience(Dispatch(s, t, now), t) < Patience(s, t)
  {
    if Pick(s, t, now).value.write {
      DispatchOk(s, t, now);
    } else {
      ReadCosts(s, t, now);
    }
  }

  /** The write `id` is queued after every event of the run. */
  ghost predicate StaysQueued(s: State, t: Tunables, now: nat, run: seq<At>, id: nat)
    requires Valid(s) && InTime(s, t, now) && Runs(s, t, now, run)
    decreases |run|
  {
    run == [] ||
    (LaterInTime(s, t, now, run[0].now);
     StepOk(s, t, run[0].now, run[0].ev);
     StepInTime(s, t, run[0].now, run[0].ev, run[0].now);
     var s1 := Step(s, t, run[0].now, run[0].ev);
     OnList(s1.write.fifo, id) && StaysQueued(s1, t, run[0].now, run[1..], id))
  }

  lemma {:induction false} ExpiredWaits(s: State, t: Tunables, now: nat, run: seq<At>, id: nat, expire: nat)
    requires Valid(s) && InTime(s, t, now) && Runs(s, t, now, run) && StaysQueued(s, t, now, run, id)
    requires Heads(s.write.fifo, id, expire) && now > expire
    ensures Dispatches(run) <= Patience(s, t)
    decreases |run|
  {
    hide Valid, InTime, Pick, Dispatch, Patience, Heads, OnList;
    if run != [] {
      var at := run[0];
      LaterInTime(s, t, now, at.now);
      StepOk(s, t, at.now, at.ev);
      StepInTime(s, t, at.now, at.ev, at.now);
      HeadStays(s, t, at.now, at.ev, id, expire);
      ExpiredWaits(Step(s, t, at.now, at.ev), t, at.now, run[1..], id, expire);
      if at.ev.DispatchOne? {
        DispatchWaits(s, t, at.now, id, expire);
      } else {
        SamePatience(s, Step(s, t, at.now, at.ev), t);
      }
    }
  }

  lemma DispatchWaits(s: State, t: Tunables, now: nat, id: nat, expire: nat)
    requires Valid(s) && Heads(s.write.fifo, id, expire) && now > expire && OnList(Dispatch(s, t, now).write.fifo, id)
    ensures Patience(Dispatch(s, t, now), t) < Patience(s, t)
  {
    hide Pick, Dispatch, Patience;
    HeadDispatch(s, t, now, id, expire);
    PickOk(s, t, now);
    assert OnFifo(s.write.fifo, s.write.fifo[0].rq);
    OtherCosts(s, t, now);
  }

  /** Once the oldest write has expired, at most (writes_starved + 1) * max(fifo_batch, 1) dispatches, of
      either direction, come before it: a run with more of them does not leave it queued. */
  lemma {:induction false} ExpiredWriteInTime(s: State, t: Tunables, now: nat, run: seq<At>)
    requires Valid(s) && InTime(s, t, now) && Runs(s, t, now, run)
    requires s.write.fifo != [] && now > s.write.fifo[0].expire
    requires Dispatches(run) > (t.writesStarved + 1) * (if t.fifoBatch > 1 then t.fifoBatch else 1)
    ensures !StaysQueued(s, t, now, run, s.write.fifo[0].rq.id)
  {
    var e := s.write.fifo[0];
    if StaysQueued(s, t, now, run, e.rq.id) {
      ExpiredWaits(s, t, now, run, e.rq.id, e.expire);
      PatienceBound(s, t);
    }
  }
}
