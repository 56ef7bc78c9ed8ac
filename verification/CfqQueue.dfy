/** struct cfq_data as an object: the service tree with its leftmost cache, the busy counters and
    the dispatch loops over the queues of module Cfq.

    The service tree is the sequence of its queues in order; its shape is arbitrary, and so are the
    readings of the clock and of the idle timer. */
module CfqQueue {
  import opened ListOps
  import C = Cfq

  datatype IoClass = Realtime | BestEffort | Idle

  /** What struct cfq_queue holds besides its requests. */
  datatype Sched = Sched(onRr: bool, rbKey: int, resid: int, sliceEnd: int, sliceNew: bool, fifoExpire: bool,
                         idleWindow: bool, dispatched: int, sync: bool, ioClass: IoClass, ioprio: int)

  datatype Tunables = Tunables(quantum: int, sliceSync: nat, sliceAsync: nat, sliceAsyncRq: int,
                               fifoExpireSync: int, fifoExpireAsync: int, idleDelay: int)

  const SLICE_SCALE := 5
  const PRIO_LISTS := 8

  function PrioSlice(t: Tunables, sync: bool, prio: int): int {
    var base := if sync then t.sliceSync else t.sliceAsync;
    base + base / SLICE_SCALE * (4 - prio)
  }

  function SliceOffset(t: Tunables, busy: int, s: Sched): int {
    (busy - 1) * (PrioSlice(t, true, 0) - PrioSlice(t, s.sync, s.ioprio))
  }

  lemma OffsetFrame(t: Tunables, busy: int, s: Sched, resid: int)
    ensures SliceOffset(t, busy, s.(resid := resid)) == SliceOffset(t, busy, s)
  {
  }

  function FifoExpire(t: Tunables, sync: bool): int {
    if sync then t.fifoExpireSync else t.fifoExpireAsync
  }

  function MaxRq(t: Tunables, s: Sched): int {
    2 * (t.sliceAsyncRq + t.sliceAsyncRq * (PRIO_LISTS - 1 - s.ioprio))
  }

  // ----- the order of service -----

  /** A queue with scheduling data a goes left of one with b. */
  predicate Before(a: Sched, b: Sched) {
    if a.ioClass.Realtime? != b.ioClass.Realtime? then a.ioClass.Realtime?
    else if a.ioClass.Idle? != b.ioClass.Idle? then b.ioClass.Idle?
    else a.rbKey < b.rbKey
  }

  predicate Members(order: seq<nat>, n: nat) {
    forall i :: 0 <= i < |order| ==> order[i] < n
  }

  /** Nobody stands behind a queue it goes before. */
  predicate InOrder(order: seq<nat>, sched: seq<Sched>)
    requires Members(order, |sched|)
  {
    forall i, j :: 0 <= i < j < |order| ==> !Before(sched[order[j]], sched[order[i]])
  }

  function Without(order: seq<nat>, q: nat): seq<nat> {
    if q in order then RemoveAt(order, C.IndexOf(order, q)) else order
  }

  /** The leftmost cache is empty or right. */
  predicate LeftOk(order: seq<nat>, left: Option<nat>) {
    left.Some? ==> order != [] && left.value == order[0]
  }

  predicate TreeOk(order: seq<nat>, left: Option<nat>, n: nat) {
    C.Distinct(order) && Members(order, n) && LeftOk(order, left)
  }

  lemma UnfoldTree(order: seq<nat>, left: Option<nat>, n: nat)
    requires TreeOk(order, left, n)
    ensures Members(order, n) && C.Distinct(order)
  {
  }

  predicate OnRrIffListed(sched: seq<Sched>, order: seq<nat>) {
    forall q :: 0 <= q < |sched| ==> (sched[q].onRr <==> q in order)
  }

  predicate SameRr(a: seq<Sched>, b: seq<Sched>) {
    |a| == |b| && forall q :: 0 <= q < |a| ==> a[q].onRr == b[q].onRr
  }

  lemma BusyFrame(a: seq<Sched>, b: seq<Sched>, reqs: seq<C.Pending>)
    requires SameRr(a, b) && OnRrIffBusy(a, reqs)
    ensures OnRrIffBusy(b, reqs)
  {
  }

  lemma RrFrame(a: seq<Sched>, b: seq<Sched>, order: seq<nat>, reqs: seq<C.Pending>)
    requires SameRr(a, b) && OnRrIffListed(a, order) && OnRrIffBusy(a, reqs)
    ensures OnRrIffListed(b, order) && OnRrIffBusy(b, reqs)
  {
  }

  lemma RekeyedRr(a: seq<Sched>, q: nat, resid: int, key: int)
    requires q < |a|
    ensures SameRr(a, a[q := a[q].(resid := resid, rbKey := key)])
  {
  }

  lemma WithoutMembers(order: seq<nat>, q: nat)
    requires C.Distinct(order)
    ensures C.Distinct(Without(order, q))
    ensures forall x :: x in Without(order, q) <==> x in order && x != q
    ensures |Without(order, q)| == |order| - (if q in order then 1 else 0)
    ensures q !in order ==> Without(order, q) == order
  {
    if q in order {
      C.RemoveAtMembers(order, C.IndexOf(order, q));
    }
  }

  // ----- every queue together -----

  ghost predicate AllOk(reqs: seq<C.Pending>) {
    forall q :: 0 <= q < |reqs| ==> C.PendingOk(reqs[q], q)
  }

  predicate OnRrIffBusy(sched: seq<Sched>, reqs: seq<C.Pending>) {
    |sched| == |reqs| && forall q :: 0 <= q < |reqs| ==> (sched[q].onRr <==> reqs[q].sort != [])
  }

  function Total(reqs: seq<C.Pending>): nat {
    if reqs == [] then 0 else |reqs[0].sort| + Total(reqs[1..])
  }

  lemma {:induction false} TotalUpdate(reqs: seq<C.Pending>, q: nat, p: C.Pending)
    requires q < |reqs|
    ensures Total(reqs[q := p]) == Total(reqs) - |reqs[q].sort| + |p.sort|
  {
    if q == 0 {
      assert reqs[q := p][1..] == reqs[1..];
    } else {
      assert reqs[q := p][1..] == reqs[1..][q - 1 := p];
      TotalUpdate(reqs[1..], q - 1, p);
    }
  }

  lemma {:induction false} TotalAppend(reqs: seq<C.Pending>, p: C.Pending)
    ensures Total(reqs + [p]) == Total(reqs) + |p.sort|
  {
    if reqs != [] {
      assert (reqs + [p])[1..] == reqs[1..] + [p];
      TotalAppend(reqs[1..], p);
    }
  }

  lemma {:induction false} TotalZero(reqs: seq<C.Pending>)
    requires forall q :: 0 <= q < |reqs| ==> reqs[q].sort == []
    ensures Total(reqs) == 0
  {
    if reqs != [] {
      TotalZero(reqs[1..]);
    }
  }

  /** How often x is queued or handed to the dispatch list. */
  function Copies(reqs: seq<C.Pending>, handed: seq<C.Rq>, x: C.Rq): nat {
    multiset(handed)[x] + if x.queue < |reqs| && x in reqs[x.queue].sort then 1 else 0
  }

  /** No request is lost or duplicated on the way from (r0, h0) to (r1, h1). */
  ghost predicate Conserved(r0: seq<C.Pending>, h0: seq<C.Rq>, r1: seq<C.Pending>, h1: seq<C.Rq>) {
    h0 <= h1 && forall x :: Copies(r1, h1, x) == Copies(r0, h0, x)
  }

  /** Handing one request over. */
  lemma HandOver(h: C.Head, reqs: seq<C.Pending>, handed: seq<C.Rq>, q: nat, rq: C.Rq)
    requires AllOk(reqs) && q < |reqs| && rq in reqs[q].sort
    ensures var reqs' := reqs[q := C.Removed(h, reqs[q], rq)];
            && AllOk(reqs') && Total(reqs') == Total(reqs) - 1
            && |reqs'[q].sort| == |reqs[q].sort| - 1
            && Conserved(reqs, handed, reqs', handed + [rq])
  {
    hide C.Removed, C.Counted, C.NextOk, C.Sorted, C.Unique;
    var p' := C.Removed(h, reqs[q], rq);
    C.RemovedOk(h, reqs[q], q, rq);
    TotalUpdate(reqs, q, p');
  }

  lemma InsertKeepsTree(order: seq<nat>, left: Option<nat>, n: nat, k: nat, q: nat)
    requires TreeOk(order, left, n) && k <= |order| && q !in order && q < n
    ensures TreeOk(InsertAt(order, k, q), if k == 0 then Some(q) else left, n)
    ensures forall x :: x in InsertAt(order, k, q) <==> x in order || x == q
  {
    C.InsertAtMembers(order, k, q);
  }

  lemma InsertKeepsOrder(order: seq<nat>, sched: seq<Sched>, k: nat, q: nat)
    requires Members(order, |sched|) && q < |sched| && q !in order && k <= |order| && InOrder(order, sched)
    requires forall i :: 0 <= i < k ==> !Before(sched[q], sched[order[i]])
    requires forall i :: k <= i < |order| ==> Before(sched[q], sched[order[i]])
    ensures Members(InsertAt(order, k, q), |sched|) && InOrder(InsertAt(order, k, q), sched)
  {
  }

  lemma RemoveKeepsOrder(order: seq<nat>, sched: seq<Sched>, q: nat)
    requires Members(order, |sched|) && InOrder(order, sched)
    ensures Members(Without(order, q), |sched|) && InOrder(Without(order, q), sched)
  {
  }

  /** The order only depends on the class and the key. */
  lemma OrderFrame(order: seq<nat>, a: seq<Sched>, b: seq<Sched>)
    requires |a| == |b| && Members(order, |a|) && InOrder(order, a)
    requires forall q :: 0 <= q < |a| && q in order ==> a[q].ioClass == b[q].ioClass && a[q].rbKey == b[q].rbKey
    ensures InOrder(order, b)
  {
    forall i, j | 0 <= i < j < |order| ensures !Before(b[order[j]], b[order[i]]) {
      assert !Before(a[order[j]], a[order[i]]);
      assert order[i] in order && order[j] in order;
    }
  }

  /** The root of the subtree that holds the places from lo up to hi. */
  function Root(choice: nat, lo: nat, hi: nat): (m: nat)
    requires lo < hi
    ensures lo <= m < hi
  {
    lo + choice % (hi - lo)
  }

  lemma TurnLeft(order: seq<nat>, sched: seq<Sched>, m: nat, s: Sched)
    requires Members(order, |sched|) && InOrder(order, sched) && m < |order| && Before(s, sched[order[m]])
    ensures forall i :: m <= i < |order| ==> Before(s, sched[order[i]])
  {
  }

  lemma TurnRight(order: seq<nat>, sched: seq<Sched>, m: nat, s: Sched)
    requires Members(order, |sched|) && InOrder(order, sched) && m < |order| && !Before(s, sched[order[m]])
    ensures forall i :: 0 <= i <= m ==> !Before(s, sched[order[i]])
  {
  }

  /** Nothing in the tree is served before, or as early as, a queue with scheduling data s. */
  predicate GoesFirst(order: seq<nat>, sched: seq<Sched>, q: nat, s: Sched)
    requires Members(order, |sched|)
  {
    forall i :: 0 <= i < |order| && order[i] != q ==> Before(s, sched[order[i]])
  }

  lemma FirstIff(order: seq<nat>, sched: seq<Sched>, k: nat, q: nat, s: Sched)
    requires Members(order, |sched|) && q !in order && k <= |order|
    requires forall i :: 0 <= i < k ==> !Before(s, sched[order[i]])
    requires forall i :: k <= i < |order| ==> Before(s, sched[order[i]])
    ensures InsertAt(order, k, q)[0] == q <==> GoesFirst(order, sched, q, s)
  {
    if k > 0 {
      assert order[0] in order;
    }
  }

  lemma FrontFrame(order: seq<nat>, a: seq<Sched>, b: seq<Sched>, q: nat, s: Sched, t: Sched)
    requires |a| == |b| && Members(order, |a|) && s.ioClass == t.ioClass && s.rbKey == t.rbKey
    requires forall x :: 0 <= x < |a| && x != q ==> a[x] == b[x]
    ensures GoesFirst(order, a, q, s) <==> GoesFirst(order, b, q, t)
  {
  }

  lemma GoesFirstWithout(order: seq<nat>, sched: seq<Sched>, q: nat, s: Sched)
    requires Members(order, |sched|) && Members(Without(order, q), |sched|) && C.Distinct(order)
    ensures GoesFirst(Without(order, q), sched, q, s) <==> GoesFirst(order, sched, q, s)
  {
    var w := Without(order, q);
    WithoutMembers(order, q);
    forall i | 0 <= i < |order| && order[i] != q && GoesFirst(w, sched, q, s) ensures Before(s, sched[order[i]]) {
      assert order[i] in w;
      var j :| 0 <= j < |w| && w[j] == order[i];
    }
    forall j | 0 <= j < |w| && GoesFirst(order, sched, q, s) ensures Before(s, sched[w[j]]) {
      assert w[j] in w;
      var i :| 0 <= i < |order| && order[i] == w[j];
    }
  }

  /** Taking q out keeps the others in order. */
  lemma TakenOutOrder(order: seq<nat>, left: Option<nat>, sched: seq<Sched>, q: nat, key: int)
    requires TreeOk(order, left, |sched|) && q < |sched| && InOrder(order, sched)
    ensures Members(Without(order, q), |sched|) && InOrder(Without(order, q), sched)
    ensures GoesFirst(Without(order, q), sched, q, sched[q].(rbKey := key)) <==>
            GoesFirst(order, sched, q, sched[q].(rbKey := key))
  {
    hide InOrder, GoesFirst, Before, Without;
    RemoveKeepsOrder(order, sched, q);
    GoesFirstWithout(order, sched, q, sched[q].(rbKey := key));
  }

  /** The residual slice plays no role in the order. */
  lemma ResidFrame(order: seq<nat>, a: seq<Sched>, q: nat, resid: int, key: int)
    requires Members(order, |a|) && q < |a| && InOrder(order, a)
    ensures var b := a[q := a[q].(resid := resid)];
            && InOrder(order, b)
            && (GoesFirst(order, b, q, b[q].(rbKey := key)) <==> GoesFirst(order, a, q, a[q].(rbKey := key)))
  {
    hide InOrder, GoesFirst, Before;
    var b := a[q := a[q].(resid := resid)];
    OrderFrame(order, a, b);
    FrontFrame(order, a, b, q, a[q].(rbKey := key), b[q].(rbKey := key));
  }

  /** Everything in the tree may be served before a queue with scheduling data s. */
  predicate GoesLast(order: seq<nat>, sched: seq<Sched>, s: Sched)
    requires Members(order, |sched|)
  {
    forall i :: 0 <= i < |order| ==> !Before(s, sched[order[i]])
  }

  lemma LastIf(order: seq<nat>, sched: seq<Sched>, k: nat, q: nat, s: Sched)
    requires Members(order, |sched|) && k <= |order|
    requires forall i :: k <= i < |order| ==> Before(s, sched[order[i]])
    ensures GoesLast(order, sched, s) ==> InsertAt(order, k, q)[|order|] == q
  {
    if k < |order| {
      assert Before(s, sched[order[k]]);
    }
  }

  /** An idle queue whose key is above that of the last queue goes to the back, and it does move. */
  lemma IdleGoesLast(order: seq<nat>, a: seq<Sched>, q: nat, resid: int, key: int)
    requires C.Distinct(order) && Members(order, |a|) && q < |a| && InOrder(order, a) && a[q].ioClass.Idle?
    requires order != [] ==> order[|order| - 1] != q && a[order[|order| - 1]].rbKey < key
    ensures var b := a[q := a[q].(resid := resid)];
            && Members(Without(order, q), |b|) && GoesLast(Without(order, q), b, b[q].(rbKey := key))
            && (q in order ==> a[q].rbKey < key)
  {
    var b, w := a[q := a[q].(resid := resid)], Without(order, q);
    WithoutMembers(order, q);
    if order != [] {
      var last := a[order[|order| - 1]];
      forall x | x in order ensures x < |a| && !Before(last, a[x]) {
        var i :| 0 <= i < |order| && order[i] == x;
      }
      forall j | 0 <= j < |w| ensures w[j] < |b| && !Before(b[q].(rbKey := key), b[w[j]]) {
        assert w[j] in w && w[j] in order && w[j] != q;
        assert b[w[j]] == a[w[j]];
      }
    }
  }

  class CfqData {
    const tun: Tunables
    const clock: nat -> int             // jiffies, at every look at it
    const timerPending: nat -> bool     // timer_pending(&idle_slice_timer), likewise
    const shape: (nat, nat, nat) -> nat // the root of every subtree of the service tree, likewise
    var looks: nat

    var reqs: seq<C.Pending>            // per queue: its requests
    var sched: seq<Sched>               // per queue: the rest
    var order: seq<nat>                 // service_tree.rb
    var left: Option<nat>               // service_tree.left
    var busyQueues: int
    var busyRtQueues: int
    var active: Option<nat>
    var rqQueued: int
    var syncFlight: int
    var head: C.Head
    var handed: seq<C.Rq>               // everything given to elv_dispatch_sort

    ghost predicate Linked()
      reads this
    {
      && TreeOk(order, left, |sched|) && busyQueues == |order| && OnRrIffListed(sched, order)
      && |sched| == |reqs| && (active.Some? ==> active.value < |sched|)
    }

    /** The reachable-state invariant. */
    ghost predicate Valid()
      reads this
    {
      Linked() && AllOk(reqs) && OnRrIffBusy(sched, reqs) && rqQueued == Total(reqs)
    }

    constructor (t: Tunables, h: C.Head, clock: nat -> int, timer: nat -> bool, shape: (nat, nat, nat) -> nat)
      ensures Valid() && reqs == [] && handed == []
    {
      tun, head, this.clock, timerPending, this.shape, looks := t, h, clock, timer, shape, 0;
      reqs, sched, order, left, handed := [], [], [], None, [];
      busyQueues, busyRtQueues, active, rqQueued, syncFlight := 0, 0, None, 0, 0;
    }

    // ----- the service tree -----

    /** cfq_rb_first: the cached queue is the first in order. */
    method RbFirst() returns (q: Option<nat>)
      requires LeftOk(order, left)
      modifies this`left
      ensures LeftOk(order, left)
      ensures q == if order == [] then None else Some(order[0])
    {
      if left.None? && order != [] {
        left := Some(order[0]);
      }
      q := left;
    }

    /** cfq_rb_erase. */
    method RbErase(q: nat)
      requires TreeOk(order, left, |sched|) && q in order
      modifies this`left, this`order
      ensures TreeOk(order, left, |sched|) && order == Without(old(order), q)
    {
      if left == Some(q) {
        left := None;
      }
      WithoutMembers(order, q);
      order := RemoveAt(order, C.IndexOf(order, q));
    }

    /** The key cfq_service_tree_add sorts the queue by. */
    method Key(q: nat, addFront: bool) returns (key: int, resid: int)
      requires q < |sched| && Members(order, |sched|)
      modifies this`looks
      ensures var s, other := sched[q], order != [] && order[|order| - 1] != q;
              key == (if s.ioClass.Idle? then
                        tun.idleDelay + (if other then sched[order[|order| - 1]].rbKey else clock(old(looks)))
                      else if addFront then 0
                      else SliceOffset(tun, busyQueues, s) + clock(old(looks)) + s.resid)
      ensures resid == if sched[q].ioClass.Idle? || addFront then sched[q].resid else 0
    {
      var s := sched[q];
      resid := s.resid;
      if s.ioClass.Idle? {
        if order != [] && order[|order| - 1] != q {
          key := tun.idleDelay + sched[order[|order| - 1]].rbKey;
        } else {
          key := tun.idleDelay + clock(looks);
          looks := looks + 1;
        }
      } else if !addFront {
        key := SliceOffset(tun, busyQueues, s) + clock(looks) + s.resid;
        looks := looks + 1;
        resid := 0;
      } else {
        key := 0;
      }
    }

    /** The walk down the tree: `first` iff it only ever turned left. */
    method Descend(q: nat, key: int) returns (k: nat, first: bool)
      requires q < |sched| && Members(order, |sched|)
      modifies this`looks
      ensures k <= |order| && (first <==> k == 0)
      ensures InOrder(order, sched) ==>
                && (forall i :: 0 <= i < k ==> !Before(sched[q].(rbKey := key), sched[order[i]]))
                && (forall i :: k <= i < |order| ==> Before(sched[q].(rbKey := key), sched[order[i]]))
    {
      hide InOrder, Before, Root;
      var s := sched[q].(rbKey := key);
      var lo: nat, hi: nat := 0, |order|;
      first := true;
      while lo < hi
        invariant lo <= hi <= |order| && (first <==> lo == 0)
        invariant InOrder(order, sched) ==>
                    && (forall i :: 0 <= i < lo ==> !Before(s, sched[order[i]]))
                    && (forall i :: hi <= i < |order| ==> Before(s, sched[order[i]]))
      {
        var parent := Root(shape(looks, lo, hi), lo, hi);
        looks := looks + 1;
        if Before(s, sched[order[parent]]) {
          if InOrder(order, sched) {
            TurnLeft(order, sched, parent, s);
          }
          hi := parent;
        } else {
          if InOrder(order, sched) {
            TurnRight(order, sched, parent, s);
          }
          lo := parent + 1;
          first := false;
        }
      }
      k := lo;
    }

    /** Link a queue that is not in the tree. */
    method Link(q: nat, key: int)
      requires TreeOk(order, left, |sched|) && q < |sched| && q !in order
      modifies this`looks, this`order, this`left, this`sched
      ensures TreeOk(order, left, |sched|) && SameRr(old(sched), sched)
      ensures forall x :: x in order <==> x in old(order) || x == q
      ensures |order| == |old(order)| + 1
      ensures sched == old(sched)[q := old(sched[q]).(rbKey := key)]
      ensures old(InOrder(order, sched)) ==>
                && InOrder(order, sched)
                && (order[0] == q <==> GoesFirst(old(order), old(sched), q, old(sched[q]).(rbKey := key)))
                && (GoesLast(old(order), old(sched), old(sched[q]).(rbKey := key)) ==> order[|order| - 1] == q)
    {
      hide InOrder, TreeOk, C.Distinct, LeftOk, GoesFirst, GoesLast;
      assert Members(order, |sched|) by { UnfoldTree(order, left, |sched|); }
      var k, first := Descend(q, key);
      InsertKeepsTree(order, left, |sched|, k, q);
      ghost var before := sched;
      sched := sched[q := sched[q].(rbKey := key)];
      if InOrder(order, before) {
        OrderFrame(order, before, sched);
        InsertKeepsOrder(order, sched, k, q);
        FirstIff(order, before, k, q, before[q].(rbKey := key));
        LastIf(order, before, k, q, before[q].(rbKey := key));
      }
      if first {
        left := Some(q);
      }
      order := InsertAt(order, k, q);
    }

    /** Give a queue its place by a new key; with the old key it stays where it is. */
    method Relink(q: nat, key: int)
      requires TreeOk(order, left, |sched|) && q < |sched|
      modifies this`looks, this`order, this`left, this`sched
      ensures TreeOk(order, left, |sched|) && SameRr(old(sched), sched)
      ensures forall x :: x in order <==> x in old(order) || x == q
      ensures |order| == |old(order)| + (if q in old(order) then 0 else 1)
      ensures sched == old(sched)[q := old(sched[q]).(rbKey := key)]
      ensures old(InOrder(order, sched)) ==> InOrder(order, sched)
      ensures old(InOrder(order, sched) && (q in order ==> sched[q].rbKey != key)) ==>
                && (order[0] == q <==> GoesFirst(old(order), old(sched), q, old(sched[q]).(rbKey := key)))
                && Members(Without(old(order), q), |old(sched)|)
                && (GoesLast(Without(old(order), q), old(sched), old(sched[q]).(rbKey := key)) ==> order[|order| - 1] == q)
    {
      hide InOrder, InsertAt, C.Distinct, LeftOk, Without, GoesFirst, GoesLast, Before;
      if InOrder(order, sched) {
        TakenOutOrder(order, left, sched, q, key);
      }
      WithoutMembers(order, q);
      if q in order {
        if key == sched[q].rbKey {
          return;
        }
        RbErase(q);
      }
      Link(q, key);
    }

    /** cfq_service_tree_add: the queue is in the tree, the cache is right, and a tree that was in
        order still is.  An idle queue goes to the back, unless it is there already; any other queue
        goes to the front of its class, or where its share of the disk puts it. */
    method ServiceTreeAdd(q: nat, addFront: bool)
      requires TreeOk(order, left, |sched|) && q < |sched|
      modifies this`looks, this`order, this`left, this`sched
      ensures TreeOk(order, left, |sched|) && SameRr(old(sched), sched)
      ensures forall x :: x in order <==> x in old(order) || x == q
      ensures |order| == |old(order)| + (if q in old(order) then 0 else 1)
      ensures old(InOrder(order, sched)) ==> InOrder(order, sched)
      ensures addFront && old(InOrder(order, sched) && !sched[q].ioClass.Idle? && (q in order ==> sched[q].rbKey != 0)) ==>
                (order[0] == q <==> GoesFirst(old(order), old(sched), q, old(sched[q]).(rbKey := 0)))
      ensures old(InOrder(order, sched) && sched[q].ioClass.Idle? && (order != [] ==> order[|order| - 1] != q)) &&
              tun.idleDelay > 0 ==>
                order[|order| - 1] == q
      ensures sched == old(sched)[q := old(sched[q]).(rbKey := sched[q].rbKey, resid := sched[q].resid)]
      ensures !sched[q].ioClass.Idle? && addFront ==> sched[q].rbKey == 0 && sched[q].resid == old(sched[q].resid)
      ensures !sched[q].ioClass.Idle? && !addFront ==>
                && sched[q].rbKey == SliceOffset(tun, busyQueues, old(sched[q])) + clock(old(looks)) + old(sched[q].resid)
                && sched[q].resid == 0
    {
      hide TreeOk, Members, InOrder, C.Distinct, LeftOk, Without, GoesFirst, GoesLast, Before, SliceOffset, SameRr;
      assert Members(order, |sched|) && C.Distinct(order) by { UnfoldTree(order, left, |sched|); }
      var key, resid := Key(q, addFront);
      ghost var before := sched;
      sched := sched[q := sched[q].(resid := resid)];
      if InOrder(order, before) {
        ResidFrame(order, before, q, resid, key);
        if before[q].ioClass.Idle? && (order != [] ==> order[|order| - 1] != q) && tun.idleDelay > 0 {
          IdleGoesLast(order, before, q, resid, key);
        }
      }
      Relink(q, key);
      RekeyedRr(before, q, resid, key);
      assert sched == before[q := before[q].(resid := resid, rbKey := key)];
    }

    /** cfq_add_cfqq_rr; its BUG_ON is the precondition. */
    method AddCfqqRr(q: nat)
      requires Linked() && q < |sched| && !sched[q].onRr
      modifies this`looks, this`order, this`left, this`sched, this`busyQueues, this`busyRtQueues
      ensures Linked() && |sched| == |old(sched)|
      ensures forall i :: 0 <= i < |sched| ==> sched[i].onRr == (old(sched[i].onRr) || i == q)
    {
      hide TreeOk, Before;
      sched := sched[q := sched[q].(onRr := true)];
      busyQueues := busyQueues + 1;
      if sched[q].ioClass.Realtime? {
        busyRtQueues := busyRtQueues + 1;
      }
      ServiceTreeAdd(q, false);
    }

    /** cfq_del_cfqq_rr; neither BUG_ON can fire. */
    method DelCfqqRr(q: nat)
      requires Linked() && q < |sched| && sched[q].onRr
      modifies this`order, this`left, this`sched, this`busyQueues, this`busyRtQueues
      ensures Linked() && |sched| == |old(sched)|
      ensures forall i :: 0 <= i < |sched| ==> sched[i].onRr == (old(sched[i].onRr) && i != q)
    {
      hide Before;
      WithoutMembers(order, q);
      sched := sched[q := sched[q].(onRr := false)];
      if q in order {
        RbErase(q);
      }
      assert busyQueues != 0;
      busyQueues := busyQueues - 1;
      if sched[q].ioClass.Realtime? {
        busyRtQueues := busyRtQueues - 1;
      }
    }

    /** cfq_remove_request: an emptied queue leaves the service tree. */
    method RemoveRequest(q: nat, rq: C.Rq)
      requires Linked() && q < |reqs| && sched[q].onRr && rq in reqs[q].sort && rq in reqs[q].fifo
      requires if rq.sync then reqs[q].sync > 0 else reqs[q].async > 0
      modifies this`reqs, this`order, this`left, this`sched, this`busyQueues, this`busyRtQueues, this`rqQueued
      ensures Linked()
      ensures reqs == old(reqs)[q := C.Removed(head, old(reqs[q]), rq)] && rqQueued == old(rqQueued) - 1
      ensures forall i :: 0 <= i < |sched| && i != q ==> sched[i].onRr == old(sched[i].onRr)
      ensures sched[q].onRr <==> reqs[q].sort != []
    {
      hide TreeOk, C.Choose;
      var p := reqs[q];
      var k, f := C.IndexOf(p.sort, rq), C.IndexOf(p.fifo, rq);
      var next := if p.next == Some(rq) then C.FindNext(head, p.sort, k) else p.next;
      reqs := reqs[q := C.Pending(RemoveAt(p.sort, k), RemoveAt(p.fifo, f), next, p.sync - C.One(rq, C.Sync),
                                  p.async - C.One(rq, C.Async), p.meta - C.One(rq, C.Meta))];
      if sched[q].onRr && reqs[q].sort == [] {
        DelCfqqRr(q);
      }
      rqQueued := rqQueued - 1;
    }

    /** cfq_dispatch_insert: the request leaves its queue for the dispatch list. */
    method DispatchInsert(q: nat, rq: C.Rq)
      requires Linked() && q < |reqs| && sched[q].onRr && rq in reqs[q].sort && rq in reqs[q].fifo
      requires if rq.sync then reqs[q].sync > 0 else reqs[q].async > 0
      modifies this`reqs, this`order, this`left, this`sched, this`busyQueues, this`busyRtQueues, this`rqQueued,
               this`syncFlight, this`handed
      ensures Linked()
      ensures reqs == old(reqs)[q := C.Removed(head, old(reqs[q]), rq)] && handed == old(handed) + [rq]
      ensures rqQueued == old(rqQueued) - 1
      ensures forall i :: 0 <= i < |sched| && i != q ==> sched[i].onRr == old(sched[i].onRr)
      ensures sched[q].onRr <==> reqs[q].sort != []
    {
      hide C.Removed, TreeOk;
      RemoveRequest(q, rq);
      sched := sched[q := sched[q].(dispatched := sched[q].dispatched + 1)];
      handed := handed + [rq];
      if sched[q].sync {
        syncFlight := syncFlight + 1;
      }
    }

    /** The retry loop of cfq_add_rq_rb: a request starting at the same sector is dispatched. */
    method DispatchAlias(q: nat, rq: C.Rq)
      requires Linked() && q < |reqs| && C.Loose(reqs[q], q, rq) && (reqs[q].sort != [] ==> sched[q].onRr)
      requires C.Alias(reqs[q].sort, rq.sector).Some? ==>
                 forall x :: x in reqs[q].sort ==> if x.sync then reqs[q].sync > 0 else reqs[q].async > 0
      modifies this`reqs, this`order, this`left, this`sched, this`busyQueues, this`busyRtQueues, this`rqQueued,
               this`syncFlight, this`handed
      ensures Linked()
      ensures var alias := C.Alias(old(reqs[q].sort), rq.sector);
              if alias.None? then reqs == old(reqs) && handed == old(handed) && rqQueued == old(rqQueued)
              else && alias.value in old(reqs[q].sort)
                   && reqs == old(reqs)[q := C.Removed(head, old(reqs[q]), alias.value)]
                   && handed == old(handed) + [alias.value] && rqQueued == old(rqQueued) - 1
      ensures forall i :: 0 <= i < |sched| && i != q ==> sched[i].onRr == old(sched[i].onRr)
    {
      hide C.Removed, TreeOk, C.Alias, C.Sorted, C.Position;
      ghost var p := reqs[q];
      var alias := C.Alias(reqs[q].sort, rq.sector);
      C.AliasFinds(p.sort, rq.sector);
      while alias.Some?
        invariant Linked() && |reqs| == |old(reqs)| && alias == C.Alias(reqs[q].sort, rq.sector)
        invariant alias.Some? ==>
                    reqs == old(reqs) && handed == old(handed) && rqQueued == old(rqQueued) && sched == old(sched)
        invariant alias.None? ==>
                    var was := C.Alias(p.sort, rq.sector);
                    if was.None? then reqs == old(reqs) && handed == old(handed) && rqQueued == old(rqQueued)
                    else && was.value in p.sort && reqs == old(reqs)[q := C.Removed(head, p, was.value)]
                         && handed == old(handed) + [was.value] && rqQueued == old(rqQueued) - 1
        invariant forall i :: 0 <= i < |sched| && i != q ==> sched[i].onRr == old(sched[i].onRr)
        decreases alias.Some?
      {
        C.RemovedMembers(head, p, alias.value);
        DispatchInsert(q, alias.value);
        C.NoAlias(p, reqs[q], rq, alias.value);
        alias := C.Alias(reqs[q].sort, rq.sector);
      }
    }

    /** cfq_add_rq_rb. */
    method AddRqRb(q: nat, rq: C.Rq)
      requires Linked() && q < |reqs| && C.Loose(reqs[q], q, rq) && (reqs[q].sort != [] ==> sched[q].onRr)
      requires reqs[q].sync >= C.Tally(reqs[q].sort, C.Sync) && reqs[q].async >= C.Tally(reqs[q].sort, C.Async)
      modifies this
      ensures Linked() && head == old(head) && active == old(active)
      ensures reqs == old(reqs)[q := C.Placed(head, old(reqs[q]), rq)]
      ensures var alias := C.Alias(old(reqs[q].sort), rq.sector);
              && handed == old(handed) + (if alias.Some? then [alias.value] else [])
              && rqQueued == old(rqQueued) - (if alias.Some? then 1 else 0)
      ensures forall i :: 0 <= i < |sched| && i != q ==> sched[i].onRr == old(sched[i].onRr)
      ensures sched[q].onRr
    {
      hide C.Removed, TreeOk, C.Alias, C.Sorted, C.Tally, Before, C.Position, C.Choose;
      forall x | x in reqs[q].sort
        ensures if x.sync then C.CountIn(reqs[q], rq).sync > 0 else C.CountIn(reqs[q], rq).async > 0
      {
        C.TallyPositive(reqs[q].sort, x, if x.sync then C.Sync else C.Async);
      }
      reqs := reqs[q := C.CountIn(reqs[q], rq)];
      DispatchAlias(q, rq);
      var p1 := reqs[q];
      reqs := reqs[q := p1.(sort := InsertAt(p1.sort, C.Position(p1.sort, rq.sector), rq))];
      if !sched[q].onRr {
        AddCfqqRr(q);
      }
      reqs := reqs[q := reqs[q].(next := C.ChooseReq(head, reqs[q].next, Some(rq)))];
      assert reqs[q].next.Some?;
    }

    // ----- slices -----

    predicate SliceUsed(s: Sched, now: int) {
      !s.sliceNew && now >= s.sliceEnd
    }

    /** cfq_slice_expired: the active queue is active no more.  If it timed out it banks what is left of
        its slice; on the tree, the bank goes into its new key. */
    method SliceExpired(timedOut: bool)
      requires Linked()
      modifies this`looks, this`order, this`left, this`sched, this`active
      ensures Linked() && SameRr(old(sched), sched) && active == None
      ensures old(active).None? ==> sched == old(sched) && order == old(order)
      ensures old(active).Some? ==>
                var (q, s) := (old(active).value, old(sched[active.value]));
                var bank := if timedOut && !s.sliceNew then s.sliceEnd - clock(old(looks)) else s.resid;
                var look := if timedOut && !s.sliceNew then old(looks) + 1 else old(looks);
                && sched == old(sched)[q := s.(rbKey := sched[q].rbKey, resid := sched[q].resid)]
                && (!s.onRr ==> sched[q].rbKey == s.rbKey && sched[q].resid == bank && order == old(order))
                && (s.onRr && !s.ioClass.Idle? ==>
                      sched[q].rbKey == SliceOffset(tun, busyQueues, s) + clock(look) + bank && sched[q].resid == 0)
    {
      hide TreeOk, Before, InOrder, GoesFirst, SliceOffset;
      if active.Some? {
        var q := active.value;
        if timedOut && !sched[q].sliceNew {
          OffsetFrame(tun, busyQueues, sched[q], sched[q].sliceEnd - clock(looks));
          sched := sched[q := sched[q].(resid := sched[q].sliceEnd - clock(looks))];
          looks := looks + 1;
        }
        if sched[q].onRr {
          ServiceTreeAdd(q, false);
        }
        active := None;
      }
    }

    /** cfq_preempt_queue; its BUG_ON is the precondition. */
    method PreemptQueue(q: nat)
      requires Linked() && q < |sched| && sched[q].onRr
      modifies this`looks, this`order, this`left, this`sched, this`active
      ensures Linked() && SameRr(old(sched), sched) && active == None
      ensures sched[q].sliceNew && sched[q].sliceEnd == 0 && (!sched[q].ioClass.Idle? ==> sched[q].rbKey == 0)
    {
      hide TreeOk, Before;
      SliceExpired(true);
      ServiceTreeAdd(q, true);
      sched := sched[q := sched[q].(sliceEnd := 0, sliceNew := true)];
    }

    /** cfq_set_active_queue: the first queue of the tree, if there is one. */
    method SetActiveQueue() returns (q: Option<nat>)
      requires Linked()
      modifies this`left, this`sched, this`active
      ensures Linked() && SameRr(old(sched), sched)
      ensures q == active == if order == [] then None else Some(order[0])
    {
      q := None;
      if order != [] {
        q := RbFirst();
        var s := sched[q.value];
        sched := sched[q.value := s.(sliceEnd := 0, fifoExpire := false, sliceNew := true)];
      }
      active := q;
    }

    /** cfq_select_queue: a queue it returns has requests. */
    method SelectQueue() returns (q: Option<nat>)
      requires Valid()
      modifies this`looks, this`order, this`left, this`sched, this`active
      ensures Valid()
      ensures q.Some? ==> q.value < |reqs| && reqs[q.value].sort != []
      ensures q.Some? ==> q == active && (q == old(active) || q.value == order[0])
      ensures q.None? && order != [] ==> active == old(active) && active.Some? && reqs[active.value].sort == []
    {
      hide TreeOk, Before, AllOk, Total;
      q := active;
      if q.Some? {
        var s := sched[q.value];
        var now := clock(looks);
        looks := looks + 1;
        if SliceUsed(s, now) {
          SliceExpired(false);
        } else if !s.ioClass.Realtime? && busyRtQueues != 0 {
          SliceExpired(true);
        } else if reqs[q.value].sort != [] {
          return;
        } else if timerPending(looks) || (s.dispatched != 0 && s.idleWindow) {
          q := None;
          return;
        } else {
          SliceExpired(false);
        }
      }
      q := SetActiveQueue();
    }

    // ----- dispatching -----

    /** One request handed over, in a state where the invariant holds. */
    method Dispatch(q: nat, rq: C.Rq)
      requires Valid() && q < |reqs| && rq in reqs[q].sort
      modifies this`reqs, this`order, this`left, this`sched, this`busyQueues, this`busyRtQueues, this`rqQueued,
               this`syncFlight, this`handed
      ensures Valid() && rqQueued == old(rqQueued) - 1 && |reqs| == |old(reqs)|
      ensures |reqs[q].sort| == |old(reqs[q].sort)| - 1
      ensures Conserved(old(reqs), old(handed), reqs, handed) && handed == old(handed) + [rq]
    {
      hide C.Removed, TreeOk, OnRrIffListed, Conserved, C.Sorted, C.Unique, C.NextOk, C.Tally;
      HandOver(head, reqs, handed, q, rq);
      C.TallyPositive(reqs[q].sort, rq, if rq.sync then C.Sync else C.Async);
      DispatchInsert(q, rq);
    }

    /** cfq_check_fifo: the oldest request, once per slice and if it has expired. */
    method CheckFifo(q: nat) returns (rq: Option<C.Rq>)
      requires q < |sched| && |sched| == |reqs|
      modifies this`looks, this`sched
      ensures SameRr(old(sched), sched)
      ensures sched == old(sched)[q := old(sched[q]).(fifoExpire := true)]
      ensures rq.Some? <==>
                && !old(sched[q].fifoExpire) && reqs[q].fifo != []
                && clock(old(looks)) >= reqs[q].fifo[0].start + FifoExpire(tun, sched[q].sync)
      ensures rq.Some? ==> rq.value == reqs[q].fifo[0]
    {
      rq := None;
      assert sched[q].fifoExpire ==> sched == sched[q := sched[q].(fifoExpire := true)];
      if !sched[q].fifoExpire {
        sched := sched[q := sched[q].(fifoExpire := true)];
        if reqs[q].fifo != [] {
          var oldest := reqs[q].fifo[0];
          if clock(looks) >= oldest.start + FifoExpire(tun, sched[q].sync) {
            rq := Some(oldest);
          }
          looks := looks + 1;
        }
      }
    }

    /** The request to dispatch next: the expired one, else the cached one. */
    method PickRequest(q: nat) returns (rq: C.Rq)
      requires Valid() && q < |reqs| && reqs[q].sort != []
      modifies this`looks, this`sched
      ensures Valid() && rq in reqs[q].sort && rq.queue == q
      ensures reqs[q].next == Some(rq) || (reqs[q].fifo != [] && reqs[q].fifo[0] == rq)
    {
      hide TreeOk, Total, C.Sorted, C.Unique, C.Counted;
      var next := CheckFifo(q);
      if next.None? {
        next := reqs[q].next;
      }
      rq := next.value;
    }

    /** __cfq_dispatch_requests; its BUG_ON is the precondition. */
    method DispatchFrom(q: nat, max: int) returns (n: nat)
      requires Valid() && q < |reqs| && reqs[q].sort != []
      modifies this
      ensures Valid() && n >= 1 && (n <= max || n == 1) && |reqs| == |old(reqs)| && head == old(head)
      ensures rqQueued == old(rqQueued) - n
      ensures Conserved(old(reqs), old(handed), reqs, handed) && |handed| == |old(handed)| + n
      ensures forall i :: |old(handed)| <= i < |handed| ==> handed[i].queue == q
    {
      hide TreeOk, Before, Total, MaxRq, Copies, AllOk;
      n := 0;
      var more := true;
      while more
        invariant Valid() && |reqs| == |old(reqs)| && head == old(head) && (more || n >= 1)
        invariant more ==> reqs[q].sort != []
        invariant n <= max || n <= 1
        invariant more ==> n == 0 || n < max
        invariant forall i :: |old(handed)| <= i < |handed| ==> handed[i].queue == q
        invariant rqQueued == old(rqQueued) - n && |handed| == |old(handed)| + n
        invariant Conserved(old(reqs), old(handed), reqs, handed)
        decreases |reqs[q].sort|, more
      {
        var rq := PickRequest(q);
        Dispatch(q, rq);
        n := n + 1;
        more := reqs[q].sort != [] && !(!sched[q].ioClass.Realtime? && busyRtQueues != 0) && n < max;
      }
      if busyQueues > 1 && ((!sched[q].sync && n >= MaxRq(tun, sched[q])) || sched[q].ioClass.Idle?) {
        sched := sched[q := sched[q].(sliceEnd := clock(looks) + 1)];
        looks := looks + 1;
        SliceExpired(false);
      }
    }

    /** __cfq_forced_dispatch_cfqq: every request of the queue leaves, so its fifo is empty too. */
    method ForcedDispatchQueue(q: nat) returns (n: nat)
      requires Valid() && q < |reqs|
      modifies this`reqs, this`order, this`left, this`sched, this`busyQueues, this`busyRtQueues, this`rqQueued,
               this`syncFlight, this`handed
      ensures Valid() && |reqs| == |old(reqs)| && reqs[q].sort == [] && reqs[q].fifo == []
      ensures n == |old(reqs[q].sort)| && rqQueued == old(rqQueued) - n
      ensures Conserved(old(reqs), old(handed), reqs, handed) && |handed| == |old(handed)| + n
    {
      hide TreeOk, Before, Total, Copies;
      n := 0;
      while reqs[q].next.Some?
        invariant Valid() && |reqs| == |old(reqs)|
        invariant n + |reqs[q].sort| == |old(reqs[q].sort)|
        invariant rqQueued == old(rqQueued) - n && |handed| == |old(handed)| + n
        invariant Conserved(old(reqs), old(handed), reqs, handed)
        decreases |reqs[q].sort|
      {
        Dispatch(q, reqs[q].next.value);
        n := n + 1;
      }
      C.EmptyTogether(reqs[q], q);
    }

    /** cfq_forced_dispatch: every queue is drained, the tree is empty and no queue is busy. */
    method ForcedDispatch() returns (n: nat)
      requires Valid()
      modifies this
      ensures Valid() && Drained() && |reqs| == |old(reqs)|
      ensures n == old(Total(reqs)) && |handed| == |old(handed)| + n
      ensures Conserved(old(reqs), old(handed), reqs, handed)
    {
      hide Before, Copies, AllOk;
      n := 0;
      var first := RbFirst();
      while first.Some?
        invariant Valid() && |reqs| == |old(reqs)|
        invariant first == if order == [] then None else Some(order[0])
        invariant n + Total(reqs) == old(Total(reqs)) && |handed| == |old(handed)| + n
        invariant Conserved(old(reqs), old(handed), reqs, handed)
        decreases Total(reqs)
      {
        var k := ForcedDispatchQueue(first.value);
        n := n + k;
        first := RbFirst();
      }
      SliceExpired(false);
      assert busyQueues == 0;
      TotalZero(reqs);
    }

    /** Nothing is pending anywhere. */
    ghost predicate Drained()
      reads this
    {
      order == [] && busyQueues == 0 && rqQueued == 0 && forall q :: 0 <= q < |reqs| ==> reqs[q].sort == []
    }

    /** cfq_dispatch_requests. */
    method DispatchRequests(force: bool) returns (n: nat)
      requires Valid()
      modifies this
      ensures Valid() && |reqs| == |old(reqs)|
      ensures Conserved(old(reqs), old(handed), reqs, handed)
      ensures |handed| == |old(handed)| + n && rqQueued == old(rqQueued) - n
      ensures force ==> Drained()
    {
      hide Before, Copies, AllOk, TreeOk;
      n := 0;
      if busyQueues == 0 {
        TotalZero(reqs);
        return;
      }
      if force {
        n := ForcedDispatch();
        return;
      }
      var q: Option<nat> := SelectQueue();
      while q.Some?
        invariant Valid() && |reqs| == |old(reqs)|
        invariant q.Some? ==> q.value < |reqs| && reqs[q.value].sort != []
        invariant rqQueued == old(rqQueued) - n && |handed| == |old(handed)| + n
        invariant Conserved(old(reqs), old(handed), reqs, handed)
        decreases Total(reqs)
      {
        var s := sched[q.value];
        var max := if s.ioClass.Idle? then 1 else tun.quantum;
        if (s.dispatched >= max && busyQueues > 1) || (syncFlight != 0 && !s.sync) {
          return;
        }
        var k := DispatchFrom(q.value, max);
        n := n + k;
        q := SelectQueue();
      }
    }

    // ----- new queues, new requests and merges -----

    /** A process gets its queue. */
    method AddQueue(s: Sched)
      requires Valid() && !s.onRr
      modifies this`reqs, this`sched
      ensures Valid() && reqs == old(reqs) + [C.EMPTY] && sched == old(sched) + [s]
    {
      hide Before, Total, C.Sorted, C.Unique, C.Distinct;
      TotalAppend(reqs, C.EMPTY);
      EmptyOk(|reqs|);
      reqs := reqs + [C.EMPTY];
      sched := sched + [s];
    }

    /** What a completion does to the active queue. */
    method CheckSlice(q: nat)
      requires Valid() && active == Some(q)
      modifies this`looks, this`order, this`left, this`sched, this`active
      ensures Valid() && SameRr(old(sched), sched)
      ensures var s := old(sched[q]);
              var end := if s.sliceNew then PrioSlice(tun, s.sync, s.ioprio) + clock(old(looks)) else s.sliceEnd;
              && sched == old(sched)[q := s.(sliceNew := false, sliceEnd := end,
                                             rbKey := sched[q].rbKey, resid := sched[q].resid)]
              && active == (if s.ioClass.Idle? || clock(if s.sliceNew then old(looks) + 1 else old(looks)) >= end
                            then None else Some(q))
    {
      hide OnRrIffListed, OnRrIffBusy, AllOk, Total, PrioSlice, SliceOffset, TreeOk;
      StartSlice(q);
      var now := clock(looks);
      looks := looks + 1;
      if SliceUsed(sched[q], now) || sched[q].ioClass.Idle? {
        ghost var started := sched;
        SliceExpired(true);
        BusyFrame(started, sched, reqs);
        assert sched == started[q := started[q].(rbKey := sched[q].rbKey, resid := sched[q].resid)];
      }
    }

    /** The first completion in a slice fixes its end. */
    method StartSlice(q: nat)
      requires Valid() && active == Some(q)
      modifies this`looks, this`sched
      ensures Valid() && SameRr(old(sched), sched) && looks == old(looks) + (if old(sched[q].sliceNew) then 1 else 0)
      ensures var s := old(sched[q]);
              var end := if s.sliceNew then PrioSlice(tun, s.sync, s.ioprio) + clock(old(looks)) else s.sliceEnd;
              sched == old(sched)[q := s.(sliceNew := false, sliceEnd := end)]
    {
      hide TreeOk, OnRrIffListed, OnRrIffBusy, AllOk, Total, PrioSlice;
      ghost var before := sched;
      if sched[q].sliceNew {
        var s := sched[q];
        sched := sched[q := s.(sliceEnd := PrioSlice(tun, s.sync, s.ioprio) + clock(looks), sliceNew := false)];
        looks := looks + 1;
      }
      RrFrame(before, sched, order, reqs);
    }

    /** cfq_completed_request for a request of queue q.  The active queue gets its slice with the first
        completion, and expires iff its slice is used up or it is idle. */
    method CompletedRequest(q: nat)
      requires Valid() && q < |sched|
      modifies this`looks, this`order, this`left, this`sched, this`active, this`syncFlight
      ensures Valid() && SameRr(old(sched), sched)
      ensures syncFlight == old(syncFlight) - (if old(sched[q].sync) then 1 else 0)
      ensures forall i :: 0 <= i < |sched| && i != q ==> sched[i] == old(sched[i])
      ensures sched[q].dispatched == old(sched[q].dispatched) - 1
      ensures old(active) != Some(q) ==>
                active == old(active) && order == old(order) && sched[q] == old(sched[q]).(dispatched := sched[q].dispatched)
      ensures old(active) == Some(q) ==>
                var s := old(sched[q]);
                var end := if s.sliceNew then PrioSlice(tun, s.sync, s.ioprio) + clock(old(looks)) else s.sliceEnd;
                && sched[q] == s.(dispatched := s.dispatched - 1, sliceNew := false, sliceEnd := end,
                                  rbKey := sched[q].rbKey, resid := sched[q].resid)
                && active == (if s.ioClass.Idle? || clock(if s.sliceNew then old(looks) + 1 else old(looks)) >= end
                              then None else Some(q))
    {
      hide TreeOk, OnRrIffListed, OnRrIffBusy, AllOk, Total, PrioSlice;
      ghost var before := sched;
      sched := sched[q := sched[q].(dispatched := sched[q].dispatched - 1)];
      RrFrame(before, sched, order, reqs);
      if sched[q].sync {
        syncFlight := syncFlight - 1;
      }
      if active == Some(q) {
        CheckSlice(q);
      }
    }

    /** Priority changes and idle windows change the rest of a queue's data at any time, even while it is
        on the tree; activating a request moves the head. */
    method Record(q: nat, s: Sched, last: nat)
      requires Valid() && q < |sched| && s.onRr == sched[q].onRr
      modifies this`sched, this`head
      ensures Valid() && sched == old(sched)[q := s] && head == old(head).(last := last)
    {
      sched := sched[q := s];
      head := head.(last := last);
    }

    /** cfq_insert_request, where `preempt` is what cfq_should_preempt answers. */
    method InsertRequest(q: nat, rq: C.Rq, preempt: bool)
      requires Valid() && q < |reqs| && rq.queue == q && C.Absent(reqs[q].sort, rq.id)
      modifies this
      ensures Valid() && head == old(head)
      ensures reqs == old(reqs)[q := C.Inserted(head, old(reqs[q]), rq)]
      ensures var alias := C.Alias(old(reqs[q].sort), rq.sector);
              handed == old(handed) + if alias.Some? then [alias.value] else []
    {
      hide C.Placed, C.Sorted, C.Alias, TreeOk, Before, C.Tally, Total;
      C.InsertedOk(head, reqs[q], q, rq);
      TotalUpdate(reqs, q, C.Inserted(head, reqs[q], rq));
      assert rq in C.Inserted(head, reqs[q], rq).sort;
      AddRqRb(q, rq);
      reqs := reqs[q := reqs[q].(fifo := reqs[q].fifo + [rq], meta := reqs[q].meta + C.One(rq, C.Meta))];
      rqQueued := rqQueued + 1;
      assert reqs == old(reqs)[q := C.Inserted(head, old(reqs[q]), rq)];
      if active != Some(q) && preempt {
        PreemptQueue(q);
      }
    }

    /** cfq_merged_request for a front merge that turned the request `was` into `rq`. */
    method FrontMerged(q: nat, was: C.Rq, rq: C.Rq)
      requires Valid() && q < |reqs| && was in reqs[q].sort && rq == was.(sector := rq.sector, len := rq.len)
      modifies this
      ensures Valid() && was.queue == q && head == old(head)
      ensures reqs == old(reqs)[q := C.Repositioned(head, old(reqs[q]), was, rq)]
      ensures var alias := C.Alias(RemoveAt(old(reqs[q].sort), C.IndexOf(old(reqs[q].sort), was)), rq.sector);
              handed == old(handed) + if alias.Some? then [alias.value] else []
    {
      hide C.Placed, C.Sorted, C.Alias, TreeOk, Before, C.Tally, Total, C.Rewritten, C.Loose, RemoveAt;
      C.RepositionedOk(head, reqs[q], q, was, rq);
      C.TakenOutLoose(reqs[q], q, was, rq);
      C.TakenOutFrame(reqs[q], was, rq);
      C.TallyRemove(reqs[q].sort, C.IndexOf(reqs[q].sort, was), C.Sync);
      C.TallyRemove(reqs[q].sort, C.IndexOf(reqs[q].sort, was), C.Async);
      TotalUpdate(reqs, q, C.Repositioned(head, reqs[q], was, rq));
      assert rq in C.Repositioned(head, reqs[q], was, rq).sort;
      reqs := reqs[q := C.TakenOut(C.Rewritten(reqs[q], was, rq), rq)];
      AddRqRb(q, rq);
      assert reqs == old(reqs)[q := C.Repositioned(head, old(reqs[q]), was, rq)];
    }

    /** attempt_merge and cfq_merged_requests; `rq` ends up as C.Swallowing(rq, next). */
    method MergedRequests(q: nat, rq: C.Rq, next: C.Rq)
      requires Valid() && q < |reqs| && rq in reqs[q].sort && next in reqs[q].sort && rq != next
      modifies this`reqs, this`order, this`left, this`sched, this`busyQueues, this`busyRtQueues, this`rqQueued
      ensures Valid() && rq.queue == q
      ensures reqs == old(reqs)[q := C.MergedRequests(head, old(reqs[q]), rq, next)]
    {
      hide C.Sorted, C.Unique, C.Removed, C.Rewritten, C.FifoMoved, C.Tally, TreeOk, Before, Total;
      var merged := C.Swallowing(rq, next);
      C.MergedRequestsOk(head, reqs[q], q, rq, next);
      TotalUpdate(reqs, q, C.MergedRequests(head, reqs[q], rq, next));
      C.SwallowingOk(reqs[q], q, rq, next);
      var p := C.Rewritten(reqs[q], rq, merged);
      C.TallyPositive(p.sort, next, if next.sync then C.Sync else C.Async);
      reqs := reqs[q := p.(fifo := C.FifoMoved(p.fifo, merged, next))];
      RemoveRequest(q, next);
      assert reqs == old(reqs)[q := C.MergedRequests(head, old(reqs[q]), rq, next)];
    }
  }

  lemma EmptyOk(q: nat)
    ensures C.PendingOk(C.EMPTY, q)
  {
  }

  // ----- nothing is lost -----

  /** Copies changes by one for `more` and by minus one for everything in `less`. */
  ghost predicate Exchanged(r0: seq<C.Pending>, h0: seq<C.Rq>, r1: seq<C.Pending>, h1: seq<C.Rq>,
                            less: set<C.Rq>, more: C.Rq)
  {
    forall x :: Copies(r1, h1, x) ==
                Copies(r0, h0, x) - (if x in less then 1 else 0) + (if x == more then 1 else 0)
  }

  /** Inserting adds the new request and loses nothing, not even an alias. */
  lemma {:induction false} InsertConserves(h: C.Head, reqs: seq<C.Pending>, handed: seq<C.Rq>, q: nat, rq: C.Rq)
    requires AllOk(reqs) && q < |reqs| && rq.queue == q && C.Absent(reqs[q].sort, rq.id)
    ensures var alias := C.Alias(reqs[q].sort, rq.sector);
            Exchanged(reqs, handed, reqs[q := C.Inserted(h, reqs[q], rq)],
                      handed + (if alias.Some? then [alias.value] else []), {}, rq)
  {
    hide C.Inserted, C.Sorted, C.Unique, C.NextOk, C.Counted;
    C.InsertedOk(h, reqs[q], q, rq);
    C.AliasFinds(reqs[q].sort, rq.sector);
  }

  /** A front merge exchanges the request for its extended self and loses nothing else. */
  lemma {:induction false} FrontMergeConserves(h: C.Head, reqs: seq<C.Pending>, handed: seq<C.Rq>, q: nat, was: C.Rq, rq: C.Rq)
    requires AllOk(reqs) && q < |reqs| && was in reqs[q].sort && rq == was.(sector := rq.sector, len := rq.len)
    ensures var alias := C.Alias(RemoveAt(reqs[q].sort, C.IndexOf(reqs[q].sort, was)), rq.sector);
            && was.queue == q
            && Exchanged(reqs, handed, reqs[q := C.Repositioned(h, reqs[q], was, rq)],
                         handed + (if alias.Some? then [alias.value] else []), {was}, rq)
  {
    hide C.Repositioned, C.Sorted, C.NextOk, C.Counted, C.Alias;
    C.RepositionedOk(h, reqs[q], q, was, rq);
  }

  /** A request merge exchanges two requests for one that covers both. */
  lemma {:induction false} MergeConserves(h: C.Head, reqs: seq<C.Pending>, handed: seq<C.Rq>, q: nat, rq: C.Rq, next: C.Rq)
    requires AllOk(reqs) && q < |reqs| && rq in reqs[q].sort && next in reqs[q].sort && rq != next
    ensures rq.queue == q
    ensures Exchanged(reqs, handed, reqs[q := C.MergedRequests(h, reqs[q], rq, next)], handed, {rq, next},
                      C.Swallowing(rq, next))
  {
    hide C.MergedRequests, C.Sorted, C.NextOk, C.Counted;
    C.MergedRequestsOk(h, reqs[q], q, rq, next);
  }
}
