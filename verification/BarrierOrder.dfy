/** Barrier ordering by draining: in every run, what was queued before a barrier is over
    before any command of the barrier's sequence is issued, and nothing queued after it is
    issued before the barrier has been ended. */
module BarrierOrder {
  import opened ListOps
  import opened Barrier
  import opened BarrierSequence

  predicate Odd(n: nat) {
    n % 2 == 1
  }

  predicate In(s: Queue) {
    s.ordseq != NO_STAGE
  }

  // ----- the invariant -----

  /** The recorded epochs agree with the order of submission. */
  ghost predicate History(subs: seq<nat>, barriers: seq<nat>) {
    && (forall i :: 0 <= i < |subs| ==> subs[i] <= |barriers|)
    && (forall k :: 0 <= k < |barriers| ==> barriers[k] < |subs| && subs[barriers[k]] == k)
    && (forall k, i :: 0 <= k < |barriers| && 0 <= i < |subs| ==> (i > barriers[k] <==> subs[i] > k))
  }

  ghost predicate GoodFs(subs: seq<nat>, barriers: seq<nat>, rq: Request) {
    && rq.Fs?
    && (rq.color <==> Odd(rq.epoch))
    && rq.epoch <= |barriers|
    && (forall i :: i in rq.bios ==> i < |subs| && subs[i] == rq.epoch)
    && (rq.barrier ==> rq.epoch < |barriers| && rq.bios == [barriers[rq.epoch]])
  }

  /** What the stage of a request should be, told from its epoch and not its colour. */
  function Rank(inSeq: bool, left: nat, rq: Request): nat {
    match rq
    case PreFlush => PREFLUSH
    case BarRq => BAR
    case PostFlush => POSTFLUSH
    case Special(_) => DRAIN
    case Fs(_, _, _, _, _, _, epoch) => if inSeq && epoch < left then DRAIN else DONE
  }

  predicate Before(inSeq: bool, left: nat, a: Request, b: Request) {
    !a.Special? && !b.Special? ==>
      && Rank(inSeq, left, a) <= Rank(inSeq, left, b)
      && (a.Fs? && b.Fs? ==> a.epoch <= b.epoch && (a.barrier ==> a.epoch < b.epoch))
  }

  predicate Sorted(inSeq: bool, left: nat, d: seq<Entry>) {
    forall i, j :: 0 <= i < j < |d| ==> Before(inSeq, left, d[i].rq, d[j].rq)
  }

  predicate IsBar(e: Entry, k: nat) {
    e.rq.Fs? && e.rq.barrier && e.rq.epoch == k
  }

  predicate HasBar(d: seq<Entry>, k: nat) {
    exists i :: 0 <= i < |d| && IsBar(d[i], k)
  }

  ghost predicate DispatchOk(s: Queue, e: Entry) {
    && (e.rq.Fs? ==>
          && GoodFs(s.subs, s.barriers, e.rq)
          && (!In(s) ==> e.rq.epoch >= s.left && (e.started ==> e.rq.epoch == s.left && !e.rq.barrier))
          && (In(s) ==> && e.rq.epoch + 1 >= s.left
                        && (e.rq.epoch < s.left ==> !e.rq.barrier && e.soft && !s.ordseq.drain)
                        && (e.rq.epoch >= s.left ==> !e.started)))
    && (StageOf(e.rq) != NO_STAGE ==>
          In(s) && e.soft && (e.started ==> CurSeq(s.ordseq) == Rank(true, s.left, e.rq)))
  }

  ghost predicate DriverOk(s: Queue, e: Entry) {
    && e.started
    && (e.rq.Fs? ==>
          && GoodFs(s.subs, s.barriers, e.rq) && !e.rq.barrier
          && (!In(s) ==> e.rq.epoch == s.left)
          && (In(s) ==> e.rq.epoch + 1 == s.left && !s.ordseq.drain))
    && (StageOf(e.rq) != NO_STAGE ==> In(s) && CurSeq(s.ordseq) == Rank(true, s.left, e.rq))
  }

  ghost predicate ElevatorOk(s: Queue, e: Entry) {
    GoodFs(s.subs, s.barriers, e.rq) && !e.rq.barrier && e.rq.epoch == |s.barriers| && !e.started && !e.soft
  }

  ghost predicate OrigOk(s: Queue) {
    In(s) ==>
      && s.orig.Some? && GoodFs(s.subs, s.barriers, s.orig.value)
      && s.orig.value.barrier && s.orig.value.epoch + 1 == s.left
      && s.ordered.byDrain && !s.ordered.byTag && !s.origStarted
  }

  function Counted(): Entry -> int {
    (e: Entry) => Account(e)
  }

  ghost predicate Globals(s: Queue) {
    && History(s.subs, s.barriers)
    && s.left <= |s.barriers|
    && (s.color <==> Odd(|s.barriers|))
    && DrainMode(s.nextOrdered)
    && !s.warned
    && s.inFlight == Sum(s.driver, Counted())
    && (forall k :: s.left <= k < |s.barriers| ==> HasBar(s.dispatch, k))
    && OrigOk(s)
  }

  ghost predicate Lists(s: Queue) {
    && (forall e :: e in s.elevator ==> ElevatorOk(s, e))
    && (forall e :: e in s.dispatch ==> DispatchOk(s, e))
    && (forall e :: e in s.driver ==> DriverOk(s, e))
  }

  ghost predicate Ordered(s: Queue) {
    Globals(s) && Lists(s) && Sorted(In(s), s.left, s.dispatch)
  }

  // ----- list lemmas -----

  lemma SortedInsert(inSeq: bool, left: nat, d: seq<Entry>, p: nat, e: Entry)
    requires p <= |d| && Sorted(inSeq, left, d)
    requires forall i :: 0 <= i < p ==> Before(inSeq, left, d[i].rq, e.rq)
    requires forall i :: p <= i < |d| ==> Before(inSeq, left, e.rq, d[i].rq)
    ensures Sorted(inSeq, left, InsertAt(d, p, e))
  {
    var t := InsertAt(d, p, e);
    forall i, j | 0 <= i < j < |t| ensures Before(inSeq, left, t[i].rq, t[j].rq) {
      assert t[i] == if i < p then d[i] else if i == p then e else d[i - 1];
      assert t[j] == if j < p then d[j] else if j == p then e else d[j - 1];
    }
  }

  lemma SortedRemove(inSeq: bool, left: nat, d: seq<Entry>, p: nat)
    requires p < |d| && Sorted(inSeq, left, d)
    ensures Sorted(inSeq, left, RemoveAt(d, p))
  {
    var t := RemoveAt(d, p);
    forall i, j | 0 <= i < j < |t| ensures Before(inSeq, left, t[i].rq, t[j].rq) {
      assert t[i] == if i < p then d[i] else d[i + 1];
      assert t[j] == if j < p then d[j] else d[j + 1];
    }
  }

  lemma HasBarInsert(d: seq<Entry>, p: nat, e: Entry, k: nat)
    requires p <= |d| && HasBar(d, k)
    ensures HasBar(InsertAt(d, p, e), k)
  {
    var i :| 0 <= i < |d| && IsBar(d[i], k);
    var t := InsertAt(d, p, e);
    assert t[if i < p then i else i + 1] == d[i];
  }

  lemma HasBarRemove(d: seq<Entry>, p: nat, k: nat)
    requires p < |d| && HasBar(d, k) && !IsBar(d[p], k)
    ensures HasBar(RemoveAt(d, p), k)
  {
    var i :| 0 <= i < |d| && IsBar(d[i], k);
    var t := RemoveAt(d, p);
    assert t[if i < p then i else i - 1] == d[i];
  }

  lemma MemberInsert<T>(d: seq<T>, p: nat, e: T, x: T)
    requires p <= |d|
    ensures x in InsertAt(d, p, e) <==> x == e || x in d
  {
    assert d == d[..p] + d[p..];
  }

  lemma MemberRemove<T>(d: seq<T>, p: nat, x: T)
    requires p < |d| && x in RemoveAt(d, p)
    ensures x in d
  {
  }

  // ----- one bit of colour is enough -----

  predicate Late(s: Queue, e: Entry) {
    e.rq.Fs? && e.rq.epoch >= s.left
  }

  /** Up to and including the first request queued after the barrier in progress, the
      colour tells on which side of the barrier a request belongs. */
  lemma ColourTells(s: Queue, m: nat)
    requires In(s) && Ordered(s) && m < |s.dispatch|
    requires forall j :: 0 <= j < m ==> !Late(s, s.dispatch[j])
    ensures ReqSeq(s.orig, s.dispatch[m].rq) == Rank(true, s.left, s.dispatch[m].rq)
  {
    var e := s.dispatch[m];
    assert DispatchOk(s, e);
    if Late(s, e) && s.left < |s.barriers| {
      assert HasBar(s.dispatch, s.left);
      var b :| 0 <= b < |s.dispatch| && IsBar(s.dispatch[b], s.left);
      assert Late(s, s.dispatch[b]);
      if m < b {
        assert Before(true, s.left, e.rq, s.dispatch[b].rq);
      }
    }
  }

  lemma RequeuePosSpec(s: Queue, rq: Request, from: nat)
    requires from <= |s.dispatch|
    ensures var p := RequeuePos(s, rq, from);
            && from <= p <= |s.dispatch|
            && (forall i :: from <= i < p ==> ReqSeq(s.orig, s.dispatch[i].rq) < ReqSeq(s.orig, rq))
            && (p < |s.dispatch| ==> ReqSeq(s.orig, rq) <= ReqSeq(s.orig, s.dispatch[p].rq))
    decreases |s.dispatch| - from
  {
  }

  /** A request that can be requeued during a sequence. */
  predicate Requeueable(s: Queue, rq: Request) {
    && (rq.Fs? ==> rq.epoch + 1 == s.left && !rq.barrier)
    && ReqSeq(s.orig, rq) == Rank(true, s.left, rq)
  }

  lemma {:induction false} NoneLate(s: Queue, rq: Request, i: nat)
    requires In(s) && Ordered(s) && Requeueable(s, rq) && i <= RequeuePos(s, rq, 0)
    ensures i <= |s.dispatch|
    ensures forall j :: 0 <= j < i ==> !Late(s, s.dispatch[j])
  {
    RequeuePosSpec(s, rq, 0);
    if i > 0 {
      NoneLate(s, rq, i - 1);
      ColourTells(s, i - 1);
    }
  }

  /** Requeueing by colour keeps the dispatch list in barrier order. */
  lemma RequeueSorted(s: Queue, e: Entry)
    requires In(s) && Ordered(s) && Requeueable(s, e.rq)
    ensures RequeuePos(s, e.rq, 0) <= |s.dispatch|
    ensures Sorted(true, s.left, InsertAt(s.dispatch, RequeuePos(s, e.rq, 0), e))
  {
    var p, d := RequeuePos(s, e.rq, 0), s.dispatch;
    RequeuePosSpec(s, e.rq, 0);
    NoneLate(s, e.rq, p);
    forall i | 0 <= i < p ensures Before(true, s.left, d[i].rq, e.rq) {
      ColourTells(s, i);
    }
    if p < |d| {
      ColourTells(s, p);
    }
    forall i | p <= i < |d| ensures Before(true, s.left, e.rq, d[i].rq) {
      assert DispatchOk(s, d[i]);
      if p < i {
        assert Before(true, s.left, d[p].rq, d[i].rq);
      }
    }
    SortedInsert(true, s.left, d, p, e);
  }

  // ----- dispatching from the elevator -----

  lemma SortPosTail(d: seq<Entry>, rq: Request, boundary: nat, n: nat)
    requires rq.Fs? && n <= |d|
    ensures SortPos(d, rq, boundary, n) <= n
    ensures forall i :: SortPos(d, rq, boundary, n) <= i < n ==> !StopsSort(d[i], rq)
    decreases n
  {
  }

  /** Everything elv_dispatch_sort walks past belongs to the current epoch. */
  lemma WalkedPast(s: Queue, p: nat, i: nat, rq: Request)
    requires Ordered(s) && rq.Fs? && p <= i < |s.dispatch|
    requires forall j :: p <= j < |s.dispatch| ==> !StopsSort(s.dispatch[j], rq)
    ensures s.dispatch[i].rq.Fs? && !s.dispatch[i].rq.barrier && s.dispatch[i].rq.epoch == |s.barriers|
  {
    var e := s.dispatch[i];
    assert !StopsSort(e, rq);
    assert DispatchOk(s, e);
    if s.left < |s.barriers| {
      var k := |s.barriers| - 1;
      assert HasBar(s.dispatch, k);
      var b :| 0 <= b < |s.dispatch| && IsBar(s.dispatch[b], k);
      assert b < p;
      assert Before(In(s), s.left, s.dispatch[b].rq, e.rq);
    }
  }

  lemma DispatchSorted(s: Queue, p: nat, e: Entry)
    requires Ordered(s) && ElevatorOk(s, e) && p <= |s.dispatch|
    requires forall j :: p <= j < |s.dispatch| ==> !StopsSort(s.dispatch[j], e.rq)
    ensures Sorted(In(s), s.left, InsertAt(s.dispatch, p, e))
  {
    var d := s.dispatch;
    forall i | 0 <= i < p ensures Before(In(s), s.left, d[i].rq, e.rq) {
      assert DispatchOk(s, d[i]);
    }
    forall i | p <= i < |d| ensures Before(In(s), s.left, e.rq, d[i].rq) {
      WalkedPast(s, p, i, e.rq);
    }
    SortedInsert(In(s), s.left, d, p, e);
  }

  // ----- completing stages -----

  /** No proxy has been issued and not yet completed. */
  predicate NoActiveProxy(s: Queue) {
    && (forall e :: e in s.dispatch && StageOf(e.rq) != NO_STAGE ==> !e.started)
    && (forall e :: e in s.driver ==> StageOf(e.rq) == NO_STAGE)
  }

  predicate Drained(s: Queue) {
    && (forall e :: e in s.dispatch && e.rq.Fs? ==> e.rq.epoch >= s.left)
    && (forall e :: e in s.driver ==> !e.rq.Fs?)
  }

  lemma NotOutstanding(s: Queue, e: Entry)
    requires StageOf(e.rq) != NO_STAGE && Balanced(s, ALL_STAGES)
    ensures e !in s.dispatch && e !in s.driver
  {
    SumNonNegative(s.dispatch, IsRq(e.rq));
    SumNonNegative(s.driver, IsRq(e.rq));
    if e in s.dispatch {
      var k :| 0 <= k < |s.dispatch| && s.dispatch[k] == e;
      SumMember(s.dispatch, k, IsRq(e.rq));
    }
    if e in s.driver {
      var k :| 0 <= k < |s.driver| && s.driver[k] == e;
      SumMember(s.driver, k, IsRq(e.rq));
    }
  }

  /** The state after completing `stages`, seen only through what the order invariant reads. */
  predicate StagesAdded(s: Queue, stages: Stages, t: Queue) {
    && SeqOnly(s, t) && t.inFlight == s.inFlight && t.warned == s.warned
    && (t.ordseq == Or(s.ordseq, stages) || (t.ordseq == NO_STAGE && Or(s.ordseq, stages) == ALL_STAGES))
  }

  lemma CompleteSeqAdds(s: Queue, stages: Stages, error: int)
    requires s.ordseq.started && !s.origStarted
    ensures StagesAdded(s, stages, CompleteSeq(s, stages, error))
  {
  }

  lemma StagesKeepLists(s: Queue, stages: Stages, t: Queue)
    requires In(s) && Ordered(s) && NoActiveProxy(s) && s.ordseq.started
    requires Balanced(s, Or(s.ordseq, stages)) && (stages.drain ==> Drained(s))
    requires StagesAdded(s, stages, t)
    ensures Lists(t)
  {
    forall e | e in t.elevator ensures ElevatorOk(t, e) {
      assert ElevatorOk(s, e);
    }
    forall e | e in t.dispatch ensures DispatchOk(t, e) {
      assert DispatchOk(s, e);
      if t.ordseq == NO_STAGE && StageOf(e.rq) != NO_STAGE {
        NotOutstanding(s, e);
      }
    }
    forall e | e in t.driver ensures DriverOk(t, e) {
      assert DriverOk(s, e);
    }
  }

  lemma StagesKeepOrder(s: Queue, stages: Stages, t: Queue)
    requires In(s) && Ordered(s) && NoActiveProxy(s) && s.ordseq.started
    requires Balanced(s, Or(s.ordseq, stages)) && (stages.drain ==> Drained(s))
    requires StagesAdded(s, stages, t)
    ensures Ordered(t)
  {
    StagesKeepLists(s, stages, t);
    var d := t.dispatch;
    forall i, j | 0 <= i < j < |d| ensures Before(In(t), t.left, d[i].rq, d[j].rq) {
      assert Before(true, s.left, d[i].rq, d[j].rq);
      assert DispatchOk(t, d[i]) && DispatchOk(t, d[j]);
    }
  }

  // ----- the driver gives a request up -----

  /** The driver no longer holds driver[k]. */
  function Released(s: Queue, k: nat): Queue
    requires k < |s.driver|
  {
    s.(driver := RemoveAt(s.driver, k), inFlight := s.inFlight - Account(s.driver[k]))
  }

  lemma ReleasedOrdered(s: Queue, k: nat)
    requires k < |s.driver| && Ordered(s)
    ensures Ordered(Released(s, k)) && DriverOk(s, s.driver[k])
  {
    var t := Released(s, k);
    SumRemove(s.driver, k, Counted());
    forall e | e in t.driver ensures DriverOk(t, e) {
      assert DriverOk(s, e);
    }
    assert forall e :: e in t.dispatch ==> DispatchOk(s, e) && DispatchOk(t, e);
    assert forall e :: e in t.elevator ==> ElevatorOk(s, e) && ElevatorOk(t, e);
  }

  lemma NothingInFlight(s: Queue)
    requires Ordered(s) && s.inFlight == 0
    ensures forall e :: e in s.driver ==> !e.rq.Fs? && !e.rq.BarRq?
  {
    forall e | e in s.driver ensures !e.rq.Fs? && !e.rq.BarRq? {
      var k :| 0 <= k < |s.driver| && s.driver[k] == e;
      SumMember(s.driver, k, Counted());
      assert DriverOk(s, e);
    }
  }

  /** When elv_completed_request sees nothing in flight and a head that must wait, the
      drain stage really is over. */
  lemma DrainIsOver(s: Queue)
    requires In(s) && Ordered(s) && s.inFlight == 0
    requires s.dispatch == [] || ReqSeq(s.orig, s.dispatch[0].rq) > DRAIN
    ensures Drained(s)
  {
    NothingInFlight(s);
    if s.dispatch != [] {
      ColourTells(s, 0);
      forall e | e in s.dispatch && e.rq.Fs? ensures e.rq.epoch >= s.left {
        var i :| 0 <= i < |s.dispatch| && s.dispatch[i] == e;
        assert i > 0 ==> Before(true, s.left, s.dispatch[0].rq, e.rq);
      }
    }
  }

  lemma CompletedOrdered(s: Queue, e: Entry)
    requires Ordered(s.(inFlight := s.inFlight - Account(e))) && Integrity(s)
    ensures Ordered(Completed(s, e))
  {
    var s2 := s.(inFlight := s.inFlight - Account(e));
    if Completed(s, e) != s2 {
      var stages := NO_STAGE.(drain := true);
      DrainIsOver(s2);
      assert forall x :: x in s2.dispatch ==> DispatchOk(s2, x);
      assert forall x :: x in s2.driver ==> DriverOk(s2, x);
      CompleteSeqAdds(s2, stages, 0);
      assert forall x :: Outstanding(s2, x) == Outstanding(s, x);
      StagesKeepOrder(s2, stages, CompleteSeq(s2, stages, 0));
    }
  }

  /** The only active proxy is the one of the current stage. */
  lemma OnlyActiveProxy(s: Queue, k: nat)
    requires k < |s.driver| && Ordered(s) && Integrity(s) && StageOf(s.driver[k].rq) != NO_STAGE
    ensures NoActiveProxy(Released(s, k)) && In(s) && Balanced(Released(s, k), Or(s.ordseq, StageOf(s.driver[k].rq)))
    ensures CurSeq(s.ordseq) > DRAIN
  {
    var t, p := Released(s, k), s.driver[k].rq;
    assert DriverOk(s, s.driver[k]);
    DriverRemoved(s, k, PreFlush);
    DriverRemoved(s, k, BarRq);
    DriverRemoved(s, k, PostFlush);
    assert forall x :: Outstanding(t, x) == Outstanding(s.(driver := t.driver), x);
    forall e | e in t.dispatch && e.rq == p ensures false {
      var i :| 0 <= i < |t.dispatch| && t.dispatch[i] == e;
      SumMember(t.dispatch, i, IsRq(p));
      SumNonNegative(t.driver, IsRq(p));
    }
    forall e | e in t.driver && e.rq == p ensures false {
      var i :| 0 <= i < |t.driver| && t.driver[i] == e;
      SumMember(t.driver, i, IsRq(p));
      SumNonNegative(t.dispatch, IsRq(p));
    }
    forall e | e in t.dispatch && StageOf(e.rq) != NO_STAGE ensures !e.started {
      assert DispatchOk(s, e);
    }
    forall e | e in t.driver ensures StageOf(e.rq) == NO_STAGE {
      assert DriverOk(s, e);
    }
  }

  lemma OrigUnshown(s: Queue)
    requires Ordered(s) && In(s)
    ensures !s.origStarted
  {
  }

  lemma EndOrdered(s: Queue, k: nat, error: int)
    requires k < |s.driver| && Ordered(s) && Integrity(s)
    ensures Ordered(EndAt(s, k, error))
  {
    hide Globals, Lists, Sorted, CompleteSeq, NoActiveProxy;
    var s1, e, t := s.(driver := RemoveAt(s.driver, k)), s.driver[k], Released(s, k);
    ReleasedOrdered(s, k);
    if StageOf(e.rq) == NO_STAGE {
      DriverRemoved(s, k, PreFlush);
      DriverRemoved(s, k, BarRq);
      DriverRemoved(s, k, PostFlush);
      EndPlain(s1, e, error);
    } else {
      OnlyActiveProxy(s, k);
      assert !t.origStarted by { OrigUnshown(t); }
      assert Completed(s1, e) == t;
      CompleteSeqAdds(t, StageOf(e.rq), error);
      StagesKeepOrder(t, StageOf(e.rq), CompleteSeq(t, StageOf(e.rq), error));
    }
  }

  lemma EndPlain(s: Queue, e: Entry, error: int)
    requires StageOf(e.rq) == NO_STAGE && Integrity(s) && Ordered(s.(inFlight := s.inFlight - Account(e)))
    ensures Ordered(End(s, e, error))
  {
    var s1 := if e.rq.Fs? then s.(ended := s.ended + e.rq.bios) else s;
    OrderedFrame(s.(inFlight := s.inFlight - Account(e)), s1.(inFlight := s1.inFlight - Account(e)));
    assert forall x :: Outstanding(s1, x) == Outstanding(s, x);
    CompletedOrdered(s1, e);
  }

  lemma OrderedFrame(s: Queue, t: Queue)
    requires Ordered(s) && SeqOnly(s, t) && t.ordseq == s.ordseq && t.inFlight == s.inFlight && t.warned == s.warned
    ensures Ordered(t)
  {
    assert forall e :: e in t.dispatch ==> DispatchOk(s, e) && DispatchOk(t, e);
    assert forall e :: e in t.elevator ==> ElevatorOk(s, e) && ElevatorOk(t, e);
    assert forall e :: e in t.driver ==> DriverOk(s, e) && DriverOk(t, e);
  }

  // ----- requeue, dequeue, dispatch, merge -----

  lemma ListsAfterInsert(s: Queue, p: nat, e: Entry)
    requires Lists(s) && p <= |s.dispatch| && DispatchOk(s, e)
    ensures Lists(InsertDispatch(s, p, e))
  {
    var t := InsertDispatch(s, p, e);
    forall x | x in t.dispatch ensures DispatchOk(t, x) {
      MemberInsert(s.dispatch, p, e, x);
      assert DispatchOk(s, x);
    }
    assert forall x :: x in t.elevator ==> ElevatorOk(s, x) && ElevatorOk(t, x);
    assert forall x :: x in t.driver ==> DriverOk(s, x) && DriverOk(t, x);
  }

  lemma InsertOrdered(s: Queue, p: nat, e: Entry)
    requires Ordered(s) && p <= |s.dispatch| && DispatchOk(s, e)
    requires Sorted(In(s), s.left, InsertAt(s.dispatch, p, e))
    ensures Ordered(InsertDispatch(s, p, e))
  {
    ListsAfterInsert(s, p, e);
    forall k | s.left <= k < |s.barriers| ensures HasBar(InsertAt(s.dispatch, p, e), k) {
      HasBarInsert(s.dispatch, p, e, k);
    }
  }

  lemma RequeueOrdered(s: Queue, k: nat)
    requires k < |s.driver| && Ordered(s)
    ensures Ordered(RequeueAt(s, k))
  {
    var t, e := Released(s, k), Entry(s.driver[k].rq, false, true);
    ReleasedOrdered(s, k);
    if In(t) {
      RequeueSorted(t, e);
      InsertOrdered(t, RequeuePos(t, e.rq, 0), e);
    } else {
      forall i | 0 <= i < |t.dispatch| ensures Before(false, t.left, e.rq, t.dispatch[i].rq) {
        assert DispatchOk(t, t.dispatch[i]);
      }
      SortedInsert(false, t.left, t.dispatch, 0, e);
      InsertOrdered(t, 0, e);
    }
  }

  lemma DequeueOrdered(s: Queue, k: nat)
    requires k < |s.dispatch| && s.dispatch[k].started && Ordered(s)
    ensures Ordered(DequeueAt(s, k))
  {
    var t, e := DequeueAt(s, k), s.dispatch[k];
    assert DispatchOk(s, e);
    SumAppend(s.driver, e, Counted());
    SortedRemove(In(s), s.left, s.dispatch, k);
    forall j | t.left <= j < |t.barriers| ensures HasBar(t.dispatch, j) {
      HasBarRemove(s.dispatch, k, j);
    }
    forall x | x in t.dispatch ensures DispatchOk(t, x) {
      MemberRemove(s.dispatch, k, x);
      assert DispatchOk(s, x);
    }
    forall x | x in t.driver ensures DriverOk(t, x) {
      assert x in s.driver ==> DriverOk(s, x);
    }
    assert forall x :: x in t.elevator ==> ElevatorOk(s, x) && ElevatorOk(t, x);
  }

  lemma DispatchOrdered(s: Queue, k: nat, sorted: bool, boundary: nat)
    requires k < |s.elevator| && s.elevator[k].rq.Fs? && Ordered(s)
    ensures Ordered(DispatchFrom(s, k, sorted, boundary))
  {
    var e := s.elevator[k];
    assert ElevatorOk(s, e);
    SortPosTail(s.dispatch, e.rq, boundary, |s.dispatch|);
    var p := if sorted then SortPos(s.dispatch, e.rq, boundary, |s.dispatch|) else |s.dispatch|;
    var t := s.(elevator := RemoveAt(s.elevator, k));
    forall x | x in t.elevator ensures ElevatorOk(t, x) {
      MemberRemove(s.elevator, k, x);
      assert ElevatorOk(s, x);
    }
    assert forall x :: x in t.dispatch ==> DispatchOk(s, x) && DispatchOk(t, x);
    assert forall x :: x in t.driver ==> DriverOk(s, x) && DriverOk(t, x);
    assert Ordered(t);
    DispatchSorted(t, p, e);
    InsertOrdered(t, p, e);
  }

  lemma MergeOrdered(s: Queue, k: nat, j: nat)
    requires k < |s.elevator| && j < |s.elevator| && s.elevator[k].rq.Fs? && s.elevator[j].rq.Fs? && Ordered(s)
    ensures Ordered(MergeInto(s, k, j))
  {
    var t, e := MergeInto(s, k, j), s.elevator[k];
    var e1 := e.(rq := e.rq.(bios := e.rq.bios + s.elevator[j].rq.bios));
    assert ElevatorOk(s, e) && ElevatorOk(s, s.elevator[j]);
    forall x | x in t.elevator ensures ElevatorOk(t, x) {
      MemberRemove(s.elevator[k := e1], j, x);
      assert x == e1 || x in s.elevator;
      assert x in s.elevator ==> ElevatorOk(s, x);
    }
    assert forall x :: x in t.dispatch ==> DispatchOk(s, x) && DispatchOk(t, x);
    assert forall x :: x in t.driver ==> DriverOk(s, x) && DriverOk(t, x);
  }

  lemma SpecialOrdered(s: Queue, front: bool)
    requires Ordered(s)
    ensures Ordered(InsertDispatch(s, if front then 0 else |s.dispatch|, Entry(Special(false), false, true)))
  {
    var p, e := if front then 0 else |s.dispatch|, Entry(Special(false), false, true);
    SortedInsert(In(s), s.left, s.dispatch, p, e);
    InsertOrdered(s, p, e);
  }

  // ----- new bios -----

  lemma HistoryGrows(s: Queue)
    requires History(s.subs, s.barriers)
    ensures History(s.subs + [|s.barriers|], s.barriers)
    ensures History(s.subs + [|s.barriers|], s.barriers + [|s.subs|])
  {
    var subs := s.subs + [|s.barriers|];
    var barriers := s.barriers + [|s.subs|];
    forall k, i | 0 <= k < |s.barriers| && 0 <= i < |subs|
      ensures i > s.barriers[k] <==> subs[i] > k
    {
    }
    forall k, i | 0 <= k < |barriers| && 0 <= i < |subs|
      ensures i > barriers[k] <==> subs[i] > k
    {
    }
  }

  /** The queue after a bio was recorded, as an ordinary one or as a barrier. */
  function Recorded(s: Queue, barrier: bool): Queue {
    if barrier then Submit(s).(color := !s.color, barriers := s.barriers + [|s.subs|]) else Submit(s)
  }

  lemma RecordedLists(s: Queue, barrier: bool)
    requires Ordered(s) && (barrier ==> s.elevator == [])
    ensures Lists(Recorded(s, barrier))
  {
    var t := Recorded(s, barrier);
    forall x | x in t.elevator ensures ElevatorOk(t, x) {
      assert ElevatorOk(s, x);
    }
    forall x | x in t.dispatch ensures DispatchOk(t, x) {
      assert DispatchOk(s, x);
    }
    forall x | x in t.driver ensures DriverOk(t, x) {
      assert DriverOk(s, x);
    }
  }

  lemma AddSortedOrdered(s: Queue, write: bool, sector: nat)
    requires Ordered(s)
    ensures Ordered(Apply(s, AddSorted(write, sector)))
  {
    var t := Apply(s, AddSorted(write, sector));
    HistoryGrows(s);
    RecordedLists(s, false);
    var r := Recorded(s, false);
    assert forall x :: x in r.elevator ==> ElevatorOk(r, x) && ElevatorOk(t, x);
    assert forall x :: x in r.dispatch ==> DispatchOk(r, x) && DispatchOk(t, x);
    assert forall x :: x in r.driver ==> DriverOk(r, x) && DriverOk(t, x);
  }

  lemma MergeBioOrdered(s: Queue, k: nat, front: bool, sector: nat)
    requires Ordered(s) && k < |s.elevator| && s.elevator[k].rq.Fs?
    ensures Ordered(Apply(s, MergeBio(k, front, sector)))
  {
    var t := Apply(s, MergeBio(k, front, sector));
    HistoryGrows(s);
    RecordedLists(s, false);
    var r := Recorded(s, false);
    assert ElevatorOk(r, s.elevator[k]);
    assert forall x :: x in r.elevator ==> ElevatorOk(r, x) && ElevatorOk(t, x);
    assert forall x :: x in r.dispatch ==> DispatchOk(r, x) && DispatchOk(t, x);
    assert forall x :: x in r.driver ==> DriverOk(r, x) && DriverOk(t, x);
    forall x | x in t.elevator ensures ElevatorOk(t, x) {
      assert x in s.elevator || x == s.elevator[k].(rq := Merged(s.elevator[k].rq, |s.subs|, front, sector));
    }
  }

  lemma AddTailOrdered(s: Queue, barrier: bool, empty: bool, write: bool, sector: nat)
    requires Ordered(s) && s.elevator == []
    ensures Ordered(InsertDispatch(Recorded(s, barrier), |s.dispatch|, Entry(NewFs(s, barrier, empty, write, sector), false, true)))
  {
    var r, e := Recorded(s, barrier), Entry(NewFs(s, barrier, empty, write, sector), false, true);
    var d, t := s.dispatch, InsertDispatch(r, |s.dispatch|, e);
    HistoryGrows(s);
    RecordedLists(s, barrier);
    ListsAfterInsert(r, |d|, e);
    forall i | 0 <= i < |d| ensures Before(In(s), s.left, d[i].rq, e.rq) {
      assert DispatchOk(s, d[i]);
    }
    SortedInsert(In(s), s.left, d, |d|, e);
    forall k | t.left <= k < |t.barriers| ensures HasBar(t.dispatch, k) {
      if k < |s.barriers| {
        HasBarInsert(d, |d|, e, k);
      } else {
        assert IsBar(t.dispatch[|d|], k);
      }
    }
  }

  // ----- starting a sequence -----

  lemma HeadBarrier(s: Queue)
    requires Ordered(s) && !In(s) && s.dispatch != [] && s.dispatch[0].rq.Fs?
    ensures s.dispatch[0].rq.epoch == s.left
  {
    var e := s.dispatch[0];
    assert DispatchOk(s, e);
    if s.left < |s.barriers| {
      assert HasBar(s.dispatch, s.left);
      var b :| 0 <= b < |s.dispatch| && IsBar(s.dispatch[b], s.left);
      assert b > 0 ==> Before(false, s.left, e.rq, s.dispatch[b].rq);
    }
  }

  predicate CanStart(s: Queue) {
    !In(s) && s.dispatch != [] && s.dispatch[0].rq.Fs? && s.dispatch[0].rq.barrier
  }

  lemma StartLists(s: Queue)
    requires Ordered(s) && CanStart(s)
    ensures Lists(StartState(s))
    ensures forall i :: 1 <= i < |s.dispatch| ==> DispatchOk(StartState(s), s.dispatch[i])
  {
    var t, d := StartState(s), s.dispatch;
    HeadBarrier(s);
    forall i | 1 <= i < |d| ensures DispatchOk(t, d[i]) {
      assert DispatchOk(s, d[i]);
      assert Before(false, s.left, d[0].rq, d[i].rq);
    }
    forall x | x in t.dispatch ensures DispatchOk(t, x) {
      var p := Proxies(t.ordered);
      if x !in p {
        assert x in d[1..];
      }
    }
    assert forall x :: x in t.elevator ==> ElevatorOk(s, x) && ElevatorOk(t, x);
    assert forall x :: x in t.driver ==> DriverOk(s, x) && DriverOk(t, x);
  }

  lemma SortedConcat(inSeq: bool, left: nat, a: seq<Entry>, b: seq<Entry>)
    requires Sorted(inSeq, left, a) && Sorted(inSeq, left, b)
    requires forall i, j :: 0 <= i < |a| && 0 <= j < |b| ==> Before(inSeq, left, a[i].rq, b[j].rq)
    ensures Sorted(inSeq, left, a + b)
  {
    var t := a + b;
    forall i, j | 0 <= i < j < |t| ensures Before(inSeq, left, t[i].rq, t[j].rq) {
      assert t[i] == if i < |a| then a[i] else b[i - |a|];
      assert t[j] == if j < |a| then a[j] else b[j - |a|];
    }
  }

  lemma RestSorted(s: Queue)
    requires Ordered(s) && CanStart(s)
    ensures Sorted(true, s.left + 1, s.dispatch[1..])
    ensures forall e :: e in s.dispatch[1..] ==> e.rq.Special? || (e.rq.Fs? && e.rq.epoch > s.left)
  {
    var d, rest := s.dispatch, s.dispatch[1..];
    HeadBarrier(s);
    forall j | 0 <= j < |rest| ensures rest[j].rq.Special? || (rest[j].rq.Fs? && rest[j].rq.epoch > s.left) {
      assert rest[j] == d[j + 1] && DispatchOk(s, d[j + 1]);
      assert Before(false, s.left, d[0].rq, d[j + 1].rq);
    }
    forall i, j | 0 <= i < j < |rest| ensures Before(true, s.left + 1, rest[i].rq, rest[j].rq) {
      assert Before(false, s.left, d[i + 1].rq, d[j + 1].rq);
    }
  }

  lemma ProxiesSorted(m: Mode, left: nat)
    ensures Sorted(true, left, Proxies(m))
    ensures forall e :: e in Proxies(m) ==> StageOf(e.rq) != NO_STAGE
  {
  }

  lemma StartSorted(s: Queue)
    requires Ordered(s) && CanStart(s)
    ensures Sorted(true, s.left + 1, StartState(s).dispatch)
  {
    var p := Proxies(StartState(s).ordered);
    RestSorted(s);
    ProxiesSorted(StartState(s).ordered, s.left + 1);
    SortedConcat(true, s.left + 1, p, s.dispatch[1..]);
  }

  lemma HeadOk(s: Queue)
    requires Ordered(s) && s.dispatch != []
    ensures DispatchOk(s, s.dispatch[0])
  {
  }

  lemma StartStateOrdered(s: Queue)
    requires Ordered(s) && CanStart(s)
    ensures Ordered(StartState(s)) && NoActiveProxy(StartState(s))
  {
    hide Lists, Sorted, NoActiveProxy, StageOf, CurSeq, ReqSeq;
    var t, d := StartState(s), s.dispatch;
    HeadOk(s);
    HeadBarrier(s);
    StartLists(s);
    StartSorted(s);
    forall k | t.left <= k < |t.barriers| ensures HasBar(t.dispatch, k) {
      assert HasBar(d, k);
      var i :| 0 <= i < |d| && IsBar(d[i], k);
      assert t.dispatch[|Proxies(t.ordered)| + i - 1] == d[i];
    }
    StartIdle(s);
  }

  lemma StartIdle(s: Queue)
    requires Ordered(s) && CanStart(s)
    ensures NoActiveProxy(StartState(s))
  {
    forall x | x in s.dispatch ensures StageOf(x.rq) == NO_STAGE {
      assert DispatchOk(s, x);
    }
    assert forall x :: x in s.driver ==> DriverOk(s, x);
  }

  lemma StartOrderedOrdered(s: Queue)
    requires Ordered(s) && CanStart(s) && Integrity(s)
    ensures Ordered(StartOrdered(s).0)
  {
    var t := StartState(s);
    var drain := t.ordered.byDrain && t.inFlight != 0;
    StartStateOrdered(s);
    StartBalanced(s);
    if !drain {
      NothingInFlight(t);
      StartDrained(s);
    }
    CompleteSeqAdds(t, Skipped(t.ordered, drain), 0);
    StagesKeepOrder(t, Skipped(t.ordered, drain), CompleteSeq(t, Skipped(t.ordered, drain), 0));
  }

  lemma StartDrained(s: Queue)
    requires Ordered(s) && CanStart(s) && StartState(s).inFlight == 0 && Ordered(StartState(s))
    ensures Drained(StartState(s))
  {
    var t := StartState(s);
    NothingInFlight(t);
    HeadBarrier(s);
    forall x | x in t.dispatch && x.rq.Fs? ensures x.rq.epoch >= t.left {
      assert x in s.dispatch[1..];
      var i :| 1 <= i < |s.dispatch| && s.dispatch[i] == x;
      assert Before(false, s.left, s.dispatch[0].rq, x.rq);
    }
  }

  // ----- issuing -----

  /** The proxy at the head of an ordered queue belongs to an open stage. */
  lemma OpenStage(s: Queue, e: Entry)
    requires e in s.dispatch && StageOf(e.rq) != NO_STAGE && Integrity(s)
    ensures In(s) && CurSeq(s.ordseq) <= Rank(true, s.left, e.rq)
  {
    var k :| 0 <= k < |s.dispatch| && s.dispatch[k] == e;
    SumMember(s.dispatch, k, IsRq(e.rq));
    SumNonNegative(s.driver, IsRq(e.rq));
  }

  /** What the head of the dispatch list must satisfy to be shown to the driver. */
  predicate MayIssue(s: Queue, rq: Request) {
    && (rq.Fs? ==> !rq.barrier && (if In(s) then rq.epoch < s.left else rq.epoch == s.left))
    && (StageOf(rq) != NO_STAGE ==> CurSeq(s.ordseq) == Rank(true, s.left, rq))
  }

  lemma MarkOrdered(s: Queue)
    requires Ordered(s) && s.dispatch != [] && MayIssue(s, s.dispatch[0].rq)
    ensures Ordered(MarkStarted(s))
  {
    var t, e := MarkStarted(s), s.dispatch[0].(started := true);
    assert DispatchOk(s, s.dispatch[0]);
    forall i, j | 0 <= i < j < |t.dispatch| ensures Before(In(t), t.left, t.dispatch[i].rq, t.dispatch[j].rq) {
      assert Before(In(s), s.left, s.dispatch[i].rq, s.dispatch[j].rq);
    }
    forall k | t.left <= k < |t.barriers| ensures HasBar(t.dispatch, k) {
      assert HasBar(s.dispatch, k);
      var i :| 0 <= i < |s.dispatch| && IsBar(s.dispatch[i], k);
      assert IsBar(t.dispatch[i], k);
    }
    forall x | x in t.dispatch ensures DispatchOk(t, x) {
      assert x == e || x in s.dispatch;
      assert x in s.dispatch ==> DispatchOk(s, x);
    }
    assert forall x :: x in t.elevator ==> ElevatorOk(s, x) && ElevatorOk(t, x);
    assert forall x :: x in t.driver ==> DriverOk(s, x) && DriverOk(t, x);
  }

  /** blk_do_ordered in drain mode: the order is kept, the WARN_ON does not fire, and a
      request is shown only when its turn has come. */
  lemma DoOrderedSafe(s: Queue)
    requires Ordered(s) && Integrity(s) && s.dispatch != []
    ensures var (t, o) := DoOrdered(s);
            && Ordered(t)
            && (o.Issue? ==> t.dispatch != [] && o.rq == t.dispatch[0].rq && MayIssue(t, o.rq))
  {
    var rq := s.dispatch[0].rq;
    if CanStart(s) {
      StartOrderedOrdered(s);
      StartIssues(s);
    } else if !In(s) {
      NotInSequence(s);
    } else {
      ColourTells(s, 0);
      assert DispatchOk(s, s.dispatch[0]);
      if StageOf(rq) != NO_STAGE {
        OpenStage(s, s.dispatch[0]);
      }
      OrderedFrame(s, DoOrdered(s).0);
    }
  }

  lemma NotInSequence(s: Queue)
    requires Ordered(s) && !In(s) && s.dispatch != [] && !CanStart(s)
    ensures DoOrdered(s) == (s, Issue(s.dispatch[0].rq)) && MayIssue(s, s.dispatch[0].rq)
  {
    assert DispatchOk(s, s.dispatch[0]);
    if s.dispatch[0].rq.Fs? {
      HeadBarrier(s);
    }
  }

  lemma StartIssues(s: Queue)
    requires CanStart(s) && DrainMode(s.nextOrdered)
    ensures var (t, o) := StartOrdered(s);
            o.Issue? ==> t.dispatch != [] && o.rq == t.dispatch[0].rq && MayIssue(t, o.rq)
  {
  }

  // ----- every run -----

  lemma StepOrdered(s: Queue, step: Step)
    requires Enabled(s, step, false) && Enabled(s, step, true) && Ordered(s) && Integrity(s)
    ensures Ordered(Apply(s, step))
  {
    hide Lists, Globals, DoOrdered, End, RequeueRequest, DispatchFrom, DequeueAt, MergeInto, InsertAt, NewFs;
    match step
    case AddSorted(write, sector) => AddSortedOrdered(s, write, sector);
    case AddBack(write, sector) => AddTailOrdered(s, false, false, write, sector);
    case AddBarrier(empty, write, sector) => AddTailOrdered(s, true, empty, write, sector);
    case AddSpecial(hard, front) => SpecialOrdered(s, front);
    case MergeBio(k, front, sector) => MergeBioOrdered(s, k, front, sector);
    case MergeRequests(k, j) => MergeOrdered(s, k, j);
    case Dispatch(k, sorted, boundary) => DispatchOrdered(s, k, sorted, boundary);
    case Next =>
      DoOrderedSafe(s);
      if DoOrdered(s).1.Issue? {
        MarkOrdered(DoOrdered(s).0);
      }
    case Dequeue(k) => DequeueOrdered(s, k);
    case Complete(k, error) => EndOrdered(s, k, error);
    case Requeue(k) => RequeueOrdered(s, k);
  }
}
