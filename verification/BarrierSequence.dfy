/** What holds of an ordered sequence in every run, whatever the ordering mode and whoever
    else uses the queue: each stage is completed once, the current stage only moves
    forward, a sequence that ends has ended its barrier once and left nothing behind, and
    no bio is ever lost or duplicated.  When a barrier is ended by its sequence only is the
    subject of module BarrierEnds. */
module BarrierSequence {
  import opened ListOps
  import opened Barrier

  // ----- weighted sums over lists of requests -----

  function Sum(es: seq<Entry>, w: Entry -> int): int {
    if es == [] then 0 else w(es[0]) + Sum(es[1..], w)
  }

  lemma {:induction false} SumConcat(a: seq<Entry>, b: seq<Entry>, w: Entry -> int)
    ensures Sum(a + b, w) == Sum(a, w) + Sum(b, w)
  {
    if a == [] {
      assert a + b == b;
    } else {
      assert (a + b)[1..] == a[1..] + b;
      SumConcat(a[1..], b, w);
    }
  }

  lemma {:induction false} SumInsert(es: seq<Entry>, p: nat, e: Entry, w: Entry -> int)
    requires p <= |es|
    ensures Sum(InsertAt(es, p, e), w) == Sum(es, w) + w(e)
  {
    assert es == es[..p] + es[p..];
    SumConcat(es[..p], es[p..], w);
    SumConcat(es[..p] + [e], es[p..], w);
    SumConcat(es[..p], [e], w);
  }

  lemma {:induction false} SumRemove(es: seq<Entry>, p: nat, w: Entry -> int)
    requires p < |es|
    ensures Sum(RemoveAt(es, p), w) == Sum(es, w) - w(es[p])
  {
    var rest := RemoveAt(es, p);
    assert InsertAt(rest, p, es[p]) == es;
    SumInsert(rest, p, es[p], w);
  }

  lemma {:induction false} SumUpdate(es: seq<Entry>, p: nat, e: Entry, w: Entry -> int)
    requires p < |es|
    ensures Sum(es[p := e], w) == Sum(es, w) - w(es[p]) + w(e)
  {
    SumRemove(es, p, w);
    SumRemove(es[p := e], p, w);
    assert RemoveAt(es, p) == RemoveAt(es[p := e], p);
  }

  lemma {:induction false} SumAppend(es: seq<Entry>, e: Entry, w: Entry -> int)
    ensures Sum(es + [e], w) == Sum(es, w) + w(e)
  {
    SumConcat(es, [e], w);
  }

  /** With no negative weight, a member's weight is at most the sum. */
  lemma {:induction false} SumMember(es: seq<Entry>, k: nat, w: Entry -> int)
    requires k < |es| && forall e :: w(e) >= 0
    ensures w(es[k]) <= Sum(es, w) && Sum(es, w) >= 0
  {
    if k > 0 {
      SumMember(es[1..], k - 1, w);
    } else if |es| > 1 {
      SumMember(es[1..], 0, w);
    }
  }

  /** A positive sum has a positive member. */
  lemma {:induction false} SumWitness(es: seq<Entry>, w: Entry -> int) returns (k: nat)
    requires Sum(es, w) > 0
    ensures k < |es| && w(es[k]) > 0
  {
    if w(es[0]) > 0 {
      k := 0;
    } else {
      k := SumWitness(es[1..], w);
      k := k + 1;
    }
  }

  // ----- conservation of bios -----

  function Occurs(bios: seq<nat>, i: nat): nat {
    if bios == [] then 0 else (if bios[0] == i then 1 else 0) + Occurs(bios[1..], i)
  }

  lemma {:induction false} OccursConcat(a: seq<nat>, b: seq<nat>, i: nat)
    ensures Occurs(a + b, i) == Occurs(a, i) + Occurs(b, i)
  {
    if a == [] {
      assert a + b == b;
    } else {
      assert (a + b)[1..] == a[1..] + b;
      OccursConcat(a[1..], b, i);
    }
  }

  lemma {:induction false} OccursIn(bios: seq<nat>, i: nat)
    ensures i in bios <==> Occurs(bios, i) > 0
  {
    if bios != [] {
      assert bios == [bios[0]] + bios[1..];
      OccursIn(bios[1..], i);
    }
  }

  /** How often request `e` carries bio `i`. */
  function Carries(i: nat): Entry -> int {
    (e: Entry) => if e.rq.Fs? then Occurs(e.rq.bios, i) else 0
  }

  function InOrig(s: Queue, i: nat): int {
    if s.ordseq != NO_STAGE then Occurs(OrigBios(s), i) else 0
  }

  /** How many copies of bio `i` exist: in the elevator, on the dispatch list, with the
      driver, in the barrier being processed, and among the ended. */
  function Copies(s: Queue, i: nat): int {
    Sum(s.elevator, Carries(i)) + Sum(s.dispatch, Carries(i)) + Sum(s.driver, Carries(i)) +
    InOrig(s, i) + Occurs(s.ended, i)
  }

  /** Every submitted bio is in exactly one place, and nothing else is anywhere. */
  ghost predicate Conserved(s: Queue) {
    forall i: nat :: Copies(s, i) == if i < |s.subs| then 1 else 0
  }

  // ----- stages and proxies -----

  function IsRq(p: Request): Entry -> int {
    (e: Entry) => if e.rq == p then 1 else 0
  }

  function Outstanding(s: Queue, p: Request): int {
    Sum(s.dispatch, IsRq(p)) + Sum(s.driver, IsRq(p))
  }

  /** Each proxy is queued or with the driver exactly once if its stage is not in `done`,
      and nowhere otherwise. */
  predicate Balanced(s: Queue, done: Stages) {
    && Outstanding(s, PreFlush) == (if done.preflush then 0 else 1)
    && Outstanding(s, BarRq) == (if done.bar then 0 else 1)
    && Outstanding(s, PostFlush) == (if done.postflush then 0 else 1)
  }

  const ALL_STAGES := Stages(true, true, true, true, true)

  function FirstError(errs: seq<int>): int {
    if errs == [] then 0 else if errs[0] != 0 then errs[0] else FirstError(errs[1..])
  }

  lemma {:induction false} FirstErrorAppend(errs: seq<int>, e: int)
    ensures FirstError(errs + [e]) == if FirstError(errs) == 0 then e else FirstError(errs)
  {
    if errs == [] {
      assert errs + [e] == [e];
    } else {
      assert (errs + [e])[1..] == errs[1..] + [e];
      FirstErrorAppend(errs[1..], e);
    }
  }

  predicate InSequence(s: Queue) {
    && s.ordseq.started
    && CurSeq(s.ordseq) != DONE
    && s.orig.Some? && s.orig.value.Fs?
    && s.orderr == FirstError(s.errs)
  }

  /** The state of the sequence agrees with what is outstanding. */
  predicate Integrity(s: Queue) {
    && !s.bug
    && (s.ordseq == NO_STAGE ==> Balanced(s, ALL_STAGES))
    && (s.ordseq != NO_STAGE ==> InSequence(s) && Balanced(s, s.ordseq))
  }

  /** Completing stages that are still open: the queue is consistent again, the stage
      only moves forward, and the barrier is ended iff nothing is left. */
  lemma CompleteSeqIntegrity(s: Queue, stages: Stages, error: int)
    requires !s.bug && InSequence(s) && !Overlap(s.ordseq, stages)
    requires Balanced(s, Or(s.ordseq, stages))
    ensures var t := CompleteSeq(s, stages, error);
            && Integrity(t)
            && (t.ordseq == NO_STAGE <==> Or(s.ordseq, stages) == ALL_STAGES)
            && (t.ordseq != NO_STAGE ==> t.ordseq == Or(s.ordseq, stages))
  {
    FirstErrorAppend(s.errs, error);
  }

  lemma CompleteSeqCopies(s: Queue, stages: Stages, error: int, i: nat)
    requires s.ordseq != NO_STAGE
    ensures Copies(CompleteSeq(s, stages, error), i) == Copies(s, i)
  {
    OccursConcat(s.ended, OrigBios(s), i);
  }

  lemma CompletedIntegrity(s: Queue, e: Entry)
    requires Integrity(s)
    ensures Integrity(Completed(s, e))
    ensures s.ordseq == NO_STAGE ==> Completed(s, e).ordseq == NO_STAGE
    ensures Completed(s, e).ordseq != NO_STAGE ==> CurSeq(s.ordseq) <= CurSeq(Completed(s, e).ordseq)
  {
    var s1 := s.(inFlight := s.inFlight - Account(e));
    if Completed(s, e) != s1 {
      CompleteSeqIntegrity(s1, NO_STAGE.(drain := true), 0);
    }
  }

  /** elv_completed_request, when the caller is about to complete the stage of a proxy. */
  lemma CompletedPending(s: Queue, e: Entry, p: Request)
    requires !s.bug && InSequence(s) && Balanced(s, Or(s.ordseq, StageOf(p)))
    requires StageOf(p) != NO_STAGE && !Overlap(s.ordseq, StageOf(p))
    ensures var t := Completed(s, e);
            && !t.bug && InSequence(t) && Balanced(t, Or(t.ordseq, StageOf(p))) && !Overlap(t.ordseq, StageOf(p))
            && CurSeq(s.ordseq) <= CurSeq(t.ordseq)
  {
    var t := Completed(s, e);
    FirstErrorAppend(s.errs, 0);
    assert t.ordseq == s.ordseq || (!s.ordseq.drain && t.ordseq == s.ordseq.(drain := true));
    assert t.dispatch == s.dispatch && t.driver == s.driver;
    assert forall x :: Outstanding(t, x) == Outstanding(s, x);
  }

  lemma CompletedCopies(s: Queue, e: Entry, i: nat)
    ensures Copies(Completed(s, e), i) == Copies(s, i)
  {
    var s1 := s.(inFlight := s.inFlight - Account(e));
    if Completed(s, e) != s1 {
      CompleteSeqCopies(s1, NO_STAGE.(drain := true), 0, i);
    }
  }

  // ----- starting a sequence -----

  lemma {:induction false} StartSums(s: Queue, w: Entry -> int)
    requires s.dispatch != [] && s.dispatch[0].rq.Fs?
    ensures Sum(StartState(s).dispatch, w) ==
            Sum(s.dispatch, w) - w(s.dispatch[0]) + Sum(Proxies(StartState(s).ordered), w)
  {
    SumConcat(Proxies(StartState(s).ordered), s.dispatch[1..], w);
  }

  lemma {:induction false} ProxySum(m: Mode, w: Entry -> int)
    ensures Sum(Proxies(m), w) ==
            (if m.preflush then w(Entry(PreFlush, false, true)) else 0) +
            (if m.bar then w(Entry(BarRq, false, true)) else 0) +
            (if m.postflush then w(Entry(PostFlush, false, true)) else 0)
  {
    var a := if m.preflush then [Entry(PreFlush, false, true)] else [];
    var b := if m.bar then [Entry(BarRq, false, true)] else [];
    var c := if m.postflush then [Entry(PostFlush, false, true)] else [];
    SumConcat(a + b, c, w);
    SumConcat(a, b, w);
  }

  lemma StartBalanced(s: Queue)
    requires s.dispatch != [] && s.dispatch[0].rq.Fs? && Balanced(s, ALL_STAGES)
    ensures Balanced(StartState(s), Skipped(StartState(s).ordered, false))
  {
    forall p | p in [PreFlush, BarRq, PostFlush]
      ensures Outstanding(StartState(s), p) == Outstanding(s, p) + Sum(Proxies(StartState(s).ordered), IsRq(p))
    {
      StartSums(s, IsRq(p));
    }
    ProxySum(StartState(s).ordered, IsRq(PreFlush));
    ProxySum(StartState(s).ordered, IsRq(BarRq));
    ProxySum(StartState(s).ordered, IsRq(PostFlush));
  }

  lemma StartIntegrity(s: Queue)
    requires s.dispatch != [] && s.dispatch[0].rq.Fs? && s.ordseq == NO_STAGE && Integrity(s)
    ensures Integrity(StartOrdered(s).0)
  {
    StartBalanced(s);
    var t := StartState(s);
    CompleteSeqIntegrity(t, Skipped(t.ordered, t.ordered.byDrain && t.inFlight != 0), 0);
  }

  lemma StartCopies(s: Queue, i: nat)
    requires s.dispatch != [] && s.dispatch[0].rq.Fs? && s.ordseq == NO_STAGE
    ensures Copies(StartOrdered(s).0, i) == Copies(s, i)
  {
    hide Sum, EffectiveMode, Proxies, Skipped, CompleteSeq;
    var t := StartState(s);
    StartSums(s, Carries(i));
    ProxySum(t.ordered, Carries(i));
    CompleteSeqCopies(t, Skipped(t.ordered, t.ordered.byDrain && t.inFlight != 0), 0, i);
  }

  /** Which commands a barrier needs, and the stage the first of them belongs to. */
  lemma EffectiveFacts(m: Mode, empty: bool, orig: Option<Request>)
    requires Supported(m) && m != NONE
    ensures var e := EffectiveMode(m, empty);
            && e.byDrain != e.byTag && (e.byTag <==> m.byTag && (m.preflush || !empty))
            && (Proxies(e) == [] <==> empty && !m.preflush)
            && (empty ==> Proxies(e) == if m.preflush then [Entry(PreFlush, false, true)] else [])
            && (Proxies(e) != [] ==>
                  ReqSeq(orig, Proxies(e)[0].rq) == CurSeq(Or(NO_STAGE.(started := true), Skipped(e, false))) < DONE)
            && (Or(NO_STAGE.(started := true), Skipped(e, false)) == ALL_STAGES <==> Proxies(e) == [])
  {
    var e := EffectiveMode(m, empty);
    assert empty ==> Proxies(e) == if m.preflush then [Entry(PreFlush, false, true)] else [];
    assert !empty ==> e == m && m.bar;
  }

  lemma StartParts(s: Queue)
    requires s.dispatch != [] && s.dispatch[0].rq.Fs? && s.ordseq == NO_STAGE
    ensures var (t, o) := StartOrdered(s);
            var m := EffectiveMode(s.nextOrdered, s.dispatch[0].rq.empty);
            var drain := m.byDrain && s.inFlight + Account(s.dispatch[0]) != 0;
            var stages := Or(NO_STAGE.(started := true), Skipped(m, drain));
            && t.ordered == m && t.orig == Some(s.dispatch[0].rq) && t.dispatch == Proxies(m) + s.dispatch[1..]
            && t.ordseq == (if stages == ALL_STAGES then NO_STAGE else stages)
            && o == (if stages == ALL_STAGES then Gone
                     else if drain || Proxies(m) == [] then Hold else Issue(Proxies(m)[0].rq))
            && (drain ==> stages != ALL_STAGES)
  {
    hide EffectiveMode, Proxies, Account, OrigBios;
  }

  /** How a barrier's sequence begins.  It is ordered either by draining or by tag, and by tag only if
      there is a command to carry the tag, which is then issued at once.  It waits iff it has to drain
      and something is in flight, and it is over at once iff there is nothing to drain and nothing to
      issue.  What is issued belongs to the current stage and stands at the head of the list. */
  lemma SequenceBegins(s: Queue)
    requires s.dispatch != [] && s.dispatch[0].rq.Fs? && s.ordseq == NO_STAGE
    requires Supported(s.nextOrdered) && s.nextOrdered != NONE
    ensures var (t, o) := StartOrdered(s);
            var m, empty, busy := s.nextOrdered, s.dispatch[0].rq.empty, s.inFlight + Account(s.dispatch[0]) != 0;
            && t.ordered.byDrain != t.ordered.byTag
            && (t.ordered.byTag <==> m.byTag && (m.preflush || !empty))
            && (t.ordered.byTag ==> o.Issue?)
            && (o.Hold? <==> t.ordered.byDrain && busy)
            && (o.Gone? <==> empty && !m.preflush && !busy)
            && (o.Issue? ==> t.dispatch != [] && t.dispatch[0].rq == o.rq && ReqSeq(t.orig, o.rq) == CurSeq(t.ordseq))
            && (empty ==> t.dispatch == (if m.preflush then [Entry(PreFlush, false, true)] else []) + s.dispatch[1..])
  {
    hide Supported, EffectiveMode, Proxies, Account, StartOrdered, Skipped;
    EffectiveFacts(s.nextOrdered, s.dispatch[0].rq.empty, Some(s.dispatch[0].rq));
    StartParts(s);
  }

  // ----- every step -----

  lemma InsertedInDispatch(s: Queue, p: nat, e: Entry, x: Request)
    requires p <= |s.dispatch|
    ensures Outstanding(InsertDispatch(s, p, e), x) == Outstanding(s, x) + IsRq(x)(e)
  {
    SumInsert(s.dispatch, p, e, IsRq(x));
  }

  lemma NextIntegrity(s: Queue)
    requires s.dispatch != [] && Integrity(s)
    ensures Integrity(DoOrdered(s).0)
    ensures s.ordseq != NO_STAGE ==> DoOrdered(s).0.ordseq == s.ordseq
  {
    var e := s.dispatch[0];
    if s.ordseq == NO_STAGE && e.rq.Fs? && e.rq.barrier {
      if s.nextOrdered != NONE {
        StartIntegrity(s);
      } else {
        var s1 := s.(dispatch := s.dispatch[1..], inFlight := s.inFlight + Account(e), left := s.left + 1);
        var s2 := EndBarrier(s1, e.rq.bios, -EOPNOTSUPP);
        assert Balanced(s2, ALL_STAGES);
        CompletedIntegrity(s2, e);
      }
    }
  }

  lemma DriverRemoved(s: Queue, k: nat, p: Request)
    requires k < |s.driver|
    ensures Outstanding(s.(driver := RemoveAt(s.driver, k)), p) == Outstanding(s, p) - IsRq(p)(s.driver[k])
  {
    SumRemove(s.driver, k, IsRq(p));
  }

  lemma EndIntegrity(s: Queue, k: nat, error: int)
    requires k < |s.driver| && Integrity(s)
    ensures var t := End(s.(driver := RemoveAt(s.driver, k)), s.driver[k], error);
            && Integrity(t)
            && (s.ordseq == NO_STAGE ==> t.ordseq == NO_STAGE)
            && (t.ordseq != NO_STAGE ==> CurSeq(s.ordseq) <= CurSeq(t.ordseq))
  {
    var s1, e := s.(driver := RemoveAt(s.driver, k)), s.driver[k];
    DriverRemoved(s, k, PreFlush);
    DriverRemoved(s, k, BarRq);
    DriverRemoved(s, k, PostFlush);
    if e.rq.Fs? {
      CompletedIntegrity(s1.(ended := s1.ended + e.rq.bios), e);
    } else if e.rq.Special? {
      CompletedIntegrity(s1, e);
    } else {
      OutstandingProxy(s, k);
      CompletedPending(s1, e, e.rq);
      CompleteSeqIntegrity(Completed(s1, e), StageOf(e.rq), error);
    }
  }

  /** A proxy the driver holds belongs to a stage that is still open. */
  lemma OutstandingProxy(s: Queue, k: nat)
    requires k < |s.driver| && StageOf(s.driver[k].rq) != NO_STAGE && Integrity(s)
    ensures s.ordseq != NO_STAGE && !Overlap(s.ordseq, StageOf(s.driver[k].rq))
  {
    var p := s.driver[k].rq;
    SumMember(s.driver, k, IsRq(p));
    SumNonNegative(s.dispatch, IsRq(p));
  }

  lemma {:induction false} SumNonNegative(es: seq<Entry>, w: Entry -> int)
    requires forall e :: w(e) >= 0
    ensures Sum(es, w) >= 0
  {
    if es != [] {
      SumMember(es, 0, w);
    }
  }

  /** Queueing a request that is not a proxy. */
  lemma InsertIntegrity(s: Queue, p: nat, e: Entry)
    requires Integrity(s) && p <= |s.dispatch| && StageOf(e.rq) == NO_STAGE
    ensures Integrity(InsertDispatch(s, p, e))
  {
    InsertedInDispatch(s, p, e, PreFlush);
    InsertedInDispatch(s, p, e, BarRq);
    InsertedInDispatch(s, p, e, PostFlush);
  }

  lemma DispatchIntegrity(s: Queue, k: nat, sorted: bool, boundary: nat)
    requires k < |s.elevator| && s.elevator[k].rq.Fs? && Integrity(s)
    ensures Integrity(DispatchFrom(s, k, sorted, boundary)) && DispatchFrom(s, k, sorted, boundary).ordseq == s.ordseq
  {
    hide Integrity, SortPos, StageOf, InsertAt, RemoveAt;
    var e := s.elevator[k];
    SortPosBound(s.dispatch, e.rq, boundary, |s.dispatch|);
    var p := if sorted then SortPos(s.dispatch, e.rq, boundary, |s.dispatch|) else |s.dispatch|;
    assert StageOf(e.rq) == NO_STAGE by { FsHasNoStage(e.rq); }
    InsertIntegrity(s, p, e);
    IntegrityFrame(InsertDispatch(s, p, e), DispatchFrom(s, k, sorted, boundary));
  }

  lemma FsHasNoStage(rq: Request)
    requires rq.Fs?
    ensures StageOf(rq) == NO_STAGE
  {
  }

  lemma RequeueIntegrity(s: Queue, k: nat)
    requires k < |s.driver| && Integrity(s)
    ensures Integrity(RequeueAt(s, k)) && RequeueAt(s, k).ordseq == s.ordseq
  {
    var s1, e := s.(driver := RemoveAt(s.driver, k)), s.driver[k];
    var s2 := s1.(inFlight := s1.inFlight - Account(e));
    var p := if s2.ordseq == NO_STAGE then 0 else RequeuePos(s2, e.rq, 0);
    RequeuePosBound(s2, e.rq, 0);
    forall x ensures Outstanding(RequeueRequest(s1, e), x) == Outstanding(s, x) {
      DriverRemoved(s, k, x);
      InsertedInDispatch(s2, p, Entry(e.rq, false, true), x);
    }
  }

  lemma DequeueIntegrity(s: Queue, k: nat)
    requires k < |s.dispatch| && Integrity(s)
    ensures Integrity(DequeueAt(s, k)) && DequeueAt(s, k).ordseq == s.ordseq
  {
    forall x ensures Outstanding(DequeueAt(s, k), x) == Outstanding(s, x) {
      SumRemove(s.dispatch, k, IsRq(x));
      SumAppend(s.driver, s.dispatch[k], IsRq(x));
    }
  }

  lemma MarkIntegrity(s: Queue)
    requires Integrity(s)
    ensures Integrity(MarkStarted(s)) && MarkStarted(s).ordseq == s.ordseq
  {
    if s.dispatch != [] {
      var e := s.dispatch[0].(started := true);
      SumUpdate(s.dispatch, 0, e, IsRq(PreFlush));
      SumUpdate(s.dispatch, 0, e, IsRq(BarRq));
      SumUpdate(s.dispatch, 0, e, IsRq(PostFlush));
    }
  }

  lemma IntegrityFrame(s: Queue, t: Queue)
    requires Integrity(s)
    requires t.bug == s.bug && t.ordseq == s.ordseq && t.orig == s.orig && t.orderr == s.orderr && t.errs == s.errs
    requires t.dispatch == s.dispatch && t.driver == s.driver
    ensures Integrity(t)
  {
  }

  lemma AddIntegrity(s: Queue, p: nat, e: Entry, t: Queue)
    requires Integrity(s) && p <= |s.dispatch| && StageOf(e.rq) == NO_STAGE
    requires t == InsertDispatch(s, p, e).(color := t.color, subs := t.subs, barriers := t.barriers)
    ensures Integrity(t)
  {
    InsertIntegrity(s, p, e);
    IntegrityFrame(InsertDispatch(s, p, e), t);
  }

  /** No step completes a stage twice, and within a sequence the stage never moves back. */
  lemma StepIntegrity(s: Queue, step: Step)
    requires Enabled(s, step, true) && Integrity(s)
    ensures Integrity(Apply(s, step))
    ensures s.ordseq != NO_STAGE && Apply(s, step).ordseq != NO_STAGE ==>
              CurSeq(s.ordseq) <= CurSeq(Apply(s, step).ordseq)
  {
    hide Balanced, InSequence, DoOrdered, End, RequeueRequest, DispatchFrom, DequeueAt;
    match step
    case AddSorted(_, _) => IntegrityFrame(s, Apply(s, step));
    case AddBack(write, sector) =>
      AddIntegrity(s, |s.dispatch|, Entry(NewFs(s, false, false, write, sector), false, true), Apply(s, step));
    case AddBarrier(empty, write, sector) =>
      AddIntegrity(s, |s.dispatch|, Entry(NewFs(s, true, empty, write, sector), false, true), Apply(s, step));
    case AddSpecial(hard, front) =>
      AddIntegrity(s, if front then 0 else |s.dispatch|, Entry(Special(hard), false, true), Apply(s, step));
    case MergeBio(_, _, _) => IntegrityFrame(s, Apply(s, step));
    case MergeRequests(_, _) => IntegrityFrame(s, Apply(s, step));
    case Dispatch(k, sorted, boundary) => DispatchIntegrity(s, k, sorted, boundary);
    case Next =>
      NextIntegrity(s);
      MarkIntegrity(DoOrdered(s).0);
    case Dequeue(k) => DequeueIntegrity(s, k);
    case Complete(k, error) => EndIntegrity(s, k, error);
    case Requeue(k) => RequeueIntegrity(s, k);
  }

  // ----- conservation of bios, step by step -----

  predicate Submits(step: Step) {
    step.AddSorted? || step.AddBack? || step.AddBarrier? || step.MergeBio?
  }

  lemma InsertCopies(s: Queue, p: nat, e: Entry, i: nat)
    requires p <= |s.dispatch|
    ensures Copies(InsertDispatch(s, p, e), i) == Copies(s, i) + Carries(i)(e)
  {
    SumInsert(s.dispatch, p, e, Carries(i));
  }

  lemma DriverRemovedCopies(s: Queue, k: nat, i: nat)
    requires k < |s.driver|
    ensures Copies(s.(driver := RemoveAt(s.driver, k)), i) == Copies(s, i) - Carries(i)(s.driver[k])
  {
    SumRemove(s.driver, k, Carries(i));
  }

  lemma MergeBioCopies(s: Queue, k: nat, front: bool, sector: nat, i: nat)
    requires k < |s.elevator| && s.elevator[k].rq.Fs?
    ensures Copies(Apply(s, MergeBio(k, front, sector)), i) == Copies(s, i) + if i == |s.subs| then 1 else 0
  {
    var e := s.elevator[k];
    OccursConcat(e.rq.bios, [|s.subs|], i);
    OccursConcat([|s.subs|], e.rq.bios, i);
    SumUpdate(s.elevator, k, e.(rq := Merged(e.rq, |s.subs|, front, sector)), Carries(i));
  }

  lemma MergeRequestsCopies(s: Queue, k: nat, j: nat, i: nat)
    requires k < |s.elevator| && j < |s.elevator| && k != j && s.elevator[k].rq.Fs? && s.elevator[j].rq.Fs?
    ensures Copies(MergeInto(s, k, j), i) == Copies(s, i)
  {
    var e := s.elevator[k];
    var e1 := e.(rq := e.rq.(bios := e.rq.bios + s.elevator[j].rq.bios));
    OccursConcat(e.rq.bios, s.elevator[j].rq.bios, i);
    SumUpdate(s.elevator, k, e1, Carries(i));
    SumRemove(s.elevator[k := e1], j, Carries(i));
  }

  lemma DispatchCopies(s: Queue, k: nat, sorted: bool, boundary: nat, i: nat)
    requires k < |s.elevator| && s.elevator[k].rq.Fs?
    ensures Copies(DispatchFrom(s, k, sorted, boundary), i) == Copies(s, i)
  {
    var e := s.elevator[k];
    SortPosBound(s.dispatch, e.rq, boundary, |s.dispatch|);
    SumRemove(s.elevator, k, Carries(i));
    SumInsert(s.dispatch, if sorted then SortPos(s.dispatch, e.rq, boundary, |s.dispatch|) else |s.dispatch|, e, Carries(i));
  }

  lemma NextCopies(s: Queue, i: nat)
    requires s.dispatch != []
    ensures Copies(DoOrdered(s).0, i) == Copies(s, i)
  {
    var e := s.dispatch[0];
    if s.ordseq == NO_STAGE && e.rq.Fs? && e.rq.barrier {
      if s.nextOrdered != NONE {
        StartCopies(s, i);
      } else {
        var s1 := s.(dispatch := s.dispatch[1..], inFlight := s.inFlight + Account(e), left := s.left + 1);
        OccursConcat(s.ended, e.rq.bios, i);
        CompletedCopies(EndBarrier(s1, e.rq.bios, -EOPNOTSUPP), e, i);
      }
    }
  }

  lemma MarkCopies(s: Queue, i: nat)
    ensures Copies(MarkStarted(s), i) == Copies(s, i)
  {
    if s.dispatch != [] {
      SumUpdate(s.dispatch, 0, s.dispatch[0].(started := true), Carries(i));
    }
  }

  lemma DequeueCopies(s: Queue, k: nat, i: nat)
    requires k < |s.dispatch|
    ensures Copies(DequeueAt(s, k), i) == Copies(s, i)
  {
    SumRemove(s.dispatch, k, Carries(i));
    SumAppend(s.driver, s.dispatch[k], Carries(i));
  }

  lemma EndCopies(s: Queue, k: nat, error: int, i: nat)
    requires k < |s.driver| && Integrity(s)
    ensures Copies(EndAt(s, k, error), i) == Copies(s, i)
  {
    var s1, e := s.(driver := RemoveAt(s.driver, k)), s.driver[k];
    DriverRemovedCopies(s, k, i);
    if e.rq.Fs? {
      OccursConcat(s.ended, e.rq.bios, i);
      CompletedCopies(s1.(ended := s1.ended + e.rq.bios), e, i);
    } else if e.rq.Special? {
      CompletedCopies(s1, e, i);
    } else {
      CompletedCopies(s1, e, i);
      StillOpen(s, k);
      CompleteSeqCopies(Completed(s1, e), StageOf(e.rq), error, i);
    }
  }

  lemma StillOpen(s: Queue, k: nat)
    requires k < |s.driver| && StageOf(s.driver[k].rq) != NO_STAGE && Integrity(s)
    ensures var t := Completed(s.(driver := RemoveAt(s.driver, k)), s.driver[k]);
            InSequence(t) && !Overlap(t.ordseq, StageOf(s.driver[k].rq))
  {
    DriverRemoved(s, k, PreFlush);
    DriverRemoved(s, k, BarRq);
    DriverRemoved(s, k, PostFlush);
    OutstandingProxy(s, k);
    CompletedPending(s.(driver := RemoveAt(s.driver, k)), s.driver[k], s.driver[k].rq);
  }

  lemma RequeueCopies(s: Queue, k: nat, i: nat)
    requires k < |s.driver|
    ensures Copies(RequeueAt(s, k), i) == Copies(s, i)
  {
    hide Sum, Occurs, RequeuePos, Account, ReqSeq;
    var s1, e := s.(driver := RemoveAt(s.driver, k)), s.driver[k];
    var s2 := s1.(inFlight := s1.inFlight - Account(e));
    RequeuePosBound(s2, e.rq, 0);
    DriverRemovedCopies(s, k, i);
    InsertCopies(s2, if s2.ordseq == NO_STAGE then 0 else RequeuePos(s2, e.rq, 0), Entry(e.rq, false, true), i);
  }

  lemma NewCarries(s: Queue, barrier: bool, empty: bool, write: bool, sector: nat, i: nat)
    ensures forall started, soft :: Carries(i)(Entry(NewFs(s, barrier, empty, write, sector), started, soft)) ==
              if i == |s.subs| then 1 else 0
  {
    assert Occurs([|s.subs|][1..], i) == 0;
  }

  lemma AddSortedCopies(s: Queue, write: bool, sector: nat, i: nat)
    ensures Copies(Apply(s, AddSorted(write, sector)), i) == Copies(s, i) + if i == |s.subs| then 1 else 0
  {
    NewCarries(s, false, false, write, sector, i);
    SumAppend(s.elevator, Entry(NewFs(s, false, false, write, sector), false, false), Carries(i));
  }

  lemma AddCopies(s: Queue, p: nat, e: Entry, t: Queue, i: nat)
    requires p <= |s.dispatch|
    requires t == InsertDispatch(s, p, e).(color := t.color, subs := t.subs, barriers := t.barriers)
    ensures Copies(t, i) == Copies(s, i) + Carries(i)(e)
  {
    InsertCopies(s, p, e, i);
  }

  /** A step adds the bio it submits and neither loses nor duplicates any other. */
  lemma AddedCopies(s: Queue, step: Step, i: nat)
    requires Enabled(s, step, true) && (step.AddSorted? || step.AddBack? || step.AddBarrier? || step.AddSpecial?)
    ensures Copies(Apply(s, step), i) == Copies(s, i) + if Submits(step) && i == |s.subs| then 1 else 0
  {
    hide Copies, NewFs, Occurs, InsertAt;
    match step
    case AddSorted(write, sector) =>
      AddSortedCopies(s, write, sector, i);
    case AddBack(write, sector) =>
      NewCarries(s, false, false, write, sector, i);
      AddCopies(s, |s.dispatch|, Entry(NewFs(s, false, false, write, sector), false, true), Apply(s, step), i);
    case AddBarrier(empty, write, sector) =>
      NewCarries(s, true, empty, write, sector, i);
      AddCopies(s, |s.dispatch|, Entry(NewFs(s, true, empty, write, sector), false, true), Apply(s, step), i);
    case AddSpecial(hard, front) =>
      AddCopies(s, if front then 0 else |s.dispatch|, Entry(Special(hard), false, true), Apply(s, step), i);
  }

  lemma StepCopies(s: Queue, step: Step, i: nat)
    requires Enabled(s, step, true) && Integrity(s)
    ensures Copies(Apply(s, step), i) == Copies(s, i) + if Submits(step) && i == |s.subs| then 1 else 0
  {
    hide DoOrdered, End, RequeueRequest, DispatchFrom, DequeueAt, MergeInto, NewFs, Occurs, InsertAt, OrigBios;
    match step
    case AddSorted(_, _) => AddedCopies(s, step, i);
    case AddBack(_, _) => AddedCopies(s, step, i);
    case AddBarrier(_, _, _) => AddedCopies(s, step, i);
    case AddSpecial(_, _) => AddedCopies(s, step, i);
    case MergeBio(k, front, sector) => MergeBioCopies(s, k, front, sector, i);
    case MergeRequests(k, j) => MergeRequestsCopies(s, k, j, i);
    case Dispatch(k, sorted, boundary) => DispatchCopies(s, k, sorted, boundary, i);
    case Next =>
      NextCopies(s, i);
      MarkCopies(DoOrdered(s).0, i);
    case Dequeue(k) => DequeueCopies(s, k, i);
    case Complete(k, error) => EndCopies(s, k, error, i);
    case Requeue(k) => RequeueCopies(s, k, i);
  }

  // ----- every run -----

  /** One more step at the end of a run. */
  lemma {:induction false} Extend(s: Queue, steps: seq<Step>, step: Step, allowHard: bool)
    requires Runs(s, steps, allowHard) && Runs(s, steps, true)
    requires Enabled(Exec(s, steps), step, allowHard) && Enabled(Exec(s, steps), step, true)
    ensures Runs(s, steps + [step], allowHard) && Runs(s, steps + [step], true)
    ensures Exec(s, steps + [step]) == Apply(Exec(s, steps), step)
    decreases |steps|
  {
    if steps == [] {
      assert steps + [step] == [step];
      assert [step][1..] == [];
    } else {
      assert (steps + [step])[1..] == steps[1..] + [step];
      Extend(Apply(s, steps[0]), steps[1..], step, allowHard);
    }
  }

  lemma {:induction false} Join(s: Queue, steps: seq<Step>, more: seq<Step>, allowHard: bool)
    requires Runs(s, steps, allowHard) && Runs(s, steps, true)
    requires Runs(Exec(s, steps), more, allowHard) && Runs(Exec(s, steps), more, true)
    ensures Runs(s, steps + more, allowHard) && Runs(s, steps + more, true)
    ensures Exec(s, steps + more) == Exec(Exec(s, steps), more)
    decreases |steps|
  {
    hide Apply, Enabled;
    if steps == [] {
      assert steps + more == more;
    } else {
      assert (steps + more)[1..] == steps[1..] + more;
      Join(Apply(s, steps[0]), steps[1..], more, allowHard);
    }
  }

  lemma StepConserved(s: Queue, step: Step)
    requires Enabled(s, step, true) && Integrity(s) && Conserved(s)
    ensures Conserved(Apply(s, step))
  {
    var t := Apply(s, step);
    SubsGrow(s, step);
    forall i: nat ensures Copies(t, i) == if i < |t.subs| then 1 else 0 {
      StepCopies(s, step, i);
    }
  }

  /** Nothing but the sequence state and the history of endings changes from s to t. */
  predicate SeqOnly(s: Queue, t: Queue) {
    && t.dispatch == s.dispatch && t.elevator == s.elevator && t.driver == s.driver
    && t.color == s.color && t.orig == s.orig && t.origStarted == s.origStarted
    && t.ordered == s.ordered && t.nextOrdered == s.nextOrdered
    && t.subs == s.subs && t.barriers == s.barriers && t.left == s.left
  }

  lemma CompleteSeqFrame(s: Queue, stages: Stages, error: int)
    ensures SeqOnly(s, CompleteSeq(s, stages, error))
    ensures !s.origStarted ==> CompleteSeq(s, stages, error).inFlight == s.inFlight
  {
  }

  lemma CompletedFrame(s: Queue, e: Entry)
    ensures SeqOnly(s, Completed(s, e))
    ensures !s.origStarted ==> Completed(s, e).inFlight == s.inFlight - Account(e)
  {
    CompleteSeqFrame(s.(inFlight := s.inFlight - Account(e)), NO_STAGE.(drain := true), 0);
  }

  lemma EndFrame(s: Queue, e: Entry, error: int)
    ensures SeqOnly(s, End(s, e, error))
    ensures !s.origStarted ==> End(s, e, error).inFlight == s.inFlight - Account(e)
  {
    hide CompleteSeq, Completed;
    if e.rq.Fs? {
      CompletedFrame(s.(ended := s.ended + e.rq.bios), e);
    } else {
      CompletedFrame(s, e);
      CompleteSeqFrame(Completed(s, e), StageOf(e.rq), error);
    }
  }

  // blk_do_ordered in three parts: it starts a sequence, refuses a barrier, or looks at the head.

  lemma HeadStarts(s: Queue)
    requires s.dispatch != [] && FsBar(s.dispatch[0].rq) && s.ordseq == NO_STAGE && s.nextOrdered != NONE
    ensures DoOrdered(s) == StartOrdered(s)
  {
    hide StartOrdered, Completed, ReqSeq, CurSeq;
  }

  lemma HeadRefused(s: Queue)
    requires s.dispatch != [] && FsBar(s.dispatch[0].rq) && s.ordseq == NO_STAGE && s.nextOrdered == NONE
    ensures DoOrdered(s) ==
            (EndBarrier(s.(dispatch := s.dispatch[1..], left := s.left + 1), s.dispatch[0].rq.bios, -EOPNOTSUPP), Gone)
  {
    hide StartOrdered, ReqSeq, CurSeq, CompleteSeq;
  }

  lemma HeadKept(s: Queue)
    requires s.dispatch != [] && !(FsBar(s.dispatch[0].rq) && s.ordseq == NO_STAGE)
    ensures DoOrdered(s).0 == s.(warned := DoOrdered(s).0.warned)
    ensures DoOrdered(s).1 == Hold || DoOrdered(s).1 == Issue(s.dispatch[0].rq)
  {
    hide StartOrdered, Completed, ReqSeq, CurSeq;
  }

  lemma DoOrderedFrame(s: Queue)
    requires s.dispatch != []
    ensures var t := DoOrdered(s).0;
            && t.elevator == s.elevator && t.driver == s.driver && t.color == s.color && t.nextOrdered == s.nextOrdered
            && t.subs == s.subs && t.barriers == s.barriers
  {
    hide DoOrdered, StartOrdered;
    if s.ordseq != NO_STAGE || !FsBar(s.dispatch[0].rq) {
      HeadKept(s);
    } else if s.nextOrdered != NONE {
      HeadStarts(s);
      StartFrame(s);
    } else {
      HeadRefused(s);
    }
  }

  lemma StartFrame(s: Queue)
    requires s.dispatch != [] && s.dispatch[0].rq.Fs?
    ensures var t := StartOrdered(s).0;
            && t.elevator == s.elevator && t.driver == s.driver && t.color == s.color && t.nextOrdered == s.nextOrdered
            && t.subs == s.subs && t.barriers == s.barriers
  {
    hide CompleteSeq, EffectiveMode, Proxies, Skipped;
    var t := StartState(s);
    CompleteSeqFrame(t, Skipped(t.ordered, t.ordered.byDrain && t.inFlight != 0), 0);
  }

  lemma SubsGrow(s: Queue, step: Step)
    requires Enabled(s, step, true)
    ensures |Apply(s, step).subs| == |s.subs| + if Submits(step) then 1 else 0
  {
    hide DoOrdered, End, InsertAt, RemoveAt, SortPos, RequeuePos, NewFs, Account;
    match step
    case Next => DoOrderedFrame(s);
    case Complete(k, error) => EndFrame(s.(driver := RemoveAt(s.driver, k)), s.driver[k], error);
    case _ =>
  }

  /** In every reachable state, in every ordering mode, no stage was completed twice, the
      proxies outstanding are exactly those of the open stages, and every submitted bio
      is in exactly one place. */
  lemma {:induction false} RunIntegrity(s: Queue, steps: seq<Step>)
    requires Runs(s, steps, true) && Integrity(s) && Conserved(s)
    ensures Integrity(Exec(s, steps)) && Conserved(Exec(s, steps))
    decreases |steps|
  {
    if steps != [] {
      StepIntegrity(s, steps[0]);
      StepConserved(s, steps[0]);
      RunIntegrity(Apply(s, steps[0]), steps[1..]);
    }
  }

  /** With nothing queued and no sequence in progress the queue is consistent. */
  lemma IdleIntegrity(s: Queue)
    requires s.dispatch == [] && s.driver == [] && s.ordseq == NO_STAGE && !s.bug
    ensures Integrity(s)
    ensures s.elevator == [] && s.subs == [] && s.ended == [] ==> Conserved(s)
  {
    assert forall w :: Sum(s.dispatch, w) == 0 && Sum(s.driver, w) == 0;
    if s.elevator == [] && s.subs == [] && s.ended == [] {
      forall i: nat ensures Copies(s, i) == 0 {
        assert Sum(s.elevator, Carries(i)) == 0 && Occurs(s.ended, i) == 0;
      }
    }
  }

  lemma SumsNonNegative(s: Queue, i: nat)
    ensures Sum(s.elevator, Carries(i)) >= 0 && Sum(s.dispatch, Carries(i)) >= 0 && Sum(s.driver, Carries(i)) >= 0
  {
    SumNonNegative(s.elevator, Carries(i));
    SumNonNegative(s.dispatch, Carries(i));
    SumNonNegative(s.driver, Carries(i));
  }

  /** Where a sequence may end, the barrier is ended with the first error reported. */
  predicate EndsWith(s: Queue, t: Queue, b: nat) {
    && Occurs(t.ended, b) > Occurs(s.ended, b)
    && b in t.outcome && t.outcome[b] == FirstError(t.errs)
    && s.errs <= t.errs
  }

  lemma CompleteSeqOutcome(s: Queue, stages: Stages, error: int, b: nat)
    requires s.orderr == FirstError(s.errs) && s.ordseq != NO_STAGE && OrigBios(s) == [b]
    ensures CompleteSeq(s, stages, error).ordseq == NO_STAGE ==> EndsWith(s, CompleteSeq(s, stages, error), b)
    ensures s.errs <= CompleteSeq(s, stages, error).errs && OrigBios(CompleteSeq(s, stages, error)) == [b]
    ensures Occurs(CompleteSeq(s, stages, error).ended, b) >= Occurs(s.ended, b)
  {
    FirstErrorAppend(s.errs, error);
    OccursConcat(s.ended, [b], b);
  }

  lemma CompletedOutcome(s: Queue, e: Entry, b: nat)
    requires InSequence(s) && OrigBios(s) == [b]
    ensures Completed(s, e).ordseq == NO_STAGE ==> EndsWith(s, Completed(s, e), b)
    ensures s.errs <= Completed(s, e).errs && OrigBios(Completed(s, e)) == [b]
    ensures Occurs(Completed(s, e).ended, b) >= Occurs(s.ended, b)
  {
    hide CompleteSeq, CurSeq, ReqSeq, Account;
    var s1 := s.(inFlight := s.inFlight - Account(e));
    CompleteSeqOutcome(s1, NO_STAGE.(drain := true), 0, b);
  }

  lemma FsOutcome(s: Queue, e: Entry, b: nat)
    requires InSequence(s) && OrigBios(s) == [b] && e.rq.Fs?
    ensures End(s, e, 0).ordseq == NO_STAGE ==> EndsWith(s, End(s, e, 0), b)
  {
    hide Completed, EndsWith, Occurs;
    var s1 := s.(ended := s.ended + e.rq.bios);
    OccursConcat(s.ended, e.rq.bios, b);
    CompletedOutcome(s1, e, b);
    if Completed(s1, e).ordseq == NO_STAGE {
      EndsTrans(s, s1, Completed(s1, e), b);
    }
  }

  lemma ProxyOutcome(s: Queue, e: Entry, error: int, b: nat)
    requires InSequence(s) && OrigBios(s) == [b] && StageOf(e.rq) != NO_STAGE && InSequence(Completed(s, e))
    ensures End(s, e, error).ordseq == NO_STAGE ==> EndsWith(s, End(s, e, error), b)
  {
    hide Completed, CompleteSeq, EndsWith, Occurs;
    var c := Completed(s, e);
    CompletedOutcome(s, e, b);
    CompleteSeqOutcome(c, StageOf(e.rq), error, b);
    if CompleteSeq(c, StageOf(e.rq), error).ordseq == NO_STAGE {
      EndsTrans(s, c, CompleteSeq(c, StageOf(e.rq), error), b);
    }
  }

  lemma EndOutcome(s: Queue, k: nat, error: int, b: nat)
    requires k < |s.driver| && Integrity(s) && s.ordseq != NO_STAGE && OrigBios(s) == [b]
    ensures EndAt(s, k, error).ordseq == NO_STAGE ==> EndsWith(s, EndAt(s, k, error), b)
  {
    hide Completed, CompleteSeq, Balanced, Occurs;
    var s1, e := s.(driver := RemoveAt(s.driver, k)), s.driver[k];
    if e.rq.Fs? {
      FsOutcome(s1, e, b);
    } else if e.rq.Special? {
      CompletedOutcome(s1, e, b);
    } else {
      StillOpen(s, k);
      ProxyOutcome(s1, e, error, b);
    }
  }

  lemma EndsTrans(s: Queue, c: Queue, t: Queue, b: nat)
    requires Occurs(s.ended, b) <= Occurs(c.ended, b) && s.errs <= c.errs && EndsWith(c, t, b)
    ensures EndsWith(s, t, b)
  {
  }

  lemma OnlyCompletionEnds(s: Queue, step: Step)
    requires Enabled(s, step, true) && Integrity(s) && s.ordseq != NO_STAGE && !step.Complete?
    ensures Apply(s, step).ordseq != NO_STAGE
  {
    hide Balanced, StartOrdered, Completed, CompleteSeq;
  }

  // ----- a barrier carries one bio -----

  /** A file system request with REQ_HARDBARRIER: a barrier itself, not its proxy. */
  predicate FsBar(rq: Request) {
    rq.Fs? && rq.barrier
  }

  predicate OneBio(es: seq<Entry>) {
    forall i :: 0 <= i < |es| && FsBar(es[i].rq) ==> |es[i].rq.bios| == 1
  }

  predicate NoBar(es: seq<Entry>) {
    forall i :: 0 <= i < |es| ==> !FsBar(es[i].rq)
  }

  /** Barriers are not merged with: each carries the one bio it was made of. */
  predicate Single(s: Queue) {
    NoBar(s.elevator) && OneBio(s.dispatch) && OneBio(s.driver) && (s.ordseq != NO_STAGE ==> |OrigBios(s)| == 1)
  }

  lemma OneBioInsert(es: seq<Entry>, p: nat, e: Entry)
    requires OneBio(es) && p <= |es| && (FsBar(e.rq) ==> |e.rq.bios| == 1)
    ensures OneBio(InsertAt(es, p, e))
  {
  }

  lemma OneBioRemove(es: seq<Entry>, p: nat)
    requires p < |es|
    ensures OneBio(es) ==> OneBio(RemoveAt(es, p))
    ensures NoBar(es) ==> NoBar(RemoveAt(es, p))
  {
  }

  lemma StartSingle(s: Queue)
    requires s.dispatch != [] && FsBar(s.dispatch[0].rq) && Single(s)
    ensures Single(StartOrdered(s).0)
  {
    hide EffectiveMode, Skipped, Account, CompleteSeq, Proxies;
    var t := StartState(s);
    ProxiesSingle(t.ordered);
    CompleteSeqFrame(t, Skipped(t.ordered, t.ordered.byDrain && t.inFlight != 0), 0);
  }

  lemma DoOrderedSingle(s: Queue)
    requires s.dispatch != [] && Single(s)
    ensures Single(DoOrdered(s).0)
  {
    hide ReqSeq, CurSeq, StartOrdered, Account, Completed;
    var e := s.dispatch[0];
    if s.ordseq == NO_STAGE && FsBar(e.rq) {
      if s.nextOrdered != NONE {
        StartSingle(s);
      } else {
        var s1 := s.(dispatch := s.dispatch[1..], inFlight := s.inFlight + Account(e), left := s.left + 1);
        TerminatedIdle(EndBarrier(s1, e.rq.bios, -EOPNOTSUPP), e);
      }
    }
  }

  lemma TerminatedIdle(s: Queue, e: Entry)
    requires s.ordseq == NO_STAGE
    ensures Completed(s, e) == s.(inFlight := s.inFlight - Account(e))
  {
  }

  lemma ProxiesSingle(m: Mode)
    ensures forall i :: 0 <= i < |Proxies(m)| ==> !Proxies(m)[i].rq.Fs?
  {
  }

  lemma EndSingle(s: Queue, k: nat, error: int)
    requires k < |s.driver| && Integrity(s) && Single(s)
    ensures Single(EndAt(s, k, error))
  {
    hide End, OneBio, NoBar;
    OneBioRemove(s.driver, k);
    EndFrame(s.(driver := RemoveAt(s.driver, k)), s.driver[k], error);
    EndIntegrity(s, k, error);
  }

  /** Every step keeps barriers unmerged, in every mode and with hard special requests. */
  lemma StepSingle(s: Queue, step: Step)
    requires Enabled(s, step, true) && Integrity(s) && Single(s)
    ensures Single(Apply(s, step))
  {
    hide DoOrdered, EndAt, DequeueAt, RequeueAt, SortPos, InsertAt, RemoveAt, OneBio, Integrity;
    match step
    case AddSorted(_, _) =>
    case AddBack(write, sector) =>
      OneBioInsert(s.dispatch, |s.dispatch|, Entry(NewFs(s, false, false, write, sector), false, true));
    case AddBarrier(empty, write, sector) =>
      OneBioInsert(s.dispatch, |s.dispatch|, Entry(NewFs(s, true, empty, write, sector), false, true));
    case AddSpecial(hard, front) =>
      OneBioInsert(s.dispatch, if front then 0 else |s.dispatch|, Entry(Special(hard), false, true));
    case MergeBio(_, _, _) =>
    case MergeRequests(k, j) =>
      var e := s.elevator[k];
      OneBioRemove(s.elevator[k := e.(rq := e.rq.(bios := e.rq.bios + s.elevator[j].rq.bios))], j);
    case Dispatch(k, sorted, boundary) =>
      SortPosBound(s.dispatch, s.elevator[k].rq, boundary, |s.dispatch|);
      OneBioRemove(s.elevator, k);
      OneBioInsert(s.dispatch, if sorted then SortPos(s.dispatch, s.elevator[k].rq, boundary, |s.dispatch|) else |s.dispatch|,
                   s.elevator[k]);
    case Next =>
      DoOrderedSingle(s);
      MarkSingle(DoOrdered(s).0);
    case Dequeue(k) =>
      DequeueSingle(s, k);
    case Complete(k, error) => EndSingle(s, k, error);
    case Requeue(k) =>
      RequeueSingle(s, k);
  }

  lemma MarkSingle(s: Queue)
    requires Single(s)
    ensures Single(MarkStarted(s))
  {
  }

  lemma DequeueSingle(s: Queue, k: nat)
    requires k < |s.dispatch| && Single(s)
    ensures Single(DequeueAt(s, k))
  {
    OneBioRemove(s.dispatch, k);
  }

  lemma RequeueSingle(s: Queue, k: nat)
    requires k < |s.driver| && Single(s)
    ensures Single(RequeueAt(s, k))
  {
    hide RequeuePos, InsertAt, RemoveAt;
    var s1, e := s.(driver := RemoveAt(s.driver, k)), s.driver[k];
    var s2 := s1.(inFlight := s1.inFlight - Account(e));
    RequeuePosBound(s2, e.rq, 0);
    OneBioRemove(s.driver, k);
    OneBioInsert(s.dispatch, if s2.ordseq == NO_STAGE then 0 else RequeuePos(s2, e.rq, 0), Entry(e.rq, false, true));
  }

  lemma {:induction false} RunSingle(s: Queue, steps: seq<Step>)
    requires Runs(s, steps, true) && Integrity(s) && Single(s)
    ensures Single(Exec(s, steps))
    decreases |steps|
  {
    hide Single, Integrity;
    if steps != [] {
      StepIntegrity(s, steps[0]);
      StepSingle(s, steps[0]);
      RunSingle(Apply(s, steps[0]), steps[1..]);
    }
  }

  /** The step that ends a sequence is a completion; it ends the original barrier, which
      had not been ended before and is then ended exactly once, with the first error
      reported in the sequence, and it leaves no part of the sequence behind. */
  lemma SequenceEnd(s: Queue, step: Step)
    requires Enabled(s, step, true) && Integrity(s) && Conserved(s) && Single(s)
    requires s.ordseq != NO_STAGE && Apply(s, step).ordseq == NO_STAGE
    ensures |OrigBios(s)| == 1
    ensures var t, b := Apply(s, step), OrigBios(s)[0];
            && step.Complete? && Balanced(t, ALL_STAGES)
            && Occurs(s.ended, b) == 0 && Occurs(t.ended, b) == 1
            && b in t.outcome && t.outcome[b] == FirstError(t.errs)
            && s.errs <= t.errs
  {
    hide EndAt, DoOrdered, RequeueRequest, DispatchFrom, DequeueAt, MergeInto, NoBar, OneBio;
    var t, b := Apply(s, step), OrigBios(s)[0];
    assert OrigBios(s) == [b];
    StepIntegrity(s, step);
    StepConserved(s, step);
    assert Copies(s, b) <= 1 && Copies(t, b) <= 1;
    SumsNonNegative(s, b);
    SumsNonNegative(t, b);
    if !step.Complete? {
      OnlyCompletionEnds(s, step);
    }
    EndOutcome(s, step.k, step.error, b);
  }

  /** Over all runs of a fresh queue, in every ordering mode and with hard special requests: when a
      step ends a sequence it ends that sequence's barrier, as SequenceEnd says. */
  lemma {:induction false} RunSequenceEnd(m: Mode, steps: seq<Step>, step: Step)
    requires Runs(Init(m), steps, true) && Enabled(Exec(Init(m), steps), step, true)
    requires Exec(Init(m), steps).ordseq != NO_STAGE && Apply(Exec(Init(m), steps), step).ordseq == NO_STAGE
    ensures var s := Exec(Init(m), steps);
            && |OrigBios(s)| == 1
            && var t, b := Apply(s, step), OrigBios(s)[0];
            && step.Complete? && Balanced(t, ALL_STAGES)
            && Occurs(s.ended, b) == 0 && Occurs(t.ended, b) == 1
            && b in t.outcome && t.outcome[b] == FirstError(t.errs)
  {
    hide Apply, Enabled, Integrity, Conserved, Single, Balanced;
    FreshSingle(m);
    RunIntegrity(Init(m), steps);
    RunSingle(Init(m), steps);
    SequenceEnd(Exec(Init(m), steps), step);
  }

  lemma FreshSingle(m: Mode)
    ensures Integrity(Init(m)) && Conserved(Init(m)) && Single(Init(m))
  {
    hide Integrity, Conserved;
    IdleIntegrity(Init(m));
  }
}
