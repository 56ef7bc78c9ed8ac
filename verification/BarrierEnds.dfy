/** How barriers end, over whole runs and in every ordering mode: only through their own sequence, or
    refused by a device without ordering; and the one way callers can break that. */
module BarrierEnds {
  import opened ListOps
  import opened Barrier
  import opened BarrierSequence
  import opened BarrierOrder

  // ----- the barriers of the dispatch list -----

  /** The barriers on a list, by number. */
  function Bars(d: seq<Entry>): seq<nat> {
    if d == [] then [] else (if FsBar(d[0].rq) then [d[0].rq.epoch] else []) + Bars(d[1..])
  }

  function Range(from: nat, to: nat): (r: seq<nat>)
    requires from <= to
    ensures |r| == to - from && forall i :: 0 <= i < |r| ==> r[i] == from + i
  {
    seq(to - from, (i: nat) => from + i)
  }

  lemma {:induction false} BarsConcat(a: seq<Entry>, b: seq<Entry>)
    ensures Bars(a + b) == Bars(a) + Bars(b)
  {
    if a == [] {
      assert a + b == b;
    } else {
      var first := if FsBar(a[0].rq) then [a[0].rq.epoch] else [];
      assert (a + b)[1..] == a[1..] + b;
      BarsConcat(a[1..], b);
      assert Bars(a + b) == first + (Bars(a[1..]) + Bars(b));
    }
  }

  lemma {:induction false} BarsNone(d: seq<Entry>)
    requires NoBar(d)
    ensures Bars(d) == []
  {
    if d != [] {
      BarsNone(d[1..]);
    }
  }

  lemma BarsInsert(d: seq<Entry>, p: nat, e: Entry)
    requires p <= |d| && !FsBar(e.rq)
    ensures Bars(InsertAt(d, p, e)) == Bars(d)
  {
    assert d == d[..p] + d[p..];
    BarsConcat(d[..p], d[p..]);
    BarsConcat(d[..p] + [e], d[p..]);
    BarsConcat(d[..p], [e]);
  }

  lemma BarsRemove(d: seq<Entry>, p: nat)
    requires p < |d| && !FsBar(d[p].rq)
    ensures Bars(RemoveAt(d, p)) == Bars(d)
  {
    assert InsertAt(RemoveAt(d, p), p, d[p]) == d;
    BarsInsert(RemoveAt(d, p), p, d[p]);
  }

  lemma {:induction false} BarsMember(d: seq<Entry>, k: nat) returns (i: nat)
    requires k in Bars(d)
    ensures i < |d| && IsBar(d[i], k)
  {
    if FsBar(d[0].rq) && d[0].rq.epoch == k {
      i := 0;
    } else {
      i := BarsMember(d[1..], k);
      i := i + 1;
    }
  }

  // ----- the invariant -----

  /** A barrier on the dispatch list is the one its number says, in that one's colour, and has not
      been shown to the driver. */
  predicate BarOk(barriers: seq<nat>, e: Entry) {
    FsBar(e.rq) ==>
      && e.rq.epoch < |barriers| && e.rq.bios == [barriers[e.rq.epoch]]
      && (e.rq.color <==> Odd(e.rq.epoch)) && !e.started
  }

  predicate AllBarOk(barriers: seq<nat>, d: seq<Entry>) {
    forall i :: 0 <= i < |d| ==> BarOk(barriers, d[i])
  }

  /** The sequence in progress is that of the last barrier to leave the list. */
  predicate OrigIsLast(s: Queue) {
    In(s) ==>
      && s.orig.Some? && FsBar(s.orig.value) && 0 < s.left <= |s.barriers|
      && s.orig.value.bios == [s.barriers[s.left - 1]] && (s.orig.value.color <==> Odd(s.left - 1))
  }

  /** Barriers leave the dispatch list one by one, in the order in which they were queued. */
  predicate Lined(s: Queue) {
    && NoBar(s.elevator) && NoBar(s.driver) && AllBarOk(s.barriers, s.dispatch)
    && s.left <= |s.barriers| && Bars(s.dispatch) == Range(s.left, |s.barriers|)
    && (s.color <==> Odd(|s.barriers|)) && OrigIsLast(s)
  }

  /** Barriers that have left and are not in progress have been ended. */
  predicate LeftEnded(s: Queue) {
    forall k :: 0 <= k < |s.barriers| && k + (if In(s) then 1 else 0) < s.left ==> s.barriers[k] in s.ended
  }

  lemma HeadIsNext(s: Queue)
    requires Lined(s) && s.dispatch != [] && FsBar(s.dispatch[0].rq)
    ensures s.dispatch[0].rq.epoch == s.left < |s.barriers|
    ensures s.dispatch[0].rq.bios == [s.barriers[s.left]] && (s.dispatch[0].rq.color <==> Odd(s.left))
    ensures Bars(s.dispatch[1..]) == Range(s.left + 1, |s.barriers|)
  {
    assert BarOk(s.barriers, s.dispatch[0]);
    assert Bars(s.dispatch)[0] == s.dispatch[0].rq.epoch;
    assert Bars(s.dispatch)[1..] == Bars(s.dispatch[1..]);
    assert Range(s.left, |s.barriers|)[1..] == Range(s.left + 1, |s.barriers|);
  }

  /** A barrier is never shown to the driver itself. */
  lemma NeverShown(s: Queue)
    requires Lined(s) && Integrity(s) && s.dispatch != []
    ensures DoOrdered(s).1.Issue? ==> !FsBar(DoOrdered(s).1.rq)
    ensures DoOrdered(s).1.Issue? && !FsBar(s.dispatch[0].rq) ==>
              DoOrdered(s).1.rq == s.dispatch[0].rq && DoOrdered(s).0 == s.(warned := DoOrdered(s).0.warned)
  {
    hide Bars, Range, Balanced, CompleteSeq, EffectiveMode, Skipped, Completed, AllBarOk, NoBar;
    if FsBar(s.dispatch[0].rq) {
      HeadIsNext(s);
      if !In(s) && s.nextOrdered != NONE {
        ProxiesSingle(StartState(s).ordered);
      }
    }
  }

  // ----- every step keeps it -----

  lemma LinedFrame(s: Queue, t: Queue)
    requires Lined(s) && NoBar(t.elevator) && NoBar(t.driver) && AllBarOk(s.barriers, t.dispatch)
    requires Bars(t.dispatch) == Bars(s.dispatch)
    requires t.barriers == s.barriers && t.color == s.color && t.left == s.left && (In(t) ==> In(s) && t.orig == s.orig)
    ensures Lined(t)
  {
  }

  lemma InsertLined(s: Queue, p: nat, e: Entry, t: Queue)
    requires Lined(s) && p <= |s.dispatch| && !FsBar(e.rq) && t.dispatch == InsertAt(s.dispatch, p, e)
    requires NoBar(t.elevator) && NoBar(t.driver) && t.ordseq == s.ordseq && t.orig == s.orig
    requires t.barriers == s.barriers && t.color == s.color && t.left == s.left
    ensures Lined(t)
  {
    BarsInsert(s.dispatch, p, e);
    assert AllBarOk(s.barriers, t.dispatch);
    LinedFrame(s, t);
  }

  lemma BarrierLined(s: Queue, empty: bool, write: bool, sector: nat)
    requires Lined(s) && s.elevator == []
    ensures Lined(Apply(s, AddBarrier(empty, write, sector)))
  {
    var t, e := Apply(s, AddBarrier(empty, write, sector)), Entry(NewFs(s, true, empty, write, sector), false, true);
    assert t.dispatch == s.dispatch + [e];
    BarsConcat(s.dispatch, [e]);
    assert [e][1..] == [];
    assert Range(s.left, |s.barriers|) + [|s.barriers|] == Range(s.left, |s.barriers| + 1);
    forall i | 0 <= i < |t.dispatch| ensures BarOk(t.barriers, t.dispatch[i]) {
      assert i < |s.dispatch| ==> BarOk(s.barriers, s.dispatch[i]);
    }
  }

  lemma StartListOk(s: Queue, proxies: seq<Entry>)
    requires Lined(s) && s.dispatch != [] && NoBar(proxies)
    ensures AllBarOk(s.barriers, proxies + s.dispatch[1..])
    ensures Bars(proxies + s.dispatch[1..]) == Bars(s.dispatch[1..])
  {
    BarsNone(proxies);
    BarsConcat(proxies, s.dispatch[1..]);
    var d := proxies + s.dispatch[1..];
    forall i | 0 <= i < |d| ensures BarOk(s.barriers, d[i]) {
      if i >= |proxies| {
        assert d[i] == s.dispatch[i - |proxies| + 1];
      }
    }
  }

  lemma StartStateLined(s: Queue)
    requires Lined(s) && !In(s) && s.dispatch != [] && FsBar(s.dispatch[0].rq)
    ensures Lined(StartState(s)) && In(StartState(s))
  {
    hide EffectiveMode, Proxies, Account, Bars, Range, AllBarOk;
    var t := StartState(s);
    HeadIsNext(s);
    ProxiesSingle(t.ordered);
    StartListOk(s, Proxies(t.ordered));
  }

  lemma StartLined(s: Queue)
    requires Lined(s) && !In(s) && s.dispatch != [] && FsBar(s.dispatch[0].rq)
    ensures Lined(StartOrdered(s).0)
  {
    hide CompleteSeq, StartState, Skipped, Proxies, AllBarOk, Bars, Range;
    var t := StartState(s);
    StartStateLined(s);
    CompleteSeqFrame(t, Skipped(t.ordered, t.ordered.byDrain && t.inFlight != 0), 0);
    LinedFrame(t, StartOrdered(s).0);
  }

  lemma TerminatedLined(s: Queue)
    requires Lined(s) && !In(s) && s.dispatch != [] && FsBar(s.dispatch[0].rq) && s.nextOrdered == NONE
    ensures Lined(DoOrdered(s).0)
    ensures DoOrdered(s).0.ended == s.ended + [s.barriers[s.left]] && !In(DoOrdered(s).0)
    ensures DoOrdered(s).0.outcome == s.outcome[s.barriers[s.left] := -EOPNOTSUPP]
  {
    hide Completed, StartOrdered, Account, ReqSeq, CurSeq, Bars, Range;
    HeadIsNext(s);
    var e := s.dispatch[0];
    var s1 := s.(dispatch := s.dispatch[1..], inFlight := s.inFlight + Account(e), left := s.left + 1);
    TerminatedIdle(EndBarrier(s1, e.rq.bios, -EOPNOTSUPP), e);
  }

  lemma NextLined(s: Queue)
    requires Lined(s) && Integrity(s) && s.dispatch != []
    ensures Lined(NextRequest(s))
  {
    hide Lined, Integrity, StartOrdered, ReqSeq, CurSeq, Completed;
    NeverShown(s);
    if FsBar(s.dispatch[0].rq) && !In(s) {
      if s.nextOrdered != NONE {
        StartLined(s);
      } else {
        TerminatedLined(s);
      }
    } else {
      WarnedLined(s, DoOrdered(s).0.warned);
    }
    if DoOrdered(s).1.Issue? {
      ShownHead(s);
      MarkLined(DoOrdered(s).0);
    }
  }

  lemma WarnedLined(s: Queue, warned: bool)
    requires Lined(s)
    ensures Lined(s.(warned := warned))
  {
  }

  /** What is shown is the head of the list, and no barrier. */
  lemma ShownHead(s: Queue)
    requires Lined(s) && Integrity(s) && s.dispatch != [] && DoOrdered(s).1.Issue?
    ensures DoOrdered(s).0.dispatch != [] && !FsBar(DoOrdered(s).0.dispatch[0].rq)
  {
    hide Bars, Range, Balanced, EffectiveMode, Completed, AllBarOk, NoBar, Integrity;
    NeverShown(s);
    if FsBar(s.dispatch[0].rq) && !In(s) && s.nextOrdered != NONE {
      var t := StartState(s);
      ProxiesSingle(t.ordered);
      CompleteSeqFrame(t, Skipped(t.ordered, t.ordered.byDrain && t.inFlight != 0), 0);
    }
  }

  lemma MarkLined(s: Queue)
    requires Lined(s) && s.dispatch != [] && !FsBar(s.dispatch[0].rq)
    ensures Lined(MarkStarted(s))
  {
    var t := MarkStarted(s);
    assert t.dispatch[1..] == s.dispatch[1..];
    assert AllBarOk(s.barriers, t.dispatch);
  }

  lemma DequeueLined(s: Queue, k: nat)
    requires Lined(s) && k < |s.dispatch| && s.dispatch[k].started
    ensures Lined(DequeueAt(s, k))
  {
    hide Range, Account;
    assert BarOk(s.barriers, s.dispatch[k]);
    BarsRemove(s.dispatch, k);
    LinedFrame(s, DequeueAt(s, k));
  }

  lemma EndLined(s: Queue, k: nat, error: int)
    requires Lined(s) && Integrity(s) && k < |s.driver|
    ensures Lined(EndAt(s, k, error)) && EndAt(s, k, error).dispatch == s.dispatch
    ensures EndAt(s, k, error).barriers == s.barriers && EndAt(s, k, error).left == s.left
    ensures In(EndAt(s, k, error)) ==> In(s) && OrigBios(EndAt(s, k, error)) == OrigBios(s)
  {
    hide End, Bars, Range, Integrity, AllBarOk;
    OneBioRemove(s.driver, k);
    EndFrame(s.(driver := RemoveAt(s.driver, k)), s.driver[k], error);
    EndIntegrity(s, k, error);
    LinedFrame(s, EndAt(s, k, error));
  }

  lemma RequeueLined(s: Queue, k: nat)
    requires Lined(s) && k < |s.driver|
    ensures Lined(RequeueAt(s, k))
  {
    hide RequeuePos, InsertAt, RemoveAt, Bars, Range, AllBarOk;
    var s1, e := s.(driver := RemoveAt(s.driver, k)), s.driver[k];
    var s2 := s1.(inFlight := s1.inFlight - Account(e));
    RequeuePosBound(s2, e.rq, 0);
    OneBioRemove(s.driver, k);
    InsertLined(s, if s2.ordseq == NO_STAGE then 0 else RequeuePos(s2, e.rq, 0), Entry(e.rq, false, true), RequeueAt(s, k));
  }

  lemma DispatchLined(s: Queue, k: nat, sorted: bool, boundary: nat)
    requires Lined(s) && k < |s.elevator| && s.elevator[k].rq.Fs?
    ensures Lined(DispatchFrom(s, k, sorted, boundary))
  {
    hide SortPos, InsertAt, RemoveAt, Bars, Range, AllBarOk;
    var e := s.elevator[k];
    SortPosBound(s.dispatch, e.rq, boundary, |s.dispatch|);
    OneBioRemove(s.elevator, k);
    InsertLined(s, if sorted then SortPos(s.dispatch, e.rq, boundary, |s.dispatch|) else |s.dispatch|, e,
                DispatchFrom(s, k, sorted, boundary));
  }

  lemma MergeLined(s: Queue, k: nat, j: nat)
    requires Lined(s) && Enabled(s, MergeRequests(k, j), true)
    ensures Lined(MergeInto(s, k, j))
  {
    hide RemoveAt, Bars, Range, AllBarOk;
    var e := s.elevator[k];
    OneBioRemove(s.elevator[k := e.(rq := e.rq.(bios := e.rq.bios + s.elevator[j].rq.bios))], j);
    LinedFrame(s, MergeInto(s, k, j));
  }

  /** Without hard special requests every step keeps the barriers in line, in every mode. */
  lemma StepLined(s: Queue, step: Step)
    requires Enabled(s, step, false) && Enabled(s, step, true) && Lined(s) && Integrity(s)
    ensures Lined(Apply(s, step))
  {
    hide NextRequest, EndAt, RequeueAt, DispatchFrom, DequeueAt, MergeInto, Bars, Range, AllBarOk, Integrity, InsertAt;
    match step
    case AddSorted(_, _) => LinedFrame(s, Apply(s, step));
    case AddBack(write, sector) =>
      InsertLined(s, |s.dispatch|, Entry(NewFs(s, false, false, write, sector), false, true), Apply(s, step));
    case AddBarrier(empty, write, sector) => BarrierLined(s, empty, write, sector);
    case AddSpecial(hard, front) =>
      InsertLined(s, if front then 0 else |s.dispatch|, Entry(Special(hard), false, true), Apply(s, step));
    case MergeBio(_, _, _) => LinedFrame(s, Apply(s, step));
    case MergeRequests(k, j) => MergeLined(s, k, j);
    case Dispatch(k, sorted, boundary) => DispatchLined(s, k, sorted, boundary);
    case Next => NextLined(s);
    case Dequeue(k) => DequeueLined(s, k);
    case Complete(k, error) => EndLined(s, k, error);
    case Requeue(k) => RequeueLined(s, k);
  }

  lemma LinedSingle(s: Queue)
    requires Lined(s)
    ensures Single(s)
  {
    forall i | 0 <= i < |s.dispatch| && FsBar(s.dispatch[i].rq) ensures |s.dispatch[i].rq.bios| == 1 {
      assert BarOk(s.barriers, s.dispatch[i]);
    }
  }

  // ----- how a barrier ends -----

  /** In this step barrier bio b ends in one of the three ways it may: its sequence is over, its
      sequence was over as soon as it started, or the device has no ordering. */
  predicate EndsProperly(s: Queue, step: Step, b: nat)
    requires Enabled(s, step, true)
  {
    var t := Apply(s, step);
    && !In(t) && Balanced(t, ALL_STAGES) && b in t.outcome
    && (In(s) ==> step.Complete? && OrigBios(s) == [b] && s.errs <= t.errs && t.outcome[b] == FirstError(t.errs))
    && (!In(s) ==> step.Next? && FsBar(s.dispatch[0].rq) && s.dispatch[0].rq.bios == [b] &&
                   t.outcome[b] == if s.nextOrdered == NONE then -EOPNOTSUPP else 0)
  }

  /** What one step must respect: a barrier is never shown to the driver itself, it is ended at most
      once and only properly, its outcome stands, and a sequence that is over has ended its barrier. */
  ghost predicate StepProper(s: Queue, step: Step)
    requires Enabled(s, step, true)
  {
    var t := Apply(s, step);
    && (Issued(s, step).Some? ==> !FsBar(Issued(s, step).value))
    && (forall b :: b in t.barriers ==> Occurs(t.ended, b) <= 1)
    && (forall b :: b in t.barriers && b in t.ended && b !in s.ended ==> EndsProperly(s, step, b))
    && (forall b :: b in s.barriers && b in s.ended ==>
          b in t.ended && (b in s.outcome ==> b in t.outcome && t.outcome[b] == s.outcome[b]))
    && (In(s) && !In(t) ==> forall b :: b in OrigBios(s) ==> b in t.ended)
  }

  /** A barrier has ended, waits on the dispatch list, or is in progress. */
  lemma BarrierPlace(s: Queue, k: nat)
    requires Lined(s) && LeftEnded(s) && k < |s.barriers|
    ensures var b := s.barriers[k];
            b in s.ended || Sum(s.dispatch, Carries(b)) >= 1 || (In(s) && OrigBios(s) == [b])
  {
    var b := s.barriers[k];
    if k >= s.left {
      assert Range(s.left, |s.barriers|)[k - s.left] == k;
      var i := BarsMember(s.dispatch, k);
      assert BarOk(s.barriers, s.dispatch[i]);
      OccursIn([b], b);
      SumMember(s.dispatch, i, Carries(b));
    }
  }

  predicate Quiet(step: Step) {
    !step.Next? && !step.Complete?
  }

  lemma QuietStep(s: Queue, step: Step)
    requires Enabled(s, step, true) && Quiet(step)
    ensures var t := Apply(s, step);
            && t.ended == s.ended && t.outcome == s.outcome && t.ordseq == s.ordseq && t.orig == s.orig && t.left == s.left
            && (step.AddBarrier? ==> t.barriers == s.barriers + [|s.subs|])
            && (!step.AddBarrier? ==> t.barriers == s.barriers)
  {
    hide SortPos, RequeuePos, InsertAt, RemoveAt, Account, NewFs, Merged, ReqSeq;
    match step
    case AddSorted(_, _) =>
    case AddBack(_, _) =>
    case AddBarrier(_, _, _) =>
    case AddSpecial(_, _) =>
    case MergeBio(_, _, _) =>
    case MergeRequests(_, _) =>
    case Dispatch(_, _, _) =>
    case Dequeue(_) =>
    case Requeue(_) =>
  }

  lemma StartEnds(s: Queue)
    requires Lined(s) && Integrity(s) && !In(s) && s.dispatch != [] && FsBar(s.dispatch[0].rq)
    ensures s.left < |s.barriers|
    ensures var t, b := StartOrdered(s).0, s.barriers[s.left];
            && t.left == s.left + 1 && t.barriers == s.barriers
            && t.ended == s.ended + (if In(t) then [] else [b])
            && t.outcome == if In(t) then s.outcome else s.outcome[b := 0]
  {
    hide EffectiveMode, Proxies, Skipped, Account, Lined, Integrity, CompleteSeq;
    HeadIsNext(s);
    var t := StartState(s);
    var stages := Skipped(t.ordered, t.ordered.byDrain && t.inFlight != 0);
    CompleteSeqFrame(t, stages, 0);
    SkippedEnds(t, stages, s.barriers[s.left]);
  }

  lemma SkippedEnds(s: Queue, stages: Stages, b: nat)
    requires s.ordseq.started && s.orderr == 0 && OrigBios(s) == [b]
    ensures var t := CompleteSeq(s, stages, 0);
            && t.ended == s.ended + (if In(t) then [] else [b])
            && t.outcome == if In(t) then s.outcome else s.outcome[b := 0]
  {
  }

  /** One turn of elv_next_request, as far as endings are concerned. */
  lemma NextEnds(s: Queue)
    requires Lined(s) && Integrity(s) && s.dispatch != []
    ensures var t := NextRequest(s);
            if FsBar(s.dispatch[0].rq) && !In(s) then
              && s.left < |s.barriers| && s.dispatch[0].rq.bios == [s.barriers[s.left]]
              && t.left == s.left + 1 && t.barriers == s.barriers
              && var b := s.barriers[s.left];
              && (In(t) ==> s.nextOrdered != NONE)
              && t.ended == s.ended + (if In(t) then [] else [b])
              && t.outcome == if In(t) then s.outcome
                              else s.outcome[b := if s.nextOrdered == NONE then -EOPNOTSUPP else 0]
            else t.ended == s.ended && t.outcome == s.outcome && t.barriers == s.barriers && t.left == s.left &&
                 t.ordseq == s.ordseq
  {
    hide Lined, Integrity, StartOrdered, ReqSeq, CurSeq, Completed, NextRequest, DoOrdered;
    if FsBar(s.dispatch[0].rq) && !In(s) {
      HeadIsNext(s);
      if s.nextOrdered != NONE {
        StartEnds(s);
        NextStarts(s);
      } else {
        TerminatedEnds(s);
      }
    } else {
      NextKeeps(s);
    }
  }

  lemma NextStarts(s: Queue)
    requires s.dispatch != [] && FsBar(s.dispatch[0].rq) && !In(s) && s.nextOrdered != NONE
    ensures var t, n := StartOrdered(s).0, NextRequest(s);
            n.left == t.left && n.barriers == t.barriers && n.ended == t.ended && n.outcome == t.outcome && n.ordseq == t.ordseq
  {
    hide DoOrdered, StartOrdered;
    HeadStarts(s);
  }

  lemma NextKeeps(s: Queue)
    requires s.dispatch != [] && !(FsBar(s.dispatch[0].rq) && !In(s))
    ensures var n := NextRequest(s);
            n.left == s.left && n.barriers == s.barriers && n.ended == s.ended && n.outcome == s.outcome && n.ordseq == s.ordseq
  {
    hide DoOrdered;
    HeadKept(s);
  }

  lemma TerminatedEnds(s: Queue)
    requires Integrity(s) && !In(s) && s.dispatch != [] && FsBar(s.dispatch[0].rq) && s.nextOrdered == NONE
    requires |s.dispatch[0].rq.bios| == 1
    ensures var t, b := NextRequest(s), s.dispatch[0].rq.bios[0];
            && !In(t) && t.left == s.left + 1 && t.barriers == s.barriers && t.ended == s.ended + [b]
            && t.outcome == s.outcome[b := -EOPNOTSUPP]
  {
    hide Balanced;
  }

  lemma CompleteOutcome(s: Queue, stages: Stages, error: int, c: nat)
    requires |OrigBios(s)| == 1 && c !in OrigBios(s)
    ensures var t := CompleteSeq(s, stages, error);
            && (c in t.outcome <==> c in s.outcome) && (c in s.outcome ==> t.outcome[c] == s.outcome[c])
  {
  }

  /** A completion leaves the outcome of every barrier but the one in progress. */
  lemma EndKeepsOutcome(s: Queue, k: nat, error: int, c: nat)
    requires k < |s.driver| && Integrity(s) && Single(s) && (In(s) ==> c !in OrigBios(s))
    ensures var t := EndAt(s, k, error); c in s.outcome ==> c in t.outcome && t.outcome[c] == s.outcome[c]
    ensures s.ended <= EndAt(s, k, error).ended
  {
    hide CompleteSeq, Balanced, Overlap, Account, NoBar, OneBio;
    var s1, e := s.(driver := RemoveAt(s.driver, k)), s.driver[k];
    var s2 := if e.rq.Fs? then s1.(ended := s1.ended + e.rq.bios) else s1;
    CompletedKeeps(s2, e, c);
    if !e.rq.Fs? && !e.rq.Special? {
      OutstandingProxy(s, k);
      var s3 := Completed(s2, e);
      CompleteOutcome(s3, StageOf(e.rq), error, c);
      CompleteEnded(s3, StageOf(e.rq), error);
    }
  }

  lemma CompletedKeeps(s: Queue, e: Entry, c: nat)
    requires s.ordseq != NO_STAGE ==> |OrigBios(s)| == 1 && c !in OrigBios(s)
    ensures var t := Completed(s, e);
            && (c in s.outcome ==> c in t.outcome && t.outcome[c] == s.outcome[c])
            && s.ended <= t.ended && OrigBios(t) == OrigBios(s)
  {
    hide CompleteSeq;
    var s1 := s.(inFlight := s.inFlight - Account(e));
    if s.ordseq != NO_STAGE {
      CompleteOutcome(s1, NO_STAGE.(drain := true), 0, c);
      CompleteEnded(s1, NO_STAGE.(drain := true), 0);
      CompleteSeqFrame(s1, NO_STAGE.(drain := true), 0);
    }
  }

  lemma CompleteEnded(s: Queue, stages: Stages, error: int)
    ensures s.ended <= CompleteSeq(s, stages, error).ended
  {
  }

  // ----- every run -----

  lemma NextProper(s: Queue)
    requires Lined(s) && Integrity(s) && Conserved(s) && s.dispatch != []
    ensures StepProper(s, Next)
  {
    hide Lined, Conserved, NextRequest, DoOrdered;
    var t := Apply(s, Next);
    NextEnds(s);
    NeverShown(s);
    StepIntegrity(s, Next);
    StepConserved(s, Next);
    EndedOnce(t);
    assert forall b :: b in s.ended ==> Occurs(s.ended, b) >= 1 by {
      forall b: nat | b in s.ended ensures Occurs(s.ended, b) >= 1 {
        OccursIn(s.ended, b);
      }
    }
    if FsBar(s.dispatch[0].rq) && !In(s) && !In(t) {
      FirstTime(s, s.barriers[s.left]);
    }
  }

  /** A bio has ended at most once. */
  lemma EndedOnce(s: Queue)
    requires Conserved(s)
    ensures forall b :: Occurs(s.ended, b) <= 1
  {
    forall b: nat ensures Occurs(s.ended, b) <= 1 {
      assert Copies(s, b) <= 1;
      SumsNonNegative(s, b);
    }
  }

  /** The barrier at the head of the list has not ended. */
  lemma FirstTime(s: Queue, b: nat)
    requires Conserved(s) && s.dispatch != [] && s.dispatch[0].rq.Fs? && s.dispatch[0].rq.bios == [b]
    ensures b !in s.ended
  {
    assert Copies(s, b) <= 1;
    SumsNonNegative(s, b);
    OccursIn([b], b);
    OccursIn(s.ended, b);
    SumMember(s.dispatch, 0, Carries(b));
  }

  lemma CompleteProper(s: Queue, k: nat, error: int)
    requires Lined(s) && LeftEnded(s) && Integrity(s) && Conserved(s) && k < |s.driver|
    ensures StepProper(s, Complete(k, error))
  {
    hide Conserved, EndAt, Balanced, Lined, LeftEnded, Single, Integrity;
    var step := Complete(k, error);
    var t := Apply(s, step);
    LinedSingle(s);
    StepConserved(s, step);
    StepIntegrity(s, step);
    EndedOnce(t);
    EndLined(s, k, error);
    if In(s) && !In(t) {
      SequenceEnd(s, step);
      OccursIn(t.ended, OrigBios(s)[0]);
    }
    forall b | b in t.barriers && b in t.ended && b !in s.ended ensures EndsProperly(s, step, b) {
      EndedBarrier(s, k, error, b);
    }
    forall b | b in s.barriers && b in s.ended
      ensures b in t.ended && (b in s.outcome ==> b in t.outcome && t.outcome[b] == s.outcome[b])
    {
      InProgressNotEnded(s, b);
      EndKeepsOutcome(s, k, error, b);
    }
  }

  lemma InProgressNotEnded(s: Queue, b: nat)
    requires Conserved(s) && b in s.ended
    ensures In(s) ==> b !in OrigBios(s)
  {
    assert Copies(s, b) <= 1;
    SumsNonNegative(s, b);
    OccursIn(s.ended, b);
    OccursIn(OrigBios(s), b);
  }

  /** A barrier that a completion ends is the one in progress, and its sequence is over. */
  lemma EndedBarrier(s: Queue, k: nat, error: int, b: nat)
    requires Lined(s) && LeftEnded(s) && Integrity(s) && Conserved(s) && k < |s.driver|
    requires var t := EndAt(s, k, error); b in t.barriers && b in t.ended && b !in s.ended
    ensures EndsProperly(s, Complete(k, error), b)
  {
    hide Conserved, EndAt, Balanced, Lined, LeftEnded, Single, Integrity;
    var step := Complete(k, error);
    var t := Apply(s, step);
    EndLined(s, k, error);
    StepConserved(s, step);
    var i :| 0 <= i < |s.barriers| && s.barriers[i] == b;
    BarrierPlace(s, i);
    OccursIn(t.ended, b);
    OnlyEnded(t, b);
    LinedSingle(s);
    SequenceEnd(s, step);
  }

  /** What has ended is on no list and not in progress. */
  lemma OnlyEnded(s: Queue, b: nat)
    requires Conserved(s) && Occurs(s.ended, b) > 0
    ensures Sum(s.dispatch, Carries(b)) == 0 && (In(s) ==> OrigBios(s) != [b])
  {
    assert Copies(s, b) <= 1;
    SumsNonNegative(s, b);
    OccursIn([b], b);
  }

  lemma QuietProper(s: Queue, step: Step)
    requires Enabled(s, step, true) && Quiet(step) && Integrity(s) && Conserved(s)
    ensures StepProper(s, step)
  {
    hide Conserved, Apply, Enabled, Integrity;
    QuietStep(s, step);
    StepConserved(s, step);
    EndedOnce(Apply(s, step));
  }

  lemma StepIsProper(s: Queue, step: Step)
    requires Enabled(s, step, true) && Lined(s) && LeftEnded(s) && Integrity(s) && Conserved(s)
    ensures StepProper(s, step)
  {
    hide StepProper, Lined, LeftEnded, Integrity, Conserved;
    if step.Next? {
      NextProper(s);
    } else if step.Complete? {
      CompleteProper(s, step.k, step.error);
    } else {
      QuietProper(s, step);
    }
  }

  lemma StepLeftEnded(s: Queue, step: Step)
    requires Enabled(s, step, true) && Lined(s) && LeftEnded(s) && Integrity(s) && Conserved(s)
    ensures LeftEnded(Apply(s, step))
  {
    hide Lined, Integrity, Conserved, Apply, EndAt, NextRequest, Enabled;
    var t := Apply(s, step);
    if step.Next? {
      assert s.dispatch != [] && t == NextRequest(s) by { NextIs(s); }
      NextEnds(s);
    } else if step.Complete? {
      assert step.k < |s.driver| && t == EndAt(s, step.k, step.error) by { CompleteIs(s, step.k, step.error); }
      EndLined(s, step.k, step.error);
      StepIsProper(s, step);
      forall k | 0 <= k < |t.barriers| && k + (if In(t) then 1 else 0) < t.left ensures t.barriers[k] in t.ended {
        if In(s) && k + 1 == s.left {
          assert t.barriers[k] in OrigBios(s) by { LastInProgress(s); }
        } else {
          assert s.barriers[k] in s.ended;
        }
      }
    } else {
      QuietStep(s, step);
      assert s.left <= |s.barriers| by { LinedBound(s); }
    }
  }

  lemma NextIs(s: Queue)
    requires Enabled(s, Next, true)
    ensures s.dispatch != [] && Apply(s, Next) == NextRequest(s)
  {
  }

  lemma CompleteIs(s: Queue, k: nat, error: int)
    requires Enabled(s, Complete(k, error), true)
    ensures k < |s.driver| && Apply(s, Complete(k, error)) == EndAt(s, k, error)
  {
  }

  lemma LinedBound(s: Queue)
    requires Lined(s)
    ensures s.left <= |s.barriers|
  {
  }

  lemma LastInProgress(s: Queue)
    requires Lined(s) && In(s)
    ensures 0 < s.left <= |s.barriers| && OrigBios(s) == [s.barriers[s.left - 1]]
  {
  }

  ghost predicate ProperRun(s: Queue, steps: seq<Step>)
    requires Runs(s, steps, true)
    decreases |steps|
  {
    steps == [] || (StepProper(s, steps[0]) && ProperRun(Apply(s, steps[0]), steps[1..]))
  }

  lemma {:induction false} RunIsProper(s: Queue, steps: seq<Step>)
    requires Runs(s, steps, false) && Runs(s, steps, true)
    requires Lined(s) && LeftEnded(s) && Integrity(s) && Conserved(s)
    ensures ProperRun(s, steps)
    decreases |steps|
  {
    hide StepProper, Lined, LeftEnded, Integrity, Conserved, Apply, Enabled;
    if steps != [] {
      StepIsProper(s, steps[0]);
      StepLined(s, steps[0]);
      StepLeftEnded(s, steps[0]);
      StepIntegrity(s, steps[0]);
      StepConserved(s, steps[0]);
      RunIsProper(Apply(s, steps[0]), steps[1..]);
    }
  }

  lemma IdleLined(s: Queue)
    requires s.dispatch == [] && s.driver == [] && s.elevator == [] && s.ordseq == NO_STAGE && s.barriers == []
    requires s.left == 0 && !s.color
    ensures Lined(s) && LeftEnded(s)
  {
  }

  /** In every ordering mode and every run without hard special requests, a barrier is never shown to
      the driver, and is ended once: by its own sequence with the first error reported in it, at once
      and without error if there is nothing to do, or with EOPNOTSUPP. */
  lemma {:induction false} BarriersEndProperly(m: Mode, steps: seq<Step>)
    requires Supported(m) && Runs(Init(m), steps, false) && Runs(Init(m), steps, true)
    ensures ProperRun(Init(m), steps)
  {
    hide Lined, LeftEnded, Integrity, Conserved, Apply, Enabled;
    FreshSingle(m);
    IdleLined(Init(m));
    RunIsProper(Init(m), steps);
  }

  // ----- the broken case -----

  const TAG_ONLY := Mode(false, true, false, true, false, false)

  const WRITE := Fs([0], false, false, false, true, 0, 0)
  const EMPTY := Fs([1], true, true, false, true, 0, 0)
  const PACKET := Special(true)
  const SECOND := Fs([2], true, false, false, true, 8, 1)

  /** Write 0 is with the driver; an empty barrier, a packet command and a second barrier wait. */
  function Queued(): Queue {
    Init(TAG_ONLY).(dispatch := [Entry(EMPTY, false, true), Entry(PACKET, false, true), Entry(SECOND, false, true)],
                    driver := [Entry(WRITE, true, true)], inFlight := 1, color := true, subs := [0, 0, 1], barriers := [1, 2])
  }

  /** The empty barrier drains, for want of a command to order by tag; the second barrier is next. */
  function Exposed(): Queue {
    Queued().(dispatch := [Entry(SECOND, false, true)], driver := [Entry(WRITE, true, true), Entry(PACKET, true, true)],
              ordseq := Stages(true, false, true, true, true), ordered := Mode(true, false, false, false, false, false),
              orig := Some(EMPTY), left := 1, errs := [0])
  }

  lemma ReachQueued() returns (steps: seq<Step>)
    ensures Runs(Init(TAG_ONLY), steps, true) && Exec(Init(TAG_ONLY), steps) == Queued()
  {
    var s := Init(TAG_ONLY);
    steps := [];
    Extend(s, steps, AddBack(true, 0), true);
    steps := steps + [AddBack(true, 0)];
    assert Exec(s, steps).dispatch == [Entry(WRITE, false, true)];
    Extend(s, steps, Next, true);
    steps := steps + [Next];
    assert Exec(s, steps).dispatch == [Entry(WRITE, true, true)];
    Extend(s, steps, Dequeue(0), true);
    steps := steps + [Dequeue(0)];
    assert Exec(s, steps).dispatch == [] && Exec(s, steps).driver == [Entry(WRITE, true, true)];
    steps := QueueThree(steps);
  }

  lemma QueueThree(before: seq<Step>) returns (steps: seq<Step>)
    requires Runs(Init(TAG_ONLY), before, true)
    requires Exec(Init(TAG_ONLY), before) ==
             Init(TAG_ONLY).(driver := [Entry(WRITE, true, true)], inFlight := 1, subs := [0])
    ensures Runs(Init(TAG_ONLY), steps, true) && Exec(Init(TAG_ONLY), steps) == Queued()
  {
    var s := Init(TAG_ONLY);
    steps := before;
    Extend(s, steps, AddBarrier(true, true, 0), true);
    steps := steps + [AddBarrier(true, true, 0)];
    assert Exec(s, steps).dispatch == [Entry(EMPTY, false, true)];
    Extend(s, steps, AddSpecial(true, false), true);
    steps := steps + [AddSpecial(true, false)];
    assert Exec(s, steps).dispatch == [Entry(EMPTY, false, true), Entry(PACKET, false, true)];
    Extend(s, steps, AddBarrier(false, true, 8), true);
    steps := steps + [AddBarrier(false, true, 8)];
  }

  /** The empty barrier has started. */
  function Draining(): Queue {
    Exposed().(dispatch := [Entry(PACKET, false, true), Entry(SECOND, false, true)], driver := [Entry(WRITE, true, true)])
  }

  lemma StepToDraining()
    ensures Enabled(Queued(), Next, true) && Apply(Queued(), Next) == Draining()
  {
    var t := Apply(Queued(), Next);
    assert Proxies(EffectiveMode(TAG_ONLY, true)) == [];
    assert t.dispatch == Draining().dispatch;
  }

  lemma StepToExposed()
    ensures Enabled(Draining(), Next, true) && Enabled(Apply(Draining(), Next), Dequeue(0), true)
    ensures Apply(Apply(Draining(), Next), Dequeue(0)) == Exposed()
  {
    var t := Apply(Draining(), Next);
    assert t == Draining().(dispatch := [Entry(PACKET, true, true), Entry(SECOND, false, true)]);
  }

  lemma ExposedIssue()
    ensures Enabled(Exposed(), Next, true) && !StepProper(Exposed(), Next)
  {
    assert Issued(Exposed(), Next) == Some(SECOND);
  }

  lemma {:induction false} ExtendImproper(s: Queue, steps: seq<Step>, step: Step)
    requires Runs(s, steps, true) && Enabled(Exec(s, steps), step, true) && Runs(s, steps + [step], true)
    requires !StepProper(Exec(s, steps), step)
    ensures !ProperRun(s, steps + [step])
    decreases |steps|
  {
    hide StepProper, Apply, Enabled;
    if steps == [] {
      assert steps + [step] == [step];
    } else {
      assert (steps + [step])[1..] == steps[1..] + [step];
      ExtendImproper(Apply(s, steps[0]), steps[1..], step);
    }
  }

  /** Ordering by tag, with write 0 in flight: an empty barrier, a packet command that carries
      REQ_HARDBARRIER, and a second barrier.  The packet command gives the second barrier the colour
      of the first; while the first one drains, the second is taken for a request before it and shown
      to the driver as it is, without a sequence. */
  lemma {:induction false} HardSpecialExposesBarrier() returns (steps: seq<Step>)
    ensures Runs(Init(TAG_ONLY), steps, true) && !ProperRun(Init(TAG_ONLY), steps)
  {
    hide Apply, Enabled, StepProper;
    var s := Init(TAG_ONLY);
    steps := ReachQueued();
    StepToDraining();
    StepToExposed();
    ExposedIssue();
    Extend(s, steps, Next, true);
    steps := steps + [Next];
    Extend(s, steps, Next, true);
    steps := steps + [Next];
    Extend(s, steps, Dequeue(0), true);
    steps := steps + [Dequeue(0)];
    Extend(s, steps, Next, true);
    ExtendImproper(s, steps, Next);
    steps := steps + [Next];
  }

  /** Barriers end properly in all runs of all supported modes exactly when no caller queues a
      non-file-system request that carries REQ_HARDBARRIER. */
  lemma {:induction false} ProperEndIff(allowHard: bool)
    ensures (forall m, steps :: Supported(m) && Runs(Init(m), steps, allowHard) && Runs(Init(m), steps, true) ==>
               ProperRun(Init(m), steps)) <==> !allowHard
  {
    if allowHard {
      var steps := HardSpecialExposesBarrier();
      assert Supported(TAG_ONLY);
    } else {
      forall m, steps | Supported(m) && Runs(Init(m), steps, false) && Runs(Init(m), steps, true)
        ensures ProperRun(Init(m), steps)
      {
        BarriersEndProperly(m, steps);
      }
    }
  }
}
