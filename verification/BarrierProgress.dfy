/** Progress of the ordered-flush protocol: with nothing at the driver there is always something to
    show it, whatever has happened before, and the two ways in which that can fail. */
module BarrierProgress {
  import opened ListOps
  import opened Barrier
  import opened BarrierSequence
  import opened BarrierOrder
  import opened BarrierEnds
  import Safety = BarrierSafety

  /** With nothing at the driver no completion will come.  Then either the dispatch list is empty and no
      sequence is in progress, or blk_do_ordered does something about the head. */
  predicate Live(s: Queue) {
    s.driver == [] ==> if s.dispatch == [] then !In(s) else DoOrdered(s).1 != Hold
  }

  // ----- an open stage has its command outstanding -----

  /** The command of a stage. */
  function Command(stage: nat): Request {
    if stage == PREFLUSH then PreFlush else if stage == BAR then BarRq else PostFlush
  }

  /** Past the drain stage, with nothing at the driver, the command of the current stage is queued. */
  lemma CommandQueued(s: Queue) returns (i: nat)
    requires Integrity(s) && In(s) && CurSeq(s.ordseq) > DRAIN && s.driver == []
    ensures i < |s.dispatch| && s.dispatch[i].rq == Command(CurSeq(s.ordseq))
  {
    var p := Command(CurSeq(s.ordseq));
    assert Outstanding(s, p) == 1;
    i := SumWitness(s.dispatch, IsRq(p));
  }

  // ----- ordering by draining -----

  /** While a sequence waits for the drain, something is at the driver or a request that it waits for
      is at the head. */
  predicate Awaited(s: Queue) {
    In(s) && CurSeq(s.ordseq) == DRAIN && s.driver == [] ==>
      s.dispatch != [] && ReqSeq(s.orig, s.dispatch[0].rq) <= DRAIN
  }

  lemma NoneCounted(s: Queue)
    requires Ordered(s) && s.driver == []
    ensures s.inFlight == 0
  {
  }

  lemma DrainLive(s: Queue)
    requires Ordered(s) && Integrity(s) && Awaited(s)
    ensures Live(s)
  {
    hide Integrity, Lists, Sorted;
    if s.driver == [] {
      if In(s) {
        Open(s);
        InDrain(s);
        if CurSeq(s.ordseq) > DRAIN {
          var i := CommandQueued(s);
          HeadNotLate(s, i);
        }
      } else if s.dispatch != [] {
        if CanStart(s) {
          StartsAtOnce(s);
        } else {
          NotInSequence(s);
        }
      }
    }
  }

  lemma Open(s: Queue)
    requires Integrity(s) && In(s)
    ensures DRAIN <= CurSeq(s.ordseq) < DONE
  {
  }

  lemma InDrain(s: Queue)
    requires Ordered(s) && In(s)
    ensures s.ordered.byDrain && !s.ordered.byTag
  {
  }

  /** Nothing stands in the way of the current stage's command. */
  lemma HeadNotLate(s: Queue, i: nat)
    requires Ordered(s) && In(s) && i < |s.dispatch| && CurSeq(s.ordseq) > DRAIN
    requires s.dispatch[i].rq == Command(CurSeq(s.ordseq)) && CurSeq(s.ordseq) < DONE
    ensures ReqSeq(s.orig, s.dispatch[0].rq) <= CurSeq(s.ordseq)
  {
    ColourTells(s, 0);
    assert i > 0 ==> Before(true, s.left, s.dispatch[0].rq, s.dispatch[i].rq);
  }

  lemma StartsAtOnce(s: Queue)
    requires Ordered(s) && CanStart(s) && s.driver == []
    ensures DoOrdered(s).1 != Hold
  {
    hide StartOrdered, Lists, Sorted;
    NoneCounted(s);
    HeadUnshown(s);
    SequenceBegins(s);
  }

  lemma HeadUnshown(s: Queue)
    requires Ordered(s) && CanStart(s)
    ensures Account(s.dispatch[0]) == 0
  {
    assert DispatchOk(s, s.dispatch[0]);
  }

  // ----- every step keeps the drain awaited -----

  lemma KeptHead(s: Queue, t: Queue)
    requires Awaited(s) && t.ordseq == s.ordseq && t.orig == s.orig && t.driver == s.driver
    requires s.dispatch != [] ==> t.dispatch != [] && t.dispatch[0].rq == s.dispatch[0].rq
    ensures Awaited(t)
  {
  }

  lemma DispatchAwaited(s: Queue, k: nat, sorted: bool, boundary: nat)
    requires k < |s.elevator| && s.elevator[k].rq.Fs? && Ordered(s) && Awaited(s)
    ensures Awaited(DispatchFrom(s, k, sorted, boundary))
  {
    hide Lists, Sorted;
    var e := s.elevator[k];
    SortPosTail(s.dispatch, e.rq, boundary, |s.dispatch|);
    var p := if sorted then SortPos(s.dispatch, e.rq, boundary, |s.dispatch|) else |s.dispatch|;
    if In(s) && s.driver == [] && CurSeq(s.ordseq) == DRAIN {
      ColourTells(s, 0);
      if p == 0 {
        WalkedPast(s, 0, 0, e.rq);
      }
      KeptHead(s, DispatchFrom(s, k, sorted, boundary));
    }
  }

  lemma StartAwaited(s: Queue)
    requires Ordered(s) && CanStart(s)
    ensures Awaited(NextRequest(s))
  {
    hide StartOrdered, Lists, Sorted, EffectiveMode, Proxies;
    HeadUnshown(s);
    StartParts(s);
    DoOrderedFrame(s);
    if s.driver == [] {
      NoneCounted(s);
    }
  }

  lemma EndAwaited(s: Queue, k: nat, error: int)
    requires k < |s.driver| && Ordered(s) && Integrity(s)
    ensures Awaited(EndAt(s, k, error))
  {
    hide Lists, Sorted, Globals;
    var s1, e := s.(driver := RemoveAt(s.driver, k)), s.driver[k];
    ReleasedOrdered(s, k);
    if s1.driver == [] {
      NoneCounted(Released(s, k));
      if StageOf(e.rq) == NO_STAGE {
        CompletedAwaited(if e.rq.Fs? then s1.(ended := s1.ended + e.rq.bios) else s1, e);
      } else {
        OnlyActiveProxy(s, k);
        StepIntegrity(s, Complete(k, error));
      }
    } else {
      EndFrame(s1, e, error);
    }
  }

  lemma CompletedAwaited(s: Queue, e: Entry)
    requires s.inFlight == Account(e)
    ensures Awaited(Completed(s, e))
  {
  }

  lemma RequeueAwaited(s: Queue, k: nat)
    requires k < |s.driver| && Ordered(s) && Integrity(s)
    ensures Awaited(RequeueAt(s, k))
  {
    var e := s.driver[k];
    assert DriverOk(s, e);
    if In(s) && CurSeq(s.ordseq) == DRAIN {
      assert ReqSeq(s.orig, e.rq) == DRAIN;
    }
  }

  lemma StepAwaited(s: Queue, step: Step)
    requires Enabled(s, step, false) && Enabled(s, step, true) && Ordered(s) && Integrity(s) && Awaited(s)
    ensures Awaited(Apply(s, step))
  {
    hide Ordered, Integrity, DoOrdered, EndAt, RequeueAt, DispatchFrom, MergeInto, ReqSeq;
    match step
    case AddSorted(_, _) => KeptHead(s, Apply(s, step));
    case AddBack(_, _) =>
    case AddBarrier(_, _, _) =>
    case AddSpecial(_, front) => SpecialAwaited(s, front);
    case MergeBio(_, _, _) => KeptHead(s, Apply(s, step));
    case MergeRequests(k, j) => MergeAwaited(s, k, j);
    case Dispatch(k, sorted, boundary) => DispatchAwaited(s, k, sorted, boundary);
    case Next => NextAwaited(s);
    case Dequeue(k) =>
    case Complete(k, error) => EndAwaited(s, k, error);
    case Requeue(k) => RequeueAwaited(s, k);
  }

  lemma SpecialAwaited(s: Queue, front: bool)
    requires Awaited(s)
    ensures Awaited(InsertDispatch(s, if front then 0 else |s.dispatch|, Entry(Special(false), false, true)))
  {
  }

  lemma MergeAwaited(s: Queue, k: nat, j: nat)
    requires k < |s.elevator| && j < |s.elevator| && s.elevator[k].rq.Fs? && s.elevator[j].rq.Fs? && Awaited(s)
    ensures Awaited(MergeInto(s, k, j))
  {
    KeptHead(s, MergeInto(s, k, j));
  }

  lemma NextAwaited(s: Queue)
    requires s.dispatch != [] && Ordered(s) && Awaited(s)
    ensures Awaited(NextRequest(s))
  {
    hide StartOrdered, Ordered, ReqSeq;
    if CanStart(s) {
      StartAwaited(s);
    } else if !In(s) {
      NotInSequence(s);
    } else {
      KeptHead(s, NextRequest(s));
    }
  }

  // ----- ordering by tag -----

  /** Every barrier has a command of its own, which carries the tag. */
  predicate TagFlush(m: Mode) {
    Supported(m) && m.byTag && m.preflush
  }

  /** No command of the sequence stands behind a waiting barrier. */
  predicate CommandsFirst(d: seq<Entry>) {
    forall i, j :: 0 <= i < j < |d| && FsBar(d[i].rq) ==> StageOf(d[j].rq) == NO_STAGE
  }

  predicate ByTag(s: Queue) {
    && (s.nextOrdered == NONE || TagFlush(s.nextOrdered))
    && (In(s) ==> s.ordered.byTag && s.ordseq.drain)
    && CommandsFirst(s.dispatch)
  }

  lemma TagLive(s: Queue)
    requires Integrity(s) && ByTag(s)
    ensures Live(s)
  {
    hide Integrity, StartOrdered, Completed;
    if s.driver == [] {
      if In(s) {
        Open(s);
        var i := CommandQueued(s);
        assert StageOf(s.dispatch[i].rq) != NO_STAGE;
      } else if s.dispatch != [] && FsBar(s.dispatch[0].rq) && s.nextOrdered != NONE {
        SequenceBegins(s);
      }
    }
  }

  lemma FirstInsert(d: seq<Entry>, p: nat, e: Entry)
    requires CommandsFirst(d) && p <= |d|
    requires FsBar(e.rq) ==> forall j :: p <= j < |d| ==> StageOf(d[j].rq) == NO_STAGE
    requires StageOf(e.rq) != NO_STAGE ==> forall i :: 0 <= i < p ==> !FsBar(d[i].rq)
    ensures CommandsFirst(InsertAt(d, p, e))
  {
    hide StageOf;
    var t := InsertAt(d, p, e);
    forall i, j | 0 <= i < j < |t| && FsBar(t[i].rq) ensures StageOf(t[j].rq) == NO_STAGE {
      assert t[i] == if i < p then d[i] else if i == p then e else d[i - 1];
      assert t[j] == if j < p then d[j] else if j == p then e else d[j - 1];
    }
  }

  lemma FirstRemove(d: seq<Entry>, p: nat)
    requires CommandsFirst(d) && p < |d|
    ensures CommandsFirst(RemoveAt(d, p))
  {
    hide StageOf;
    var t := RemoveAt(d, p);
    forall i, j | 0 <= i < j < |t| && FsBar(t[i].rq) ensures StageOf(t[j].rq) == NO_STAGE {
      assert t[i] == if i < p then d[i] else d[i + 1];
      assert t[j] == if j < p then d[j] else d[j + 1];
    }
  }

  /** The first waiting barrier is of the other colour than the one in progress. */
  lemma {:induction false} FirstBarrier(s: Queue, i: nat)
    requires Lined(s) && In(s) && i < |s.dispatch| && FsBar(s.dispatch[i].rq)
    requires forall j :: 0 <= j < i ==> !FsBar(s.dispatch[j].rq)
    ensures ReqSeq(s.orig, s.dispatch[i].rq) == DONE
  {
    var d := s.dispatch;
    assert d == d[..i] + d[i..];
    BarsConcat(d[..i], d[i..]);
    BarsNone(d[..i]);
    assert Bars(d)[0] == d[i].rq.epoch;
    assert BarOk(s.barriers, d[i]);
  }

  /** A command that is requeued goes in front of all barriers. */
  lemma {:induction false} RequeuedFirst(s: Queue, rq: Request, n: nat)
    requires Lined(s) && In(s) && StageOf(rq) != NO_STAGE && n <= RequeuePos(s, rq, 0)
    ensures n <= |s.dispatch| && forall i :: 0 <= i < n ==> !FsBar(s.dispatch[i].rq)
  {
    hide Lined;
    RequeuePosSpec(s, rq, 0);
    if n > 0 {
      RequeuedFirst(s, rq, n - 1);
      if FsBar(s.dispatch[n - 1].rq) {
        FirstBarrier(s, n - 1);
      }
    }
  }

  lemma RequeueByTag(s: Queue, k: nat)
    requires k < |s.driver| && Lined(s) && Integrity(s) && ByTag(s)
    ensures ByTag(RequeueAt(s, k))
  {
    hide Bars, Range, AllBarOk, Balanced, CommandsFirst;
    var e := s.driver[k];
    var s1 := s.(driver := RemoveAt(s.driver, k), inFlight := s.inFlight - Account(e));
    var p := if In(s) then RequeuePos(s1, e.rq, 0) else 0;
    RequeuePosBound(s1, e.rq, 0);
    if StageOf(e.rq) != NO_STAGE {
      OutstandingProxy(s, k);
      NoBarRemove(s.driver, k);
      LinedFrame(s, s1);
      RequeuedFirst(s1, e.rq, p);
    }
    FirstInsert(s.dispatch, p, Entry(e.rq, false, true));
  }

  lemma NoBarRemove(d: seq<Entry>, k: nat)
    requires NoBar(d) && k < |d|
    ensures NoBar(RemoveAt(d, k))
  {
  }

  lemma EndByTag(s: Queue, k: nat, error: int)
    requires k < |s.driver| && Integrity(s) && ByTag(s)
    ensures ByTag(EndAt(s, k, error))
  {
    hide CommandsFirst, Balanced, TagFlush;
    var s1, e := s.(driver := RemoveAt(s.driver, k)), s.driver[k];
    EndFrame(s1, e, error);
    if In(s) {
      EndKeepsDrain(s1, e, error);
    } else {
      EndIntegrity(s, k, error);
    }
  }

  lemma CompleteKeepsDrain(s: Queue, stages: Stages, error: int)
    requires In(s) ==> s.ordseq.drain
    ensures var t := CompleteSeq(s, stages, error);
            In(s) && In(t) ==> t.ordseq.drain
  {
  }

  lemma CompletedKeepsDrain(s: Queue, e: Entry)
    requires In(s) ==> s.ordseq.drain
    ensures Completed(s, e).ordseq == s.ordseq
  {
    hide CompleteSeq, ReqSeq, Account;
  }

  lemma EndKeepsDrain(s: Queue, e: Entry, error: int)
    requires In(s) && s.ordseq.drain
    ensures In(End(s, e, error)) ==> End(s, e, error).ordseq.drain
  {
    hide CompleteSeq, Completed;
    if e.rq.Fs? {
      CompletedKeepsDrain(s.(ended := s.ended + e.rq.bios), e);
    } else {
      CompletedKeepsDrain(s, e);
      CompleteKeepsDrain(Completed(s, e), StageOf(e.rq), error);
    }
  }

  /** Outside a sequence no command is queued. */
  lemma NoCommands(s: Queue)
    requires Integrity(s) && !In(s)
    ensures forall i :: 0 <= i < |s.dispatch| ==> StageOf(s.dispatch[i].rq) == NO_STAGE
  {
    forall i | 0 <= i < |s.dispatch| ensures StageOf(s.dispatch[i].rq) == NO_STAGE {
      if StageOf(s.dispatch[i].rq) != NO_STAGE {
        NotOutstanding(s, s.dispatch[i]);
      }
    }
  }

  lemma StartByTag(s: Queue)
    requires Integrity(s) && ByTag(s) && CanStart(s) && s.nextOrdered != NONE
    ensures ByTag(StartOrdered(s).0)
  {
    hide StartOrdered, Balanced, InSequence, EffectiveMode;
    NoCommands(s);
    StartParts(s);
    SequenceBegins(s);
    var m, t := EffectiveMode(s.nextOrdered, s.dispatch[0].rq.empty), StartOrdered(s).0;
    ProxiesSorted(m, 0);
    StartNext(s);
    forall i | 0 <= i < |Proxies(m)| ensures !FsBar(t.dispatch[i].rq) {
      assert t.dispatch[i] in Proxies(m);
    }
    forall i, j | 0 <= i < j < |t.dispatch| && FsBar(t.dispatch[i].rq) ensures StageOf(t.dispatch[j].rq) == NO_STAGE {
      assert t.dispatch[j] == s.dispatch[1..][j - |Proxies(m)|];
    }
  }

  lemma StartNext(s: Queue)
    requires s.dispatch != [] && s.dispatch[0].rq.Fs?
    ensures StartOrdered(s).0.nextOrdered == s.nextOrdered
  {
    hide EffectiveMode, Proxies, Skipped, Account;
  }

  lemma NextByTag(s: Queue)
    requires s.dispatch != [] && Integrity(s) && ByTag(s)
    ensures ByTag(NextRequest(s))
  {
    hide StartOrdered, Integrity, ReqSeq, StageOf;
    if CanStart(s) {
      if s.nextOrdered != NONE {
        StartByTag(s);
      } else {
        var s1 := s.(dispatch := s.dispatch[1..], inFlight := s.inFlight + Account(s.dispatch[0]), left := s.left + 1);
        assert CommandsFirst(s1.dispatch);
      }
    }
    MarkFirst(DoOrdered(s).0);
  }

  lemma MarkFirst(s: Queue)
    requires ByTag(s)
    ensures ByTag(MarkStarted(s))
  {
    hide StageOf;
  }

  lemma StepByTag(s: Queue, step: Step)
    requires Enabled(s, step, false) && Enabled(s, step, true) && Lined(s) && Integrity(s) && ByTag(s)
    ensures ByTag(Apply(s, step))
  {
    hide Lined, Integrity, NextRequest, EndAt, RequeueAt, CommandsFirst, SortPos, TagFlush, InsertAt, RemoveAt;
    match step
    case AddSorted(_, _) =>
    case AddBack(write, sector) =>
      FirstInsert(s.dispatch, |s.dispatch|, Entry(NewFs(s, false, false, write, sector), false, true));
    case AddBarrier(empty, write, sector) =>
      FirstInsert(s.dispatch, |s.dispatch|, Entry(NewFs(s, true, empty, write, sector), false, true));
    case AddSpecial(hard, front) =>
      FirstInsert(s.dispatch, if front then 0 else |s.dispatch|, Entry(Special(hard), false, true));
    case MergeBio(_, _, _) =>
    case MergeRequests(_, _) =>
    case Dispatch(k, sorted, boundary) =>
      SortPosBound(s.dispatch, s.elevator[k].rq, boundary, |s.dispatch|);
      NoBarAt(s, k);
      FirstInsert(s.dispatch, if sorted then SortPos(s.dispatch, s.elevator[k].rq, boundary, |s.dispatch|) else |s.dispatch|,
                  s.elevator[k]);
    case Next => NextByTag(s);
    case Dequeue(k) => FirstRemove(s.dispatch, k);
    case Complete(k, error) => EndByTag(s, k, error);
    case Requeue(k) => RequeueByTag(s, k);
  }

  lemma NoBarAt(s: Queue, k: nat)
    requires Lined(s) && k < |s.elevator|
    ensures !FsBar(s.elevator[k].rq)
  {
  }

  // ----- every run -----

  predicate OnlyFs(es: seq<Entry>) {
    forall i :: 0 <= i < |es| ==> es[i].rq.Fs?
  }

  /** What every step keeps, in the modes that make progress. */
  ghost predicate Good(s: Queue) {
    && Integrity(s) && Conserved(s) && OnlyFs(s.elevator)
    && ((Ordered(s) && Awaited(s)) || (Lined(s) && ByTag(s)))
  }

  lemma StepOnlyFs(s: Queue, step: Step)
    requires Enabled(s, step, true) && OnlyFs(s.elevator)
    ensures OnlyFs(Apply(s, step).elevator)
  {
    hide DoOrdered, End, SortPos, RequeuePos;
    match step
    case Next => DoOrderedFrame(s);
    case Complete(k, error) => EndFrame(s.(driver := RemoveAt(s.driver, k)), s.driver[k], error);
    case _ =>
  }

  lemma StepGood(s: Queue, step: Step)
    requires Enabled(s, step, false) && Enabled(s, step, true) && Good(s)
    ensures Good(Apply(s, step))
  {
    hide Integrity, Conserved, OnlyFs, Ordered, Awaited, Lined, ByTag, Apply;
    StepIntegrity(s, step);
    StepConserved(s, step);
    StepOnlyFs(s, step);
    if Ordered(s) && Awaited(s) {
      StepOrdered(s, step);
      StepAwaited(s, step);
    } else {
      StepLined(s, step);
      StepByTag(s, step);
    }
  }

  lemma GoodLive(s: Queue)
    requires Good(s)
    ensures Live(s)
  {
    hide Integrity, Conserved, OnlyFs, Ordered, Awaited, Lined, ByTag, Live;
    if Ordered(s) && Awaited(s) {
      DrainLive(s);
    } else {
      TagLive(s);
    }
  }

  lemma {:induction false} RunGood(s: Queue, steps: seq<Step>)
    requires Runs(s, steps, false) && Runs(s, steps, true) && Good(s)
    ensures Good(Exec(s, steps))
    decreases |steps|
  {
    hide Good, Apply, Enabled;
    if steps != [] {
      StepGood(s, steps[0]);
      RunGood(Apply(s, steps[0]), steps[1..]);
    }
  }

  lemma FreshGood(m: Mode)
    requires Supported(m) && m != TAG_ONLY
    ensures Good(Init(m))
  {
    hide Integrity, Conserved, Ordered, Lined;
    FreshSingle(m);
    if m.byDrain {
      Safety.FreshQueue(m);
    } else {
      IdleLined(Init(m));
    }
  }

  /** Progress after every run without hard special requests, in every mode but ordering by tag on a
      device that needs no flush. */
  lemma {:induction false} AlwaysLive(m: Mode, steps: seq<Step>)
    requires Supported(m) && m != TAG_ONLY && Runs(Init(m), steps, false) && Runs(Init(m), steps, true)
    ensures Live(Exec(Init(m), steps))
  {
    hide Good, Live, Apply, Enabled;
    FreshGood(m);
    RunGood(Init(m), steps);
    GoodLive(Exec(Init(m), steps));
  }

  // ----- coming to rest -----

  predicate AtRest(s: Queue) {
    s.elevator == [] && s.dispatch == [] && s.driver == []
  }

  /** A queue at rest has ended every bio, barriers included, once. */
  lemma RestEnded(s: Queue, i: nat)
    requires Good(s) && AtRest(s) && i < |s.subs|
    ensures !In(s) && Occurs(s.ended, i) == 1
  {
    hide Integrity, Ordered, Lined;
    GoodLive(s);
    assert Copies(s, i) == 1;
  }

  /** The steps of a scheduler and a driver that get on with their work. */
  predicate Work(step: Step) {
    step.Dispatch? || step.Next? || step.Dequeue? || step.Complete?
  }

  /** How much work an entry of the dispatch list stands for. */
  function Cost(): Entry -> int {
    (e: Entry) => if FsBar(e.rq) then 10 else if e.started then 2 else 3
  }

  function WorkLeft(s: Queue): int {
    4 * |s.elevator| + Sum(s.dispatch, Cost()) + |s.driver|
  }

  lemma FinishOne(s: Queue)
    requires s.driver != []
    ensures WorkLeft(EndAt(s, 0, 0)) < WorkLeft(s)
  {
    hide End, Sum;
    EndFrame(s.(driver := RemoveAt(s.driver, 0)), s.driver[0], 0);
  }

  lemma TakeOne(s: Queue)
    requires s.dispatch != [] && s.dispatch[0].started && !FsBar(s.dispatch[0].rq)
    ensures WorkLeft(DequeueAt(s, 0)) < WorkLeft(s)
  {
    SumRemove(s.dispatch, 0, Cost());
  }

  lemma ReleaseOne(s: Queue)
    requires s.elevator != [] && s.elevator[0].rq.Fs? && !FsBar(s.elevator[0].rq)
    ensures WorkLeft(DispatchFrom(s, 0, false, 0)) < WorkLeft(s)
  {
    SumInsert(s.dispatch, |s.dispatch|, s.elevator[0], Cost());
  }

  /** A barrier on the dispatch list has not been shown, and blk_do_ordered does not show it. */
  lemma BarrierUnshown(s: Queue)
    requires Good(s) && s.dispatch != [] && FsBar(s.dispatch[0].rq)
    ensures !s.dispatch[0].started && (In(s) ==> !DoOrdered(s).1.Issue?)
  {
    hide Integrity, Conserved, Awaited, ByTag, Globals, StartOrdered, CompleteSeq;
    if Ordered(s) {
      assert DispatchOk(s, s.dispatch[0]);
      DoOrderedSafe(s);
    } else {
      assert BarOk(s.barriers, s.dispatch[0]);
      NeverShown(s);
    }
  }

  /** Starting a sequence is some work done: its commands cost less than the barrier. */
  lemma StartWork(s: Queue)
    requires CanStart(s) && s.nextOrdered != NONE
    ensures WorkLeft(StartOrdered(s).0) < WorkLeft(s)
  {
    hide StartOrdered, EffectiveMode, Sum, Proxies;
    var m, rest := EffectiveMode(s.nextOrdered, s.dispatch[0].rq.empty), s.dispatch[1..];
    StartParts(s);
    DoOrderedFrame(s);
    ProxySum(m, Cost());
    SumConcat(Proxies(m), rest, Cost());
    SumRemove(s.dispatch, 0, Cost());
    assert RemoveAt(s.dispatch, 0) == rest;
  }

  lemma TerminateWork(s: Queue)
    requires CanStart(s) && s.nextOrdered == NONE
    ensures WorkLeft(DoOrdered(s).0) < WorkLeft(s) && DoOrdered(s).1 == Gone
  {
    hide Sum;
    var rest := s.dispatch[1..];
    SumRemove(s.dispatch, 0, Cost());
    assert RemoveAt(s.dispatch, 0) == rest;
    assert DoOrdered(s).0.dispatch == rest;
  }

  lemma MarkWork(s: Queue)
    requires s.dispatch != []
    ensures WorkLeft(MarkStarted(s)) <= WorkLeft(s)
    ensures !s.dispatch[0].started && !FsBar(s.dispatch[0].rq) ==> WorkLeft(MarkStarted(s)) < WorkLeft(s)
  {
    hide Sum;
    SumUpdate(s.dispatch, 0, s.dispatch[0].(started := true), Cost());
  }

  /** A turn of blk_do_ordered that does not hold a new head is some work done. */
  lemma TurnWork(s: Queue)
    requires Good(s) && s.dispatch != [] && !s.dispatch[0].started && DoOrdered(s).1 != Hold
    ensures WorkLeft(NextRequest(s)) < WorkLeft(s)
  {
    hide Good, StartOrdered, WorkLeft, ReqSeq;
    if FsBar(s.dispatch[0].rq) {
      BarrierUnshown(s);
    }
    if CanStart(s) {
      if s.nextOrdered != NONE {
        StartWork(s);
        if DoOrdered(s).0.dispatch != [] {
          MarkWork(DoOrdered(s).0);
        }
      } else {
        TerminateWork(s);
      }
    } else {
      SameWork(s);
      MarkWork(DoOrdered(s).0);
    }
  }

  lemma SameWork(s: Queue)
    requires s.dispatch != [] && !CanStart(s)
    ensures WorkLeft(DoOrdered(s).0) == WorkLeft(s) && DoOrdered(s).0.dispatch == s.dispatch
  {
    hide Sum, ReqSeq, StartOrdered;
  }

  /** The next step of a driver that completes what it has, takes what it was shown, and asks for more. */
  function Turn(s: Queue): Step {
    if s.driver != [] then Complete(0, 0)
    else if s.dispatch == [] then Dispatch(0, false, 0)
    else if s.dispatch[0].started then Dequeue(0)
    else Next
  }

  lemma TurnShrinks(s: Queue)
    requires Good(s) && !AtRest(s)
    ensures Enabled(s, Turn(s), false) && Enabled(s, Turn(s), true) && WorkLeft(Apply(s, Turn(s))) < WorkLeft(s)
    ensures Apply(s, Turn(s)).subs == s.subs
  {
    hide WorkLeft, EndAt, DequeueAt, DispatchFrom, NextRequest, DoOrdered, Good;
    assert OnlyFs(s.elevator) && Live(s) by { GoodParts(s); }
    TurnKeepsSubs(s);
    if s.driver != [] {
      FinishOne(s);
    } else if s.dispatch == [] {
      ElevatorPlain(s);
      ReleaseOne(s);
    } else if s.dispatch[0].started {
      if FsBar(s.dispatch[0].rq) {
        BarrierUnshown(s);
      }
      TakeOne(s);
    } else {
      TurnWork(s);
    }
  }

  lemma GoodParts(s: Queue)
    requires Good(s)
    ensures OnlyFs(s.elevator) && Live(s)
  {
    GoodLive(s);
  }

  lemma ElevatorPlain(s: Queue)
    requires Good(s) && s.elevator != []
    ensures !FsBar(s.elevator[0].rq)
  {
    if Ordered(s) {
      assert ElevatorOk(s, s.elevator[0]);
    }
  }

  lemma TurnKeepsSubs(s: Queue)
    requires Enabled(s, Turn(s), true)
    ensures Apply(s, Turn(s)).subs == s.subs
  {
    hide DoOrdered, End, SortPos;
    if s.driver != [] {
      EndFrame(s.(driver := RemoveAt(s.driver, 0)), s.driver[0], 0);
    } else if s.dispatch != [] && !s.dispatch[0].started {
      DoOrderedFrame(s);
    }
  }

  /** From every state that can be reached, a driver that completes what it has, takes what it is shown and
      asks for more brings the queue to rest, with every bio ended once. */
  lemma {:induction false} ComesToRest(s: Queue) returns (steps: seq<Step>)
    requires Good(s)
    ensures Runs(s, steps, false) && Runs(s, steps, true) && forall i :: 0 <= i < |steps| ==> Work(steps[i])
    ensures var t := Exec(s, steps);
            AtRest(t) && !In(t) && t.subs == s.subs && forall i: nat :: i < |t.subs| ==> Occurs(t.ended, i) == 1
    decreases WorkLeft(s)
  {
    hide Good, WorkLeft, Apply, Enabled, Turn;
    if AtRest(s) {
      steps := [];
      GoodLive(s);
      forall i: nat | i < |s.subs| ensures Occurs(s.ended, i) == 1 {
        RestEnded(s, i);
      }
    } else {
      TurnShrinks(s);
      StepGood(s, Turn(s));
      assert WorkLeft(s) >= 0 && Work(Turn(s)) by { WorkNat(s); }
      var rest := ComesToRest(Apply(s, Turn(s)));
      steps := [Turn(s)] + rest;
      assert steps[1..] == rest;
    }
  }

  lemma WorkNat(s: Queue)
    ensures WorkLeft(s) >= 0 && Work(Turn(s))
  {
    SumNonNegative(s.dispatch, Cost());
  }

  /** So whatever has happened, the queue can still be brought to rest. */
  lemma {:induction false} EveryRunFinishes(m: Mode, steps: seq<Step>) returns (more: seq<Step>)
    requires Supported(m) && m != TAG_ONLY && Runs(Init(m), steps, false) && Runs(Init(m), steps, true)
    ensures var s := Exec(Init(m), steps);
            && Runs(s, more, false) && Runs(s, more, true) && (forall i :: 0 <= i < |more| ==> Work(more[i]))
            && var t := Exec(s, more);
            AtRest(t) && !In(t) && t.subs == s.subs && forall i: nat :: i < |t.subs| ==> Occurs(t.ended, i) == 1
  {
    hide Good, Apply, Enabled;
    FreshGood(m);
    RunGood(Init(m), steps);
    more := ComesToRest(Exec(Init(m), steps));
  }

  // ----- where progress fails -----

  const FIRST := Fs([0], false, false, false, true, 0, 0)
  const FULL := Fs([1], true, false, false, true, 8, 0)
  const HOLLOW := Fs([2], true, true, true, true, 8, 1)

  /** Write 0 is with the driver, barrier 1 has been through by tag, and an empty barrier 2 is queued. */
  function Passed(): Queue {
    Init(TAG_ONLY).(dispatch := [Entry(HOLLOW, false, true)], driver := [Entry(FIRST, true, true)], inFlight := 1,
                    subs := [0, 0, 1], barriers := [1, 2], left := 1, orig := Some(FULL), ended := [1],
                    outcome := map[1 := 0], errs := [0, 0])
  }

  /** Barrier 2 drains, for want of a command, and write 0 is back: of the other colour, two barriers old. */
  function Blocked(): Queue {
    Passed().(dispatch := [Entry(FIRST, false, true)], driver := [], inFlight := 0, left := 2, orig := Some(HOLLOW),
              ordered := Mode(true, false, false, false, false, false), ordseq := Stages(true, false, true, true, true),
              errs := [0])
  }

  /** Write 0 is with the driver and barrier 1 in progress by tag. */
  function Tagged(): Queue {
    Init(TAG_ONLY).(dispatch := [Entry(BarRq, true, true)], driver := [Entry(FIRST, true, true)], inFlight := 1,
                    subs := [0, 0], barriers := [1], color := true, left := 1, orig := Some(FULL), errs := [0],
                    ordseq := Stages(true, true, true, false, true))
  }

  /** Before that, barrier 1 was only queued. */
  function Begun(): Queue {
    Init(TAG_ONLY).(driver := [Entry(FIRST, true, true)], inFlight := 1, subs := [0])
  }

  function Waiting(): Queue {
    Begun().(dispatch := [Entry(FULL, false, true)], subs := [0, 0], barriers := [1], color := true)
  }

  lemma {:induction false} ReachBegun() returns (steps: seq<Step>)
    ensures Runs(Init(TAG_ONLY), steps, false) && Runs(Init(TAG_ONLY), steps, true)
    ensures Exec(Init(TAG_ONLY), steps) == Begun()
  {
    var s := Init(TAG_ONLY);
    steps := Follow(s, [], AddBack(true, 0), false);
    assert Exec(s, steps).dispatch == [Entry(FIRST, false, true)];
    steps := Follow(s, steps, Next, false);
    assert Exec(s, steps).dispatch == [Entry(FIRST, true, true)];
    steps := Follow(s, steps, Dequeue(0), false);
    assert Exec(s, steps).dispatch == [] && Exec(s, steps).driver == [Entry(FIRST, true, true)];
  }

  lemma BegunToWaiting()
    ensures Enabled(Begun(), AddBarrier(false, true, 8), false) && Apply(Begun(), AddBarrier(false, true, 8)) == Waiting()
  {
    assert InsertAt(Begun().dispatch, 0, Entry(FULL, false, true)) == Waiting().dispatch;
  }

  lemma WaitingToTagged()
    ensures Enabled(Waiting(), Next, false) && Apply(Waiting(), Next) == Tagged()
  {
    assert Proxies(EffectiveMode(TAG_ONLY, false)) == [Entry(BarRq, false, true)];
    assert Apply(Waiting(), Next).dispatch == Tagged().dispatch;
  }

  /** And both are with the driver. */
  function Both(): Queue {
    Tagged().(dispatch := [], driver := [Entry(FIRST, true, true), Entry(BarRq, true, true)], inFlight := 2)
  }

  /** Barrier 1 has ended. */
  function Through(): Queue {
    Init(TAG_ONLY).(driver := [Entry(FIRST, true, true)], inFlight := 1, subs := [0, 0], barriers := [1], color := true,
                    left := 1, orig := Some(FULL), ended := [1], outcome := map[1 := 0], errs := [0, 0])
  }

  /** Barrier 2 waits for write 0. */
  function Drains(): Queue {
    Blocked().(dispatch := [], driver := [Entry(FIRST, true, true)], inFlight := 1)
  }

  lemma TaggedToThrough()
    ensures Enabled(Tagged(), Dequeue(0), false) && Apply(Tagged(), Dequeue(0)) == Both()
    ensures Enabled(Both(), Complete(1, 0), false) && Apply(Both(), Complete(1, 0)) == Through()
  {
    assert RemoveAt(Both().driver, 1) == [Entry(FIRST, true, true)];
  }

  lemma ThroughToPassed()
    ensures Enabled(Through(), AddBarrier(true, true, 8), false)
    ensures Apply(Through(), AddBarrier(true, true, 8)) == Passed()
  {
    assert InsertAt(Through().dispatch, 0, Entry(HOLLOW, false, true)) == Passed().dispatch;
  }

  lemma PassedToDrains()
    ensures Enabled(Passed(), Next, false) && Apply(Passed(), Next) == Drains()
  {
    assert Proxies(EffectiveMode(TAG_ONLY, true)) == [];
    assert Passed().dispatch[1..] == [];
  }

  lemma DrainsToBlocked()
    ensures Enabled(Drains(), Requeue(0), false) && Apply(Drains(), Requeue(0)) == Blocked()
  {
  }

  /** Ordering by tag on a device that needs no flush: a barrier passes by tag while write 0 is in flight,
      then an empty barrier has to drain; write 0 is requeued, and since nothing but a completion looks
      whether the drain is over, the empty barrier waits for ever and write 0 behind it. */
  lemma {:induction false} TagOnlyCanStick() returns (steps: seq<Step>)
    ensures Runs(Init(TAG_ONLY), steps, false) && Runs(Init(TAG_ONLY), steps, true)
    ensures !Live(Exec(Init(TAG_ONLY), steps))
  {
    steps := ReachBegun();
    BlockedHolds();
    hide Apply, Enabled, Live;
    var s := Init(TAG_ONLY);
    BegunToWaiting();
    WaitingToTagged();
    TaggedToThrough();
    ThroughToPassed();
    PassedToDrains();
    DrainsToBlocked();
    steps := Follow(s, steps, AddBarrier(false, true, 8), false);
    steps := Follow(s, steps, Next, false);
    steps := Follow(s, steps, Dequeue(0), false);
    steps := Follow(s, steps, Complete(1, 0), false);
    steps := Follow(s, steps, AddBarrier(true, true, 8), false);
    steps := Follow(s, steps, Next, false);
    steps := Follow(s, steps, Requeue(0), false);
  }

  lemma BlockedHolds()
    ensures !Live(Blocked())
  {
  }

  /** One more step of a run. */
  lemma Follow(s: Queue, steps: seq<Step>, step: Step, allowHard: bool) returns (more: seq<Step>)
    requires Runs(s, steps, allowHard) && Runs(s, steps, true) && Enabled(Exec(s, steps), step, allowHard)
    ensures Runs(s, more, allowHard) && Runs(s, more, true) && Enabled(Exec(s, steps), step, true)
    ensures Exec(s, more) == Apply(Exec(s, steps), step)
  {
    Tolerates(Exec(s, steps), step, allowHard);
    Extend(s, steps, step, allowHard);
    more := steps + [step];
  }

  lemma Tolerates(s: Queue, step: Step, allowHard: bool)
    requires Enabled(s, step, allowHard)
    ensures Enabled(s, step, true)
  {
  }

  const LEADER := Fs([0], true, false, false, true, 0, 0)
  const ALIAS := Fs([1], true, false, false, true, 8, 1)
  const CMD := Special(true)

  /** Two barriers of the same colour, with the packet command between them that made them so. */
  function Pair(): Queue {
    Init(Safety.DRAIN_ONLY).(dispatch := [Entry(LEADER, false, true), Entry(CMD, false, true), Entry(ALIAS, false, true)],
                             color := true, subs := [0, 1], barriers := [0, 1])
  }

  /** The first barrier's command and the packet command are with the driver. */
  function Under(): Queue {
    Pair().(dispatch := [Entry(ALIAS, false, true)], driver := [Entry(BarRq, true, true), Entry(CMD, true, true)],
            inFlight := 1, left := 1, orig := Some(LEADER), errs := [0], ordseq := Stages(true, true, true, false, true))
  }

  /** The first barrier is over; the second has been shown to the driver and not been taken. */
  function Shown(): Queue {
    Pair().(dispatch := [Entry(ALIAS, true, true)], left := 1, orig := Some(LEADER), errs := [0, 0], warned := true,
            ended := [0], outcome := map[0 := 0])
  }

  lemma {:induction false} ReachPair() returns (steps: seq<Step>)
    ensures Runs(Init(Safety.DRAIN_ONLY), steps, true) && Exec(Init(Safety.DRAIN_ONLY), steps) == Pair()
  {
    var s := Init(Safety.DRAIN_ONLY);
    steps := [];
    Extend(s, steps, AddBarrier(false, true, 0), true);
    steps := steps + [AddBarrier(false, true, 0)];
    assert Exec(s, steps).dispatch == [Entry(LEADER, false, true)];
    Extend(s, steps, AddSpecial(true, false), true);
    steps := steps + [AddSpecial(true, false)];
    assert Exec(s, steps).dispatch == [Entry(LEADER, false, true), Entry(CMD, false, true)];
    Extend(s, steps, AddBarrier(false, true, 8), true);
    steps := steps + [AddBarrier(false, true, 8)];
  }

  /** The first barrier's command is with the driver. */
  function Leading(): Queue {
    Under().(dispatch := [Entry(CMD, false, true), Entry(ALIAS, false, true)], driver := [Entry(BarRq, true, true)])
  }

  /** It has been shown. */
  function Offered(): Queue {
    Under().(dispatch := [Entry(BarRq, true, true), Entry(CMD, false, true), Entry(ALIAS, false, true)], driver := [], inFlight := 0)
  }

  /** The second barrier has been shown too. */
  function Peeked(): Queue {
    Under().(dispatch := [Entry(ALIAS, true, true)], warned := true)
  }

  lemma PairToOffered()
    ensures Enabled(Pair(), Next, true) && Apply(Pair(), Next) == Offered()
  {
    assert Proxies(EffectiveMode(Safety.DRAIN_ONLY, false)) == [Entry(BarRq, false, true)];
    assert Apply(Pair(), Next).dispatch == Offered().dispatch;
  }

  lemma OfferedToLeading()
    ensures Enabled(Offered(), Dequeue(0), true) && Apply(Offered(), Dequeue(0)) == Leading()
  {
  }

  lemma LeadingToUnder()
    ensures Enabled(Leading(), Next, true)
    ensures var s := Leading().(dispatch := [Entry(CMD, true, true), Entry(ALIAS, false, true)]);
            Apply(Leading(), Next) == s && Enabled(s, Dequeue(0), true) && Apply(s, Dequeue(0)) == Under()
  {
    var s := Leading().(dispatch := [Entry(CMD, true, true), Entry(ALIAS, false, true)]);
    assert Apply(Leading(), Next).dispatch == s.dispatch;
    assert Apply(s, Dequeue(0)).dispatch == Under().dispatch && Apply(s, Dequeue(0)).driver == Under().driver;
  }

  lemma UnderToPeeked()
    ensures Enabled(Under(), Next, true) && Apply(Under(), Next) == Peeked()
  {
  }

  /** The first barrier is over. */
  function Freed(): Queue {
    Shown().(driver := [Entry(CMD, true, true)])
  }

  lemma PeekedToFreed()
    ensures Enabled(Peeked(), Complete(0, 0), true) && Apply(Peeked(), Complete(0, 0)) == Freed()
  {
    var s1 := Peeked().(driver := [Entry(CMD, true, true)]);
    assert s1.driver == RemoveAt(Peeked().driver, 0);
    assert Completed(s1, Entry(BarRq, true, true)) == s1.(inFlight := 0);
  }

  lemma FreedToShown()
    ensures Enabled(Freed(), Complete(0, 0), true) && Apply(Freed(), Complete(0, 0)) == Shown()
  {
  }

  /** Ordering by draining, with a packet command that carries REQ_HARDBARRIER between two barriers: the
      second has the colour of the first and is shown to the driver during the sequence of the first.
      When its own sequence starts it counts as in flight itself, and drains waiting for itself. */
  lemma {:induction false} HardSpecialCanStick() returns (steps: seq<Step>)
    ensures Runs(Init(Safety.DRAIN_ONLY), steps, true) && !Live(Exec(Init(Safety.DRAIN_ONLY), steps))
  {
    steps := ReachPair();
    ShownHolds();
    hide Apply, Enabled, Live;
    var s := Init(Safety.DRAIN_ONLY);
    PairToOffered();
    OfferedToLeading();
    LeadingToUnder();
    UnderToPeeked();
    PeekedToFreed();
    FreedToShown();
    steps := Follow(s, steps, Next, true);
    steps := Follow(s, steps, Dequeue(0), true);
    steps := Follow(s, steps, Next, true);
    steps := Follow(s, steps, Dequeue(0), true);
    steps := Follow(s, steps, Next, true);
    steps := Follow(s, steps, Complete(0, 0), true);
    steps := Follow(s, steps, Complete(0, 0), true);
  }

  lemma ShownHolds()
    ensures !Live(Shown())
  {
  }

  ghost predicate AllLive(m: Mode, allowHard: bool) {
    forall steps :: Runs(Init(m), steps, allowHard) && Runs(Init(m), steps, true) ==> Live(Exec(Init(m), steps))
  }

  /** Without hard special requests, a supported mode makes progress in all runs exactly when it is not
      ordering by tag on a device that needs no flush. */
  lemma {:induction false} ProgressIff(m: Mode)
    requires Supported(m)
    ensures AllLive(m, false) <==> m != TAG_ONLY
  {
    if m == TAG_ONLY {
      var steps := TagOnlyCanStick();
    } else {
      forall steps | Runs(Init(m), steps, false) && Runs(Init(m), steps, true) ensures Live(Exec(Init(m), steps)) {
        AlwaysLive(m, steps);
      }
    }
  }

  /** Ordering by draining makes progress in all runs exactly when no caller queues a non-file-system
      request that carries REQ_HARDBARRIER. */
  lemma {:induction false} DrainProgressIff(allowHard: bool)
    ensures (forall m :: DrainMode(m) ==> AllLive(m, allowHard)) <==> !allowHard
  {
    if allowHard {
      var steps := HardSpecialCanStick();
      assert DrainMode(Safety.DRAIN_ONLY) && !AllLive(Safety.DRAIN_ONLY, true);
    } else {
      forall m | DrainMode(m) ensures AllLive(m, false) {
        ProgressIff(m);
      }
    }
  }
}
