/** The promise of Documentation/block/barrier.txt for queues ordered by draining, over
    whole runs, and the one way callers can break it. */
module BarrierSafety {
  import opened ListOps
  import opened Barrier
  import opened BarrierSequence
  import opened BarrierOrder

  /** Everything submitted before barrier bio `b` has been ended. */
  predicate AllBefore(s: Queue, b: nat) {
    forall i: nat :: i < b ==> i in s.ended
  }

  /** What one step must respect:
      no BUG_ON or WARN_ON of the protocol fires;
      a command of a barrier's sequence is shown to the driver only when everything
      submitted before the barrier has been ended;
      an ordinary request is shown only when every barrier submitted before any of its
      bios has been ended;
      and a barrier is ended only after everything submitted before it. */
  ghost predicate StepSafe(s: Queue, step: Step)
    requires Enabled(s, step, true)
  {
    var t := Apply(s, step);
    var issued := Issued(s, step);
    && !t.bug && !t.warned
    && (issued.Some? && StageOf(issued.value) != NO_STAGE ==> forall b :: b in OrigBios(t) ==> AllBefore(t, b))
    && (issued.Some? && issued.value.Fs? ==>
          forall i, b :: i in issued.value.bios && b in s.barriers && b < i ==> b in s.ended)
    && (forall b :: b in t.barriers && b in t.ended ==> AllBefore(t, b))
  }

  ghost predicate SafeRun(s: Queue, steps: seq<Step>)
    requires Runs(s, steps, true)
    decreases |steps|
  {
    steps == [] || (StepSafe(s, steps[0]) && SafeRun(Apply(s, steps[0]), steps[1..]))
  }

  // ----- where a bio can be -----

  /** A bio that was submitted and not ended is carried by some request. */
  lemma Located(s: Queue, i: nat)
    requires Conserved(s) && i < |s.subs| && i !in s.ended
    ensures || (exists e :: e in s.elevator && e.rq.Fs? && i in e.rq.bios)
            || (exists e :: e in s.dispatch && e.rq.Fs? && i in e.rq.bios)
            || (exists e :: e in s.driver && e.rq.Fs? && i in e.rq.bios)
            || (In(s) && i in OrigBios(s))
  {
    assert Copies(s, i) == 1;
    OccursIn(s.ended, i);
    if Sum(s.elevator, Carries(i)) > 0 {
      var k := SumWitness(s.elevator, Carries(i));
      OccursIn(s.elevator[k].rq.bios, i);
    } else if Sum(s.dispatch, Carries(i)) > 0 {
      var k := SumWitness(s.dispatch, Carries(i));
      OccursIn(s.dispatch[k].rq.bios, i);
    } else if Sum(s.driver, Carries(i)) > 0 {
      var k := SumWitness(s.driver, Carries(i));
      OccursIn(s.driver[k].rq.bios, i);
    } else {
      OccursIn(OrigBios(s), i);
    }
  }

  /** Bios of an epoch that is over have been ended. */
  lemma OldEpochsEnded(s: Queue, i: nat)
    requires Ordered(s) && Conserved(s) && i < |s.subs|
    requires s.subs[i] + (if In(s) then 1 else 0) < s.left
    ensures i in s.ended
  {
    assert forall e :: e in s.elevator ==> ElevatorOk(s, e);
    assert forall e :: e in s.dispatch ==> DispatchOk(s, e);
    assert forall e :: e in s.driver ==> DriverOk(s, e);
    if i !in s.ended {
      Located(s, i);
    }
  }

  /** Once drained, all that was submitted before the barrier in progress has been ended. */
  lemma BeforeBarrierEnded(s: Queue, b: nat)
    requires Ordered(s) && Conserved(s) && In(s) && s.ordseq.drain && b in OrigBios(s)
    ensures AllBefore(s, b)
  {
    assert b == s.barriers[s.left - 1];
    assert forall e :: e in s.elevator ==> ElevatorOk(s, e);
    assert forall e :: e in s.dispatch ==> DispatchOk(s, e);
    assert forall e :: e in s.driver ==> DriverOk(s, e);
    forall i: nat | i < b ensures i in s.ended {
      assert s.subs[i] <= s.left - 1;
      if i !in s.ended {
        Located(s, i);
      }
    }
  }

  /** A barrier that has been ended has left the dispatch list and is not in progress. */
  lemma EndedHasLeft(s: Queue, k: nat)
    requires Ordered(s) && Conserved(s) && k < |s.barriers| && s.barriers[k] in s.ended
    ensures k + (if In(s) then 1 else 0) < s.left
  {
    var b := s.barriers[k];
    assert Copies(s, b) == 1;
    OccursIn(s.ended, b);
    SumsNonNegative(s, b);
    if k >= s.left {
      assert HasBar(s.dispatch, k);
      var i :| 0 <= i < |s.dispatch| && IsBar(s.dispatch[i], k);
      assert DispatchOk(s, s.dispatch[i]);
      OccursIn(s.dispatch[i].rq.bios, b);
      SumMember(s.dispatch, i, Carries(b));
    } else if In(s) && k == s.left - 1 {
      OccursIn(OrigBios(s), b);
    }
  }

  lemma EndedBarriersSafe(s: Queue, b: nat)
    requires Ordered(s) && Conserved(s) && b in s.barriers && b in s.ended
    ensures AllBefore(s, b)
  {
    var k :| 0 <= k < |s.barriers| && s.barriers[k] == b;
    EndedHasLeft(s, k);
    forall i: nat | i < b ensures i in s.ended {
      OldEpochsEnded(s, i);
    }
  }

  lemma IssuedFsSafe(s: Queue, rq: Request, i: nat, b: nat)
    requires Ordered(s) && Conserved(s) && s.dispatch != [] && rq == s.dispatch[0].rq && rq.Fs? && MayIssue(s, rq)
    requires i in rq.bios && b in s.barriers && b < i
    ensures b in s.ended
  {
    assert DispatchOk(s, s.dispatch[0]);
    var k :| 0 <= k < |s.barriers| && s.barriers[k] == b;
    OldEpochsEnded(s, b);
  }

  lemma StepIsSafe(s: Queue, step: Step)
    requires Enabled(s, step, false) && Enabled(s, step, true)
    requires Ordered(s) && Integrity(s) && Conserved(s)
    ensures StepSafe(s, step)
  {
    var t := Apply(s, step);
    StepOrdered(s, step);
    StepIntegrity(s, step);
    StepConserved(s, step);
    forall b | b in t.barriers && b in t.ended ensures AllBefore(t, b) {
      EndedBarriersSafe(t, b);
    }
    if Issued(s, step).Some? {
      DoOrderedSafe(s);
      IssueSafe(s);
    }
  }

  lemma IssueSafe(s: Queue)
    requires s.dispatch != [] && Ordered(s) && Integrity(s) && Conserved(s) && DoOrdered(s).1.Issue?
    ensures var rq := DoOrdered(s).1.rq;
            && (StageOf(rq) != NO_STAGE ==> forall b :: b in OrigBios(NextRequest(s)) ==> AllBefore(NextRequest(s), b))
            && (rq.Fs? ==> forall i, b :: i in rq.bios && b in s.barriers && b < i ==> b in s.ended)
  {
    var t, rq := DoOrdered(s).0, DoOrdered(s).1.rq;
    DoOrderedSafe(s);
    IssueFrame(s);
    forall i: nat ensures Copies(t, i) == if i < |t.subs| then 1 else 0 {
      NextCopies(s, i);
    }
    if StageOf(rq) != NO_STAGE {
      NextIntegrity(s);
      OpenStage(t, t.dispatch[0]);
      var n := NextRequest(s);
      assert OrigBios(n) == OrigBios(t) && n.ended == t.ended;
      forall b | b in OrigBios(n) ensures AllBefore(n, b) {
        BeforeBarrierEnded(t, b);
      }
    } else if rq.Fs? {
      forall i, b | i in rq.bios && b in s.barriers && b < i ensures b in s.ended {
        IssuedFsSafe(t, rq, i, b);
      }
    }
  }

  lemma IssueFrame(s: Queue)
    requires s.dispatch != [] && DoOrdered(s).1.Issue?
    ensures DoOrdered(s).0.ended == s.ended && DoOrdered(s).0.barriers == s.barriers && DoOrdered(s).0.subs == s.subs
  {
    DoOrderedFrame(s);
  }

  lemma {:induction false} RunIsSafe(s: Queue, steps: seq<Step>)
    requires Runs(s, steps, false) && Runs(s, steps, true) && Ordered(s) && Integrity(s) && Conserved(s)
    ensures SafeRun(s, steps)
    decreases |steps|
  {
    if steps != [] {
      StepIsSafe(s, steps[0]);
      StepOrdered(s, steps[0]);
      StepIntegrity(s, steps[0]);
      StepConserved(s, steps[0]);
      RunIsSafe(Apply(s, steps[0]), steps[1..]);
    }
  }

  lemma IdleOrdered(s: Queue)
    requires s.dispatch == [] && s.driver == [] && s.elevator == [] && s.ordseq == NO_STAGE && s.subs == [] && s.barriers == []
    requires s.left == 0 && !s.color && !s.warned && s.inFlight == 0 && DrainMode(s.nextOrdered)
    ensures Ordered(s)
  {
  }

  lemma FreshQueue(m: Mode)
    requires DrainMode(m)
    ensures Ordered(Init(m)) && Integrity(Init(m)) && Conserved(Init(m))
  {
    hide Ordered, Integrity, Conserved;
    IdleIntegrity(Init(m));
    IdleOrdered(Init(m));
  }

  /** Barrier safety: if nobody queues a non-file-system request with REQ_HARDBARRIER,
      every run of a queue ordered by draining is safe, whatever the scheduler dispatches
      and in whatever order the driver completes and requeues. */
  lemma {:induction false} BarrierSafety(m: Mode, steps: seq<Step>)
    requires DrainMode(m) && Runs(Init(m), steps, false)
    ensures Runs(Init(m), steps, true) && SafeRun(Init(m), steps)
  {
    FreshQueue(m);
    MoreAllowed(Init(m), steps);
    RunIsSafe(Init(m), steps);
  }

  lemma {:induction false} MoreAllowed(s: Queue, steps: seq<Step>)
    requires Runs(s, steps, false)
    ensures Runs(s, steps, true)
    decreases |steps|
  {
    if steps != [] {
      MoreAllowed(Apply(s, steps[0]), steps[1..]);
    }
  }

  // ----- the broken case -----

  const DRAIN_ONLY := Mode(true, false, false, true, false, false)

  const WRITE := Fs([0], false, false, false, true, 0, 0)
  const BARRIER := Fs([1], true, false, true, true, 8, 0)
  const PACKET := Special(true)

  function Base(): Queue {
    Init(DRAIN_ONLY).(subs := [0, 0], barriers := [1])
  }

  /** Write 0 and the packet command are with the driver; barrier 1 is at the head. */
  function Midway(): Queue {
    Base().(dispatch := [Entry(BARRIER, false, true)], driver := [Entry(WRITE, true, true), Entry(PACKET, true, true)], inFlight := 1)
  }

  /** Write 0 has been requeued behind the barrier command, and the drain stage is over. */
  function Wrong(): Queue {
    Base().(dispatch := [Entry(BarRq, false, true), Entry(WRITE, false, true)], ordseq := Stages(true, true, true, false, true),
            orig := Some(BARRIER), left := 1, errs := [0, 0])
  }

  lemma {:induction false} ExtendUnsafe(s: Queue, steps: seq<Step>, step: Step)
    requires Runs(s, steps, true) && Enabled(Exec(s, steps), step, true) && Runs(s, steps + [step], true)
    requires !StepSafe(Exec(s, steps), step)
    ensures !SafeRun(s, steps + [step])
    decreases |steps|
  {
    if steps == [] {
      assert steps + [step] == [step];
    } else {
      assert (steps + [step])[1..] == steps[1..] + [step];
      ExtendUnsafe(Apply(s, steps[0]), steps[1..], step);
    }
  }

  lemma Queueing() returns (steps: seq<Step>)
    ensures Runs(Init(DRAIN_ONLY), steps, true)
    ensures Exec(Init(DRAIN_ONLY), steps) ==
            Base().(dispatch := [Entry(WRITE, false, true), Entry(PACKET, false, true), Entry(BARRIER, false, true)])
  {
    var s := Init(DRAIN_ONLY);
    steps := [];
    Extend(s, steps, AddBack(true, 0), true);
    steps := steps + [AddBack(true, 0)];
    assert Exec(s, steps).dispatch == [Entry(WRITE, false, true)];
    Extend(s, steps, AddSpecial(true, false), true);
    steps := steps + [AddSpecial(true, false)];
    assert Exec(s, steps).dispatch == [Entry(WRITE, false, true), Entry(PACKET, false, true)];
    Extend(s, steps, AddBarrier(false, true, 8), true);
    steps := steps + [AddBarrier(false, true, 8)];
  }

  lemma ReachMidway() returns (steps: seq<Step>)
    ensures Runs(Init(DRAIN_ONLY), steps, true) && Exec(Init(DRAIN_ONLY), steps) == Midway()
  {
    var s := Init(DRAIN_ONLY);
    steps := Queueing();
    Extend(s, steps, Next, true);
    steps := steps + [Next];
    assert Exec(s, steps).dispatch == [Entry(WRITE, true, true), Entry(PACKET, false, true), Entry(BARRIER, false, true)];
    Extend(s, steps, Dequeue(0), true);
    steps := steps + [Dequeue(0)];
    assert Exec(s, steps).dispatch == [Entry(PACKET, false, true), Entry(BARRIER, false, true)];
    assert Exec(s, steps).driver == [Entry(WRITE, true, true)];
    Extend(s, steps, Next, true);
    steps := steps + [Next];
    assert Exec(s, steps).dispatch == [Entry(PACKET, true, true), Entry(BARRIER, false, true)];
    Extend(s, steps, Dequeue(0), true);
    steps := steps + [Dequeue(0)];
    assert Exec(s, steps).driver == [Entry(WRITE, true, true), Entry(PACKET, true, true)];
  }

  /** The barrier starts while write 0 is in flight. */
  function Waiting(): Queue {
    Midway().(dispatch := [Entry(BarRq, false, true)], ordseq := Stages(true, false, true, false, true), orig := Some(BARRIER),
              left := 1, errs := [0])
  }

  lemma StepToWaiting()
    ensures Enabled(Midway(), Next, true) && Apply(Midway(), Next) == Waiting()
  {
  }

  /** Write 0 comes back while the packet command is still with the driver. */
  function Requeued(): Queue {
    Waiting().(dispatch := [Entry(BarRq, false, true), Entry(WRITE, false, true)], driver := [Entry(PACKET, true, true)],
               inFlight := 0)
  }

  lemma StepToRequeued()
    ensures Enabled(Waiting(), Requeue(0), true) && Apply(Waiting(), Requeue(0)) == Requeued()
  {
  }

  lemma StepToWrong()
    ensures Enabled(Waiting(), Requeue(0), true) && Enabled(Apply(Waiting(), Requeue(0)), Complete(0, 0), true)
    ensures Apply(Apply(Waiting(), Requeue(0)), Complete(0, 0)) == Wrong()
  {
    StepToRequeued();
    CompletePacket();
  }

  lemma CompletePacket()
    ensures Enabled(Requeued(), Complete(0, 0), true) && Apply(Requeued(), Complete(0, 0)) == Wrong()
  {
  }

  lemma WrongIssue()
    ensures Enabled(Wrong(), Next, true) && !StepSafe(Wrong(), Next)
  {
    var t := Apply(Wrong(), Next);
    assert Issued(Wrong(), Next) == Some(BarRq);
    assert OrigBios(t) == [1];
    assert !AllBefore(t, 1) by {
      assert 0 !in t.ended;
    }
  }

  /** Write 0 is queued, then a packet command carrying REQ_HARDBARRIER (as
      drivers/block/pktcdvd.c queues them), then barrier 1.  The packet command flips the
      colour but starts no sequence, so write 0 and its barrier differ in colour; write 0,
      requeued during the drain, lands behind the barrier command, which is then issued
      with write 0 still pending. */
  lemma {:induction false} HardSpecialBreaksOrdering() returns (steps: seq<Step>)
    ensures Runs(Init(DRAIN_ONLY), steps, true) && !SafeRun(Init(DRAIN_ONLY), steps)
  {
    hide Apply, Enabled, StepSafe;
    var s := Init(DRAIN_ONLY);
    steps := ReachMidway();
    StepToWaiting();
    StepToWrong();
    WrongIssue();
    Extend(s, steps, Next, true);
    steps := steps + [Next];
    Extend(s, steps, Requeue(0), true);
    steps := steps + [Requeue(0)];
    Extend(s, steps, Complete(0, 0), true);
    steps := steps + [Complete(0, 0)];
    Extend(s, steps, Next, true);
    ExtendUnsafe(s, steps, Next);
    steps := steps + [Next];
  }

  /** Barrier ordering by draining holds in all runs exactly when no caller queues a
      non-file-system request that carries REQ_HARDBARRIER. */
  lemma OrderingHoldsIff(allowHard: bool)
    ensures (forall m, steps :: DrainMode(m) && Runs(Init(m), steps, allowHard) && Runs(Init(m), steps, true) ==>
               SafeRun(Init(m), steps)) <==> !allowHard
  {
    if allowHard {
      var steps := HardSpecialBreaksOrdering();
      assert DrainMode(DRAIN_ONLY);
    } else {
      forall m, steps | DrainMode(m) && Runs(Init(m), steps, false) && Runs(Init(m), steps, true)
        ensures SafeRun(Init(m), steps)
      {
        BarrierSafety(m, steps);
      }
    }
  }
}
