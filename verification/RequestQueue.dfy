/** struct request_queue as an object: the operations of blk-barrier.c and elevator.c
    updating its fields in place, each proved to compute the step of module Barrier that
    the run-level results are about. */
module RequestQueue {
  import opened ListOps
  import B = Barrier
  import Sequence = BarrierSequence

  class Queue {
    var dispatch: seq<B.Entry>
    var elevator: seq<B.Entry>
    var driver: seq<B.Entry>
    var color: bool
    var ordseq: B.Stages
    var ordered: B.Mode
    var nextOrdered: B.Mode
    var orderr: int
    var orig: Option<B.Request>
    var origStarted: bool
    var inFlight: int
    ghost var model: B.Queue // the same queue as a value, with its history

    ghost predicate Valid()
      reads this
    {
      && dispatch == model.dispatch && elevator == model.elevator && driver == model.driver
      && color == model.color && ordseq == model.ordseq && ordered == model.ordered && nextOrdered == model.nextOrdered
      && orderr == model.orderr && orig == model.orig && origStarted == model.origStarted && inFlight == model.inFlight
    }

    constructor (m: B.Mode)
      ensures Valid() && model == B.Init(m)
    {
      dispatch, elevator, driver := [], [], [];
      color, ordseq, ordered, nextOrdered := false, B.NO_STAGE, m, m;
      orderr, orig, origStarted, inFlight := 0, None, false, 0;
      model := B.Init(m);
    }

    /** blk_ordered_complete_seq: true when the whole sequence is over. */
    method CompleteSeq(stages: B.Stages, error: int) returns (over: bool)
      requires Valid() && ordseq.started
      modifies this
      ensures Valid() && model == B.CompleteSeq(old(model), stages, error)
      ensures over <==> ordseq == B.NO_STAGE
    {
      model := B.CompleteSeq(model, stages, error);
      if error != 0 && orderr == 0 {
        orderr := error;
      }
      ordseq := B.Or(ordseq, stages);
      if B.CurSeq(ordseq) != B.DONE {
        return false;
      }
      ordseq := B.NO_STAGE;
      if origStarted {
        inFlight := inFlight - 1;
      }
      return true;
    }

    /** Stack the commands of a sequence in front of `rest`, last one first. */
    static method StackSequence(mode: B.Mode, rest: seq<B.Entry>)
      returns (queue: seq<B.Entry>, first: Option<B.Request>, skip: B.Stages)
      ensures queue == B.Proxies(mode) + rest && skip == B.Skipped(mode, true)
      ensures first == if B.Proxies(mode) == [] then None else Some(B.Proxies(mode)[0].rq)
    {
      queue, first, skip := rest, None, B.NO_STAGE;
      if mode.postflush {
        queue, first := [B.Entry(B.PostFlush, false, true)] + queue, Some(B.PostFlush);
      } else {
        skip := skip.(postflush := true);
      }
      if mode.bar {
        queue, first := [B.Entry(B.BarRq, false, true)] + queue, Some(B.BarRq);
      } else {
        skip := skip.(bar := true);
      }
      if mode.preflush {
        queue, first := [B.Entry(B.PreFlush, false, true)] + queue, Some(B.PreFlush);
      } else {
        skip := skip.(preflush := true);
      }
    }

    static method ModeFor(next: B.Mode, empty: bool) returns (mode: B.Mode)
      ensures mode == B.EffectiveMode(next, empty)
    {
      mode := next;
      if empty {
        mode := mode.(bar := false, postflush := false);
        if mode.byTag && !mode.preflush {
          mode := mode.(byTag := false, byDrain := true);
        }
      }
    }

    /** start_ordered up to the point where the skipped stages are completed. */
    method QueueSequence() returns (issue: Option<B.Request>, skip: B.Stages)
      requires Valid() && dispatch != [] && dispatch[0].rq.Fs?
      modifies this
      ensures Valid() && model == B.StartState(old(model))
      ensures skip == B.Skipped(ordered, true)
      ensures issue == if B.Proxies(ordered) == [] then None else Some(B.Proxies(ordered)[0].rq)
    {
      hide B.Skipped, B.EffectiveMode, B.Proxies, B.StartState;
      var mode := ModeFor(nextOrdered, dispatch[0].rq.empty);
      var stacked;
      stacked, issue, skip := StackSequence(mode, dispatch[1..]);
      Stash(mode, stacked);
    }

    /** The barrier at the head becomes the original of a sequence in `mode`, with `stacked` for the list. */
    method Stash(mode: B.Mode, stacked: seq<B.Entry>)
      requires Valid() && dispatch != [] && dispatch[0].rq.Fs?
      requires mode == B.EffectiveMode(nextOrdered, dispatch[0].rq.empty) && stacked == B.Proxies(mode) + dispatch[1..]
      modifies this
      ensures Valid() && model == B.StartState(old(model)) && ordered == mode
    {
      hide B.EffectiveMode, B.Proxies, B.Account, B.StartState;
      StartFields(model);
      ghost var start := B.StartState(model);
      var e := dispatch[0];
      ordered, dispatch := mode, stacked;
      ordseq, orderr, inFlight := ordseq.(started := true), 0, inFlight + B.Account(e);
      orig, origStarted := Some(e.rq), e.started;
      model := start;
    }

    /** start_ordered, for the barrier at the head of the dispatch list. */
    method StartOrdered() returns (gone: bool, issue: Option<B.Request>)
      requires Valid() && dispatch != [] && dispatch[0].rq.Fs?
      modifies this
      ensures Valid() && model == B.StartOrdered(old(model)).0
      ensures B.StartOrdered(old(model)).1 ==
              if gone then B.Gone else if issue.Some? then B.Issue(issue.value) else B.Hold
    {
      var skip;
      issue, skip := QueueSequence();
      if ordered.byDrain && inFlight != 0 {
        issue := None;
      } else {
        skip := skip.(drain := true);
      }
      assert skip == B.Skipped(ordered, ordered.byDrain && inFlight != 0);
      gone := CompleteSeq(skip, 0);
    }

    /** elv_completed_request. */
    method Completed(e: B.Entry)
      requires Valid()
      requires ordseq != B.NO_STAGE ==> ordseq.started
      modifies this
      ensures Valid() && model == B.Completed(old(model), e)
    {
      hide B.ReqSeq, B.CurSeq, B.CompleteSeq, B.Account;
      model := model.(inFlight := model.inFlight - B.Account(e));
      inFlight := inFlight - B.Account(e);
      if ordseq != B.NO_STAGE {
        var mayComplete := dispatch == [] || B.ReqSeq(orig, dispatch[0].rq) > B.DRAIN;
        if inFlight == 0 && B.CurSeq(ordseq) == B.DRAIN && mayComplete {
          var _ := CompleteSeq(B.NO_STAGE.(drain := true), 0);
        }
      }
    }

    /** blk_do_ordered, for the head of the dispatch list. */
    method DoOrdered() returns (outcome: B.Outcome)
      requires Valid() && dispatch != []
      modifies this
      ensures Valid() && (model, outcome) == B.DoOrdered(old(model))
    {
      var rq := dispatch[0].rq;
      if ordseq == B.NO_STAGE {
        if !rq.Fs? || !rq.barrier {
          return B.Issue(rq);
        }
        if nextOrdered != B.NONE {
          var gone, issue := StartOrdered();
          return if gone then B.Gone else if issue.Some? then B.Issue(issue.value) else B.Hold;
        }
        Terminate();
        return B.Gone;
      }
      if rq.Special? {
        return B.Issue(rq);
      }
      if ordered.byTag {
        return if rq.Fs? && rq.barrier then B.Hold else B.Issue(rq);
      }
      model := model.(warned := model.warned || B.ReqSeq(orig, rq) < B.CurSeq(ordseq));
      return if B.ReqSeq(orig, rq) > B.CurSeq(ordseq) then B.Hold else B.Issue(rq);
    }

    /** A barrier on a queue without ordering support is failed. */
    method Terminate()
      requires Valid() && ordseq == B.NO_STAGE && nextOrdered == B.NONE
      requires dispatch != [] && dispatch[0].rq.Fs? && dispatch[0].rq.barrier
      modifies this
      ensures Valid() && model == B.DoOrdered(old(model)).0 && B.DoOrdered(old(model)).1 == B.Gone
    {
      var e := dispatch[0];
      dispatch, inFlight := dispatch[1..], inFlight + B.Account(e);
      model := B.EndBarrier(model.(dispatch := dispatch, inFlight := inFlight, left := model.left + 1), e.rq.bios, -B.EOPNOTSUPP);
      Completed(e);
    }

    /** elv_dispatch_sort: walk back from the tail to the place for elevator[k]. */
    method DispatchSort(k: nat, boundary: nat)
      requires Valid() && k < |elevator| && elevator[k].rq.Fs?
      modifies this
      ensures Valid() && model == B.DispatchFrom(old(model), k, true, boundary)
    {
      var e := elevator[k];
      var n: nat := |dispatch|;
      while n > 0
        invariant n <= |dispatch|
        invariant B.SortPos(dispatch, e.rq, boundary, n) == B.SortPos(dispatch, e.rq, boundary, |dispatch|)
        invariant unchanged(this)
      {
        var pos := dispatch[n - 1];
        if B.StopsSort(pos, e.rq) {
          break;
        }
        if e.rq.sector >= boundary {
          if pos.rq.sector < boundary {
            n := n - 1;
            continue;
          }
        } else if pos.rq.sector >= boundary {
          break;
        }
        if e.rq.sector >= pos.rq.sector {
          break;
        }
        n := n - 1;
      }
      elevator := RemoveAt(elevator, k);
      dispatch := InsertAt(dispatch, n, e);
      model := B.DispatchFrom(model, k, true, boundary);
    }

    /** The scan of ELEVATOR_INSERT_REQUEUE while a sequence is in progress. */
    method RequeuePosition(rq: B.Request) returns (p: nat)
      requires Valid()
      ensures p == B.RequeuePos(model, rq, 0) && p <= |dispatch|
    {
      p := 0;
      while p < |dispatch| && B.ReqSeq(orig, rq) > B.ReqSeq(orig, dispatch[p].rq)
        invariant p <= |dispatch| && B.RequeuePos(model, rq, p) == B.RequeuePos(model, rq, 0)
      {
        p := p + 1;
      }
    }

    /** elv_requeue_request for driver[k]. */
    method Requeue(k: nat)
      requires Valid() && k < |driver|
      modifies this
      ensures Valid() && model == B.RequeueAt(old(model), k)
    {
      var e, p := driver[k], 0;
      driver := RemoveAt(driver, k);
      inFlight := inFlight - B.Account(e);
      model := model.(driver := driver, inFlight := inFlight);
      if ordseq != B.NO_STAGE {
        p := RequeuePosition(e.rq);
      }
      dispatch := InsertAt(dispatch, p, B.Entry(e.rq, false, true));
      model := model.(dispatch := dispatch);
    }

    /** elv_dequeue_request: the driver takes a request it was shown. */
    method Dequeue(k: nat)
      requires Valid() && k < |dispatch|
      modifies this
      ensures Valid() && model == B.DequeueAt(old(model), k)
    {
      model := B.DequeueAt(model, k);
      driver := driver + [dispatch[k]];
      inFlight := inFlight + B.Account(dispatch[k]);
      dispatch := RemoveAt(dispatch, k);
    }

    /** __blk_end_request for driver[k], down to the end_io function of a proxy. */
    method Complete(k: nat, error: int)
      requires Valid() && k < |driver| && Sequence.Integrity(model)
      modifies this
      ensures Valid() && model == B.EndAt(old(model), k, error)
    {
      hide B.Completed, B.CompleteSeq, Sequence.Balanced;
      var e := driver[k];
      ghost var s := model;
      driver := RemoveAt(driver, k);
      model := model.(driver := driver);
      if e.rq.Fs? {
        model := model.(ended := model.ended + e.rq.bios);
        Completed(e);
      } else {
        Completed(e);
        if !e.rq.Special? {
          Sequence.StillOpen(s, k);
          var _ := CompleteSeq(B.StageOf(e.rq), error);
        }
      }
    }

    /** elv_dispatch_add_tail for elevator[k]. */
    method DispatchAddTail(k: nat)
      requires Valid() && k < |elevator| && elevator[k].rq.Fs?
      modifies this
      ensures Valid() && model == B.DispatchFrom(old(model), k, false, 0)
    {
      model := B.DispatchFrom(model, k, false, 0);
      dispatch := dispatch + [elevator[k]];
      elevator := RemoveAt(elevator, k);
      assert dispatch == InsertAt(old(dispatch), |old(dispatch)|, old(elevator[k]));
    }

    /** The dispatch function of a scheduler, which may choose what it releases, how much of it and
        whether with elv_dispatch_sort or elv_dispatch_add_tail.  It says whether it released
        anything, and when forced it does if it can. */
    method ElevatorDispatch(force: bool) returns (any: bool, ghost steps: seq<B.Step>)
      requires Valid() && OnlyFs(elevator)
      modifies this
      ensures Valid() && OnlyFs(elevator) && Ran(old(model), steps, false, model)
      ensures any <==> |elevator| < |old(elevator)|
      ensures !any ==> model == old(model) && (force ==> elevator == [])
      ensures model.subs == old(model).subs && model.barriers == old(model).barriers && model.color == old(model).color
    {
      any, steps := false, [];
      var more: bool := *;
      while elevator != [] && (more || (force && !any))
        invariant Valid() && OnlyFs(elevator) && Ran(old(model), steps, false, model)
        invariant |elevator| <= |old(elevator)| && (any <==> |elevator| < |old(elevator)|)
        invariant !any ==> model == old(model)
        invariant model.subs == old(model).subs && model.barriers == old(model).barriers && model.color == old(model).color
        decreases |elevator|
      {
        var k: nat, boundary: nat :| k < |elevator|;
        var sorted: bool := *;
        ghost var step := B.Dispatch(k, sorted, if sorted then boundary else 0);
        Sequence.Extend(old(model), steps, step, false);
        if sorted {
          DispatchSort(k, boundary);
        } else {
          DispatchAddTail(k);
        }
        steps := steps + [step];
        any, more := true, *;
      }
    }

    /** elv_drain_elevator. */
    method DrainElevator() returns (ghost steps: seq<B.Step>)
      requires Valid() && OnlyFs(elevator)
      modifies this
      ensures Valid() && elevator == [] && Ran(old(model), steps, false, model)
      ensures model.subs == old(model).subs && model.barriers == old(model).barriers && model.color == old(model).color
    {
      steps := [];
      var more := true;
      while more
        invariant Valid() && OnlyFs(elevator) && Ran(old(model), steps, false, model)
        invariant model.subs == old(model).subs && model.barriers == old(model).barriers && model.color == old(model).color
        invariant !more ==> elevator == []
        decreases more, |elevator|
      {
        ghost var turn;
        more, turn := ElevatorDispatch(true);
        Sequence.Join(old(model), steps, turn, false);
        steps := steps + turn;
      }
    }

    /** __elv_add_request.  Barriers and requests without elevator data do not go to the scheduler but
        to the back, after draining the elevator.  The caller keeps file system requests away from
        the front, and other requests away from the scheduler. */
    method AddRequest(rq: B.Request, where: Where, elvpriv: bool) returns (ghost steps: seq<B.Step>)
      requires Valid() && OnlyFs(elevator) && (rq.Fs? || rq.Special?)
      requires rq.Fs? ==> rq.bios == [|model.subs|] && rq.epoch == |model.barriers| && (rq.empty ==> rq.barrier)
      requires where == Front ==> rq.Special?
      requires where == Sort && rq.Special? ==> rq.hard || !elvpriv
      modifies this
      ensures Valid() && Ran(old(model), steps, rq.Special? && rq.hard, model)
      ensures steps != [] && steps[|steps| - 1] == AddStep(rq, where, elvpriv)
    {
      hide B.Apply;
      steps := [];
      ghost var step := AddStep(rq, where, elvpriv);
      var colored := if rq.Fs? then rq.(color := color) else rq;
      if where == Front {
        Sequence.Extend(model, steps, step, rq.Special? && rq.hard);
        AddFront(rq);
      } else if IsBarrier(rq) || !elvpriv || where == Back {
        steps := DrainElevator();
        Tolerant(old(model), steps, rq.Special? && rq.hard);
        Sequence.Extend(old(model), steps, step, rq.Special? && rq.hard);
        AddBack(colored);
      } else {
        Sequence.Extend(model, steps, step, false);
        AddSorted(colored);
      }
      steps := steps + [step];
    }

    /** ELEVATOR_INSERT_FRONT. */
    method AddFront(rq: B.Request)
      requires Valid() && rq.Special?
      modifies this
      ensures Valid() && model == B.Apply(old(model), AddStep(rq, Front, false))
    {
      var e := B.Entry(rq, false, true);
      model := B.Apply(model, AddStep(rq, Front, false));
      if rq.hard {
        color := !color;
      }
      dispatch := [e] + dispatch;
      assert dispatch == InsertAt(old(dispatch), 0, e);
    }

    /** ELEVATOR_INSERT_SORT. */
    method AddSorted(rq: B.Request)
      requires Valid() && rq.Fs? && rq == B.NewFs(model, false, false, rq.write, rq.sector)
      modifies this
      ensures Valid() && model == B.Apply(old(model), AddStep(rq, Sort, true))
    {
      model := B.Apply(model, AddStep(rq, Sort, true));
      elevator := elevator + [B.Entry(rq, false, false)];
    }

    /** ELEVATOR_INSERT_BACK, once the elevator is drained. */
    method AddBack(rq: B.Request)
      requires Valid() && elevator == [] && (rq.Fs? || rq.Special?)
      requires rq.Fs? ==> rq == B.NewFs(model, rq.barrier, rq.barrier && rq.empty, rq.write, rq.sector)
      modifies this
      ensures Valid() && model == B.Apply(old(model), AddStep(rq, Back, false))
    {
      var e := B.Entry(rq, false, true);
      model := B.Apply(model, AddStep(rq, Back, false));
      if IsBarrier(rq) {
        color := !color;
      }
      dispatch := dispatch + [e];
      assert dispatch == InsertAt(old(dispatch), |old(dispatch)|, e);
    }

    /** elv_next_request: turns of blk_do_ordered and of the scheduler, the last of which shows the
        head of the dispatch list or finds nothing to show. */
    method NextRequest() returns (r: Option<B.Request>, ghost steps: seq<B.Step>)
      requires Valid() && OnlyFs(elevator)
      modifies this
      ensures Valid() && Ran(old(model), steps, false, model)
      ensures r.Some? ==> dispatch != [] && dispatch[0].rq == r.value && dispatch[0].started
      ensures r.None? && dispatch != [] ==> LastTurnHeld(old(model), steps)
    {
      hide B.DoOrdered, B.SortPos;
      steps := [];
      while true
        invariant Valid() && OnlyFs(elevator) && Ran(old(model), steps, false, model)
        decreases |elevator|, |dispatch|
      {
        if dispatch != [] {
          TurnFacts(model);
          Sequence.Extend(old(model), steps, B.Next, false);
          ghost var before := steps;
          steps := steps + [B.Next];
          assert steps[..|steps| - 1] == before;
          var o := DoOrdered();
          match o
          case Issue(rq) =>
            dispatch := dispatch[0 := dispatch[0].(started := true)];
            model := B.MarkStarted(model);
            return Some(rq), steps;
          case Hold => return None, steps;
          case Gone =>
        } else {
          var any: bool;
          ghost var turn;
          any, turn := ElevatorDispatch(false);
          if !any {
            return None, steps;
          }
          Sequence.Join(old(model), steps, turn, false);
          steps := steps + turn;
        }
      }
    }
  }

  datatype Where = Front | Back | Sort

  predicate IsBarrier(rq: B.Request) {
    (rq.Fs? && rq.barrier) || (rq.Special? && rq.hard)
  }

  /** The step of module Barrier that adding a request with these flags comes down to. */
  function AddStep(rq: B.Request, where: Where, elvpriv: bool): B.Step
    requires rq.Fs? || rq.Special?
  {
    match rq
    case Special(hard) => B.AddSpecial(hard, where == Front)
    case Fs(_, barrier, empty, _, write, sector, _) =>
      if barrier then B.AddBarrier(empty, write, sector)
      else if where == Sort && elvpriv then B.AddSorted(write, sector)
      else B.AddBack(write, sector)
  }

  predicate OnlyFs(es: seq<B.Entry>) {
    forall e :: e in es ==> e.rq.Fs?
  }

  /** `steps` lead from s to t. */
  predicate Ran(s: B.Queue, steps: seq<B.Step>, allowHard: bool, t: B.Queue) {
    B.Runs(s, steps, allowHard) && B.Runs(s, steps, true) && t == B.Exec(s, steps)
  }

  /** The last step is a turn of blk_do_ordered that answered to hold the head. */
  predicate LastTurnHeld(s: B.Queue, steps: seq<B.Step>) {
    && steps != [] && steps[|steps| - 1] == B.Next
    && var before := steps[..|steps| - 1];
    && B.Runs(s, before, true)
    && var t := B.Exec(s, before);
    && t.dispatch != [] && B.DoOrdered(t).1 == B.Hold
  }

  lemma {:induction false} Tolerant(s: B.Queue, steps: seq<B.Step>, allowHard: bool)
    requires B.Runs(s, steps, false)
    ensures B.Runs(s, steps, allowHard)
    decreases |steps|
  {
    if steps != [] {
      Tolerant(B.Apply(s, steps[0]), steps[1..], allowHard);
    }
  }

  lemma StartFields(s: B.Queue)
    requires s.dispatch != [] && s.dispatch[0].rq.Fs?
    ensures var t, m := B.StartState(s), B.EffectiveMode(s.nextOrdered, s.dispatch[0].rq.empty);
            && t.dispatch == B.Proxies(m) + s.dispatch[1..] && t.elevator == s.elevator && t.driver == s.driver
            && t.color == s.color && t.ordseq == s.ordseq.(started := true) && t.ordered == m && t.nextOrdered == s.nextOrdered
            && t.orderr == 0 && t.orig == Some(s.dispatch[0].rq) && t.origStarted == s.dispatch[0].started
            && t.inFlight == s.inFlight + B.Account(s.dispatch[0])
  {
  }

  /** blk_do_ordered only ever shows the head of the list, and when it removes the head
      nothing takes its place. */
  lemma TurnFacts(s: B.Queue)
    requires s.dispatch != []
    ensures var (t, o) := B.DoOrdered(s);
            && t.elevator == s.elevator
            && (o.Issue? ==> t.dispatch != [] && t.dispatch[0].rq == o.rq)
            && (o.Gone? ==> |t.dispatch| == |s.dispatch| - 1)
  {
    hide B.DoOrdered, B.StartOrdered, B.EffectiveMode, B.Account;
    Sequence.DoOrderedFrame(s);
    if s.ordseq != B.NO_STAGE || !Sequence.FsBar(s.dispatch[0].rq) {
      Sequence.HeadKept(s);
    } else if s.nextOrdered != B.NONE {
      Sequence.HeadStarts(s);
      Sequence.StartParts(s);
    } else {
      Sequence.HeadRefused(s);
    }
  }
}
