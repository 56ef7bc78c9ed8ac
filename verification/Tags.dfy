/** Tagged command queueing (kernel/block/blk-tag.c): several queues share one map of tags.

    A queue runs one operation at a time, under its own lock; the operations of different queues
    interleave between any two accesses to the shared map.  The depth is read once, before the search,
    and may be out of date when a tag is claimed.  Finding a free bit only suggests a tag: what counts
    is the atomic test-and-set that follows, so the suggestion is arbitrary here. */
module Tags {
  import opened ListOps

  datatype Rq = Rq(id: nat, queue: nat, sync: bool)

  /** Where a queue is inside blk_queue_start_tag (depth read and looking for a tag, or bit set and
      index not yet written) or blk_queue_end_tag (index cleared, bit not yet). */
  datatype Pc = Idle | Searching(rq: Rq, depth: nat) | Claimed(tag: nat, rq: Rq) | Clearing(tag: nat)

  /** bits is tag_map, index is tag_index, tagOf the tag field of the requests that have one, and
      busy the tag_busy_list of each queue, newest first. */
  datatype State = State(maxDepth: nat, bits: seq<bool>, index: seq<Option<Rq>>, tagOf: map<Rq, nat>,
                         pc: seq<Pc>, busy: seq<seq<Rq>>)

  datatype Step =
    | Begin(rq: Rq)            // max_depth is read
    | Claim(q: nat, tag: nat)  // test_and_set_bit_lock found the bit clear
    | GiveUp(q: nat)           // the search went past the depth
    | Publish(q: nat)          // rq->tag, tag_index, tag_busy_list
    | Retract(rq: Rq)          // list_del, rq->tag = -1, tag_index = NULL
    | Release(q: nat)          // clear_bit_unlock
    | Resize(depth: nat)       // blk_queue_resize_tags within the map's real depth

  /** Tags below this are kept for synchronous requests. */
  function Offset(maxDepth: nat, rq: Rq): nat {
    if rq.sync then 0 else maxDepth / 4
  }

  predicate Shaped(s: State) {
    |s.bits| == |s.index| && |s.pc| == |s.busy| && s.maxDepth <= |s.bits|
  }

  predicate Enabled(s: State, step: Step) {
    Shaped(s) &&
    match step
    case Begin(rq) => rq.queue < |s.pc| && s.pc[rq.queue] == Idle && rq !in s.tagOf
    case Claim(q, tag) =>
      && q < |s.pc| && s.pc[q].Searching? && s.pc[q].rq.queue == q && tag < |s.bits|
      && Offset(s.pc[q].depth, s.pc[q].rq) <= tag < s.pc[q].depth && !s.bits[tag]
    case GiveUp(q) => q < |s.pc| && s.pc[q].Searching?
    case Publish(q) => q < |s.pc| && s.pc[q].Claimed? && s.pc[q].tag < |s.index|
    case Retract(rq) => rq.queue < |s.pc| && s.pc[rq.queue] == Idle && rq in s.tagOf && s.tagOf[rq] < |s.index|
    case Release(q) => q < |s.pc| && s.pc[q].Clearing? && s.pc[q].tag < |s.bits|
    case Resize(depth) => depth <= |s.bits|
  }

  function Without(list: seq<Rq>, rq: Rq): seq<Rq> {
    if list == [] then [] else if list[0] == rq then list[1..] else [list[0]] + Without(list[1..], rq)
  }

  function Apply(s: State, step: Step): State
    requires Enabled(s, step)
  {
    match step
    case Begin(rq) => s.(pc := s.pc[rq.queue := Searching(rq, s.maxDepth)])
    case Claim(q, tag) => s.(bits := s.bits[tag := true], pc := s.pc[q := Claimed(tag, s.pc[q].rq)])
    case GiveUp(q) => s.(pc := s.pc[q := Idle])
    case Publish(q) =>
      var (tag, rq) := (s.pc[q].tag, s.pc[q].rq);
      s.(index := s.index[tag := Some(rq)], tagOf := s.tagOf[rq := tag], pc := s.pc[q := Idle],
         busy := s.busy[q := [rq] + s.busy[q]])
    case Retract(rq) =>
      var tag := s.tagOf[rq];
      s.(index := s.index[tag := None], tagOf := s.tagOf - {rq}, pc := s.pc[rq.queue := Clearing(tag)],
         busy := s.busy[rq.queue := Without(s.busy[rq.queue], rq)])
    case Release(q) => s.(bits := s.bits[s.pc[q].tag := false], pc := s.pc[q := Idle])
    case Resize(depth) => s.(maxDepth := depth)
  }

  // ----- what every step keeps -----

  /** The queue is between setting a bit and writing the index, or between clearing the two. */
  predicate Holds(p: Pc) {
    p.Claimed? || p.Clearing?
  }

  predicate HeldBy(p: Pc, tag: nat) {
    Holds(p) && p.tag == tag
  }

  /** Requests and tags correspond one to one through the index, and an indexed tag is taken. */
  predicate IndexOk(s: State)
    requires Shaped(s)
  {
    && (forall t :: 0 <= t < |s.index| && s.index[t].Some? ==>
          s.bits[t] && s.index[t].value in s.tagOf && s.tagOf[s.index[t].value] == t)
    && (forall r :: r in s.tagOf ==> s.tagOf[r] < |s.index| && s.index[s.tagOf[r]] == Some(r))
  }

  /** A queue in the middle of an operation holds a taken tag that is not indexed, alone. */
  predicate PcOk(s: State)
    requires Shaped(s)
  {
    && (forall q :: 0 <= q < |s.pc| && Holds(s.pc[q]) ==>
          s.pc[q].tag < |s.bits| && s.bits[s.pc[q].tag] && s.index[s.pc[q].tag] == None)
    && (forall q :: 0 <= q < |s.pc| && (s.pc[q].Claimed? || s.pc[q].Searching?) ==>
          s.pc[q].rq.queue == q && s.pc[q].rq !in s.tagOf)
    && (forall q :: 0 <= q < |s.pc| && s.pc[q].Searching? ==> s.pc[q].depth <= |s.bits|)
    && (forall q, u :: 0 <= q < u < |s.pc| && Holds(s.pc[q]) && Holds(s.pc[u]) ==> s.pc[q].tag != s.pc[u].tag)
  }

  /** No tag is lost: a taken one is indexed or held by a queue. */
  predicate NoLeak(s: State)
    requires Shaped(s)
  {
    forall t :: 0 <= t < |s.bits| && s.bits[t] ==>
      s.index[t].Some? || exists q :: 0 <= q < |s.pc| && HeldBy(s.pc[q], t)
  }

  /** The busy list of a queue holds its tagged requests, each once. */
  ghost predicate BusyOk(s: State)
    requires Shaped(s)
  {
    && (forall q :: 0 <= q < |s.busy| ==> Distinct(s.busy[q]))
    && (forall q, r :: 0 <= q < |s.busy| ==> (r in s.busy[q] <==> r in s.tagOf && r.queue == q))
  }

  predicate Distinct(list: seq<Rq>) {
    forall i, j :: 0 <= i < j < |list| ==> list[i] != list[j]
  }

  ghost predicate Valid(s: State) {
    Shaped(s) && IndexOk(s) && PcOk(s) && NoLeak(s) && BusyOk(s)
  }

  /** Asynchronous requests stay out of the reserved tags. */
  predicate ReservedFree(s: State) {
    && (forall r :: r in s.tagOf ==> Offset(s.maxDepth, r) <= s.tagOf[r])
    && (forall q :: 0 <= q < |s.pc| && s.pc[q].Claimed? ==> Offset(s.maxDepth, s.pc[q].rq) <= s.pc[q].tag)
    && (forall q :: 0 <= q < |s.pc| && s.pc[q].Searching? ==> s.pc[q].depth == s.maxDepth)
  }

  lemma {:induction false} WithoutMembers(list: seq<Rq>, rq: Rq)
    requires Distinct(list)
    ensures Distinct(Without(list, rq))
    ensures forall r :: r in Without(list, rq) <==> r in list && r != rq
  {
    if list != [] {
      assert list == [list[0]] + list[1..];
      WithoutMembers(list[1..], rq);
      assert list[0] !in list[1..];
    }
  }

  lemma StepIndex(s: State, step: Step)
    requires Valid(s) && Enabled(s, step)
    ensures Shaped(Apply(s, step)) && IndexOk(Apply(s, step))
  {
    hide NoLeak, BusyOk, Without;
  }

  lemma StepPc(s: State, step: Step)
    requires Valid(s) && Enabled(s, step)
    ensures Shaped(Apply(s, step)) && PcOk(Apply(s, step))
  {
    hide NoLeak, BusyOk, Without;
  }

  lemma StepNoLeak(s: State, step: Step)
    requires Valid(s) && Enabled(s, step)
    ensures Shaped(Apply(s, step)) && NoLeak(Apply(s, step))
  {
    hide BusyOk, Without;
    var s' := Apply(s, step);
    forall t | 0 <= t < |s'.bits| && s'.bits[t]
      ensures s'.index[t].Some? || exists q :: 0 <= q < |s'.pc| && HeldBy(s'.pc[q], t)
    {
      match step
      case Begin(_) =>
        if s.index[t].None? {
          var q :| 0 <= q < |s.pc| && HeldBy(s.pc[q], t);
          assert HeldBy(s'.pc[q], t);
        }
      case GiveUp(_) =>
        if s.index[t].None? {
          var q :| 0 <= q < |s.pc| && HeldBy(s.pc[q], t);
          assert HeldBy(s'.pc[q], t);
        }
      case Claim(q0, tag) =>
        if t == tag {
          assert HeldBy(s'.pc[q0], t);
        } else if s.index[t].None? {
          var q :| 0 <= q < |s.pc| && HeldBy(s.pc[q], t);
          assert HeldBy(s'.pc[q], t);
        }
      case Publish(q0) =>
        if s.index[t].None? && t != s.pc[q0].tag {
          var q :| 0 <= q < |s.pc| && HeldBy(s.pc[q], t);
          assert HeldBy(s'.pc[q], t);
        }
      case Retract(rq) =>
        if t == s.tagOf[rq] {
          assert HeldBy(s'.pc[rq.queue], t);
        } else if s.index[t].None? {
          var q :| 0 <= q < |s.pc| && HeldBy(s.pc[q], t);
          assert HeldBy(s'.pc[q], t);
        }
      case Release(q0) =>
        if s.index[t].None? {
          var q :| 0 <= q < |s.pc| && HeldBy(s.pc[q], t);
          assert HeldBy(s'.pc[q], t);
        }
      case Resize(_) =>
    }
  }

  lemma StepBusy(s: State, step: Step)
    requires Valid(s) && Enabled(s, step)
    ensures Shaped(Apply(s, step)) && BusyOk(Apply(s, step))
  {
    hide NoLeak, IndexOk;
    match step
    case Publish(q) =>
      assert s.pc[q].rq !in s.busy[q];
    case Retract(rq) =>
      WithoutMembers(s.busy[rq.queue], rq);
    case _ =>
  }

  /** Every step of every queue keeps the tags straight. */
  lemma StepValid(s: State, step: Step)
    requires Valid(s) && Enabled(s, step)
    ensures Valid(Apply(s, step))
  {
    hide IndexOk, PcOk, NoLeak, BusyOk;
    StepIndex(s, step);
    StepPc(s, step);
    StepNoLeak(s, step);
    StepBusy(s, step);
  }

  lemma StepReserved(s: State, step: Step)
    requires Valid(s) && Enabled(s, step) && ReservedFree(s)
    ensures step.Resize? || ReservedFree(Apply(s, step))
  {
    hide NoLeak, BusyOk, IndexOk, Without;
  }

  // ----- runs -----

  predicate Runs(s: State, steps: seq<Step>)
    decreases |steps|
  {
    steps == [] || (Enabled(s, steps[0]) && Runs(Apply(s, steps[0]), steps[1..]))
  }

  function After(s: State, steps: seq<Step>): State
    requires Runs(s, steps)
    decreases |steps|
  {
    if steps == [] then s else After(Apply(s, steps[0]), steps[1..])
  }

  function Start(depth: nat, queues: nat): State {
    State(depth, seq(depth, _ => false), seq(depth, _ => None), map[], seq(queues, _ => Idle), seq(queues, _ => []))
  }

  lemma {:induction false} RunValid(s: State, steps: seq<Step>)
    requires Valid(s) && Runs(s, steps)
    ensures Valid(After(s, steps))
    decreases |steps|
  {
    hide Valid, Apply;
    if steps != [] {
      StepValid(s, steps[0]);
      RunValid(Apply(s, steps[0]), steps[1..]);
    }
  }

  lemma StartValid(depth: nat, queues: nat)
    ensures Valid(Start(depth, queues)) && ReservedFree(Start(depth, queues))
  {
  }

  /** Over every run of any number of queues on one map: an indexed tag is taken, two requests never
      share a tag, and a taken tag is accounted for. */
  lemma TagsExclusive(depth: nat, queues: nat, steps: seq<Step>)
    requires Runs(Start(depth, queues), steps)
    ensures var s := After(Start(depth, queues), steps);
            && Shaped(s)
            && (forall t :: 0 <= t < |s.index| && s.index[t].Some? ==> s.bits[t])
            && (forall r, u :: r in s.tagOf && u in s.tagOf && s.tagOf[r] == s.tagOf[u] ==> r == u)
            && NoLeak(s)
  {
    hide NoLeak, BusyOk, PcOk;
    StartValid(depth, queues);
    RunValid(Start(depth, queues), steps);
  }

  /** Over every run that does not change the depth, asynchronous requests hold no reserved tag. */
  lemma {:induction false} AsyncStaysOut(s: State, steps: seq<Step>)
    requires Valid(s) && ReservedFree(s) && Runs(s, steps)
    requires forall i :: 0 <= i < |steps| ==> !steps[i].Resize?
    ensures ReservedFree(After(s, steps))
    decreases |steps|
  {
    hide Valid, Apply, ReservedFree;
    if steps != [] {
      StepValid(s, steps[0]);
      StepReserved(s, steps[0]);
      AsyncStaysOut(Apply(s, steps[0]), steps[1..]);
    }
  }
}

/** The operations of one queue on the shared map, as runs of the steps of module Tags.  While a tag is
    being looked for, other queues get to act. */
module TagQueue {
  import opened ListOps
  import opened Tags

  function Reversed(list: seq<Rq>): seq<Rq> {
    if list == [] then [] else Reversed(list[1..]) + [list[0]]
  }

  /** Taking a tag: read the depth, claim and publish. */
  function Started(s: State, rq: Rq, tag: nat): State
    requires Valid(s) && Enabled(s, Begin(rq)) && Enabled(Apply(s, Begin(rq)), Claim(rq.queue, tag))
  {
    Apply(Apply(Apply(s, Begin(rq)), Claim(rq.queue, tag)), Publish(rq.queue))
  }

  /** Giving a tag back: retract and release. */
  function Finished(s: State, rq: Rq): State
    requires Valid(s) && Enabled(s, Retract(rq))
  {
    StepValid(s, Retract(rq));
    Apply(Apply(s, Retract(rq)), Release(rq.queue))
  }

  lemma StartedValid(s: State, rq: Rq, tag: nat)
    requires Valid(s) && Enabled(s, Begin(rq)) && Enabled(Apply(s, Begin(rq)), Claim(rq.queue, tag))
    ensures Valid(Started(s, rq, tag)) && Enabled(Started(s, rq, tag), Retract(rq))
  {
    hide Valid;
    var s1 := Apply(s, Begin(rq));
    StepValid(s, Begin(rq));
    StepValid(s1, Claim(rq.queue, tag));
    StepValid(Apply(s1, Claim(rq.queue, tag)), Publish(rq.queue));
    UnfoldShape(Started(s, rq, tag));
  }

  /** Taking a tag and giving it back leaves everything as it was. */
  lemma StartThenFinish(s: State, rq: Rq, tag: nat)
    requires Valid(s) && Enabled(s, Begin(rq)) && Enabled(Apply(s, Begin(rq)), Claim(rq.queue, tag))
    ensures Valid(Started(s, rq, tag)) && Enabled(Started(s, rq, tag), Retract(rq))
    ensures Finished(Started(s, rq, tag), rq) == s
  {
    StartedValid(s, rq, tag);
    FreeTag(s, tag);
    hide Valid;
    var t := Finished(Started(s, rq, tag), rq);
    assert t.bits == s.bits && t.index == s.index && t.tagOf == s.tagOf && t.pc == s.pc && t.busy == s.busy;
  }

  lemma FreeTag(s: State, tag: nat)
    requires Valid(s) && tag < |s.bits| && !s.bits[tag]
    ensures Shaped(s) && s.index[tag] == None
  {
  }

  lemma FinishedBusy(s: State, rq: Rq)
    requires Valid(s) && Enabled(s, Retract(rq)) && s.busy[rq.queue] != [] && s.busy[rq.queue][0] == rq
    ensures Valid(Finished(s, rq)) && Finished(s, rq).busy == s.busy[rq.queue := s.busy[rq.queue][1..]]
    ensures Finished(s, rq).pc == s.pc
  {
    StepValid(s, Retract(rq));
    StepValid(Apply(s, Retract(rq)), Release(rq.queue));
    assert Finished(s, rq).pc == s.pc;
  }

  // ----- what others do in the meantime -----

  /** The queue that takes a step; resizing is done for the map as a whole. */
  predicate ByOther(step: Step, q: nat) {
    match step
    case Begin(rq) => rq.queue != q
    case Claim(u, _) => u != q
    case GiveUp(u) => u != q
    case Publish(u) => u != q
    case Retract(rq) => rq.queue != q
    case Release(u) => u != q
    case Resize(_) => true
  }

  /** Those of the given steps that other queues can take, one after the other. */
  function Meanwhile(s: State, q: nat, steps: seq<Step>): State
    decreases |steps|
  {
    if steps == [] then s
    else Meanwhile(if Enabled(s, steps[0]) && ByOther(steps[0], q) then Apply(s, steps[0]) else s, q, steps[1..])
  }

  /** The others keep the tags straight and do not touch this queue's own. */
  lemma {:induction false} MeanwhileValid(s: State, q: nat, steps: seq<Step>)
    requires Valid(s) && q < |s.pc|
    ensures var t := Meanwhile(s, q, steps);
            && Valid(t) && |t.pc| == |s.pc| && |t.bits| == |s.bits| && t.pc[q] == s.pc[q] && t.busy[q] == s.busy[q]
    decreases |steps|
  {
    hide Valid;
    UnfoldShape(s);
    if steps != [] {
      if Enabled(s, steps[0]) && ByOther(steps[0], q) {
        StepValid(s, steps[0]);
        MeanwhileValid(Apply(s, steps[0]), q, steps[1..]);
      } else {
        MeanwhileValid(s, q, steps[1..]);
      }
    }
  }

  class Queue {
    const q: nat
    var shared: State
    var dispatch: seq<Rq>     // this queue's dispatch list, front first

    ghost predicate Ready()
      reads this
    {
      Valid(shared) && q < |shared.pc| && shared.pc[q] == Idle
    }

    constructor (s: State, q: nat)
      requires Valid(s) && q < |s.pc| && s.pc[q] == Idle
      ensures Ready() && shared == s && this.q == q && dispatch == []
    {
      this.q, shared, dispatch := q, s, [];
    }

    /** find_next_zero_bit. */
    method FindNextZeroBit(size: nat, offset: nat) returns (tag: nat)
      requires offset <= size <= |shared.bits|
      ensures offset <= tag <= size && (tag < size ==> !shared.bits[tag])
      ensures forall t :: offset <= t < tag ==> shared.bits[t]
    {
      tag := offset;
      while tag < size && shared.bits[tag]
        invariant offset <= tag <= size
        invariant forall t :: offset <= t < tag ==> shared.bits[t]
      {
        tag := tag + 1;
      }
    }

    /** The retry loop of blk_queue_start_tag: a suggested tag may be gone by the time it is claimed, and
        then the search starts again.  others[i] is what other queues do between the i-th search and
        the claim that follows it; once they are through, a search finds a tag or none is free. */
    method Search(depth: nat, offset: nat, others: seq<seq<Step>>) returns (tag: nat, turns: nat)
      requires Valid(shared) && q < |shared.pc| && shared.pc[q].Searching? && shared.pc[q].depth == depth
      requires offset == Offset(depth, shared.pc[q].rq)
      modifies this`shared
      ensures Valid(shared) && |shared.pc| == |old(shared.pc)| && |shared.bits| == |old(shared.bits)|
      ensures shared.pc[q] == old(shared.pc[q]) && shared.busy[q] == old(shared.busy[q])
      ensures offset <= tag && (tag < depth ==> tag < |shared.bits| && !shared.bits[tag])
      ensures tag >= depth ==> forall t :: offset <= t < depth ==> t < |shared.bits| && shared.bits[t]
      ensures turns <= |others|
      ensures others == [] ==> shared == old(shared) && forall t :: offset <= t < tag ==> t < |shared.bits| && shared.bits[t]
    {
      hide Valid;
      UnfoldShape(shared);
      turns := 0;
      while true
        invariant Valid(shared) && Shaped(shared) && q < |shared.pc| == |old(shared.pc)|
        invariant |shared.bits| == |old(shared.bits)|
        invariant shared.pc[q] == old(shared.pc[q]) && shared.busy[q] == old(shared.busy[q])
        invariant turns <= |others| && (others == [] ==> shared == old(shared))
        decreases |others| - turns
      {
        UnfoldSearch(shared, q);
        tag := FindNextZeroBit(depth, offset);
        if tag >= depth {
          return;
        }
        if turns == |others| {
          return;
        }
        MeanwhileValid(shared, q, others[turns]);
        shared := Meanwhile(shared, q, others[turns]);
        turns := turns + 1;
        UnfoldSearch(shared, q);
        if !shared.bits[tag] {
          return;
        }
      }
    }

    /** blk_queue_start_tag with other queues at work: the request gets a free tag of its range, or
        (`full`) none was free when the last search looked.  Undisturbed, it gets the lowest. */
    method StartTag(rq: Rq, others: seq<seq<Step>>) returns (full: bool)
      requires Ready() && rq.queue == q && rq !in shared.tagOf
      modifies this
      ensures Ready() && |shared.bits| == |old(shared.bits)|
      ensures full ==> rq !in shared.tagOf && dispatch == old(dispatch) && shared.busy[q] == old(shared.busy[q])
      ensures full ==> forall t :: Offset(old(shared.maxDepth), rq) <= t < old(shared.maxDepth) ==>
                         t < |shared.bits| && shared.bits[t]
      ensures !full ==>
                && rq in shared.tagOf && Offset(old(shared.maxDepth), rq) <= shared.tagOf[rq] < old(shared.maxDepth)
                && shared.busy[q] == [rq] + old(shared.busy[q]) && dispatch == Without(old(dispatch), rq)
      ensures others == [] ==>
                && (full <==> old(forall t :: Offset(shared.maxDepth, rq) <= t < shared.maxDepth ==> t < |shared.bits| && shared.bits[t]))
                && (!full ==> forall t :: Offset(old(shared.maxDepth), rq) <= t < shared.tagOf[rq] ==>
                                t < |old(shared.bits)| && old(shared.bits)[t])
    {
      hide Valid;
      var depth := shared.maxDepth;
      UnfoldShape(shared);
      StepValid(shared, Begin(rq));
      shared := Apply(shared, Begin(rq));
      var tag, _ := Search(depth, Offset(depth, rq), others);
      UnfoldSearch(shared, q);
      if tag >= depth {
        StepValid(shared, GiveUp(q));
        shared := Apply(shared, GiveUp(q));
        return true;
      }
      StepValid(shared, Claim(q, tag));
      shared := Apply(shared, Claim(q, tag));
      StepValid(shared, Publish(q));
      shared := Apply(shared, Publish(q));
      dispatch := Without(dispatch, rq);
      full := false;
    }

    /** blk_queue_end_tag. */
    method EndTag(rq: Rq)
      requires Ready() && rq.queue == q && rq in shared.tagOf
      modifies this`shared
      ensures Ready() && Enabled(old(shared), Retract(rq)) && shared == Finished(old(shared), rq)
    {
      UnfoldShape(shared);
      StepValid(shared, Retract(rq));
      shared := Apply(shared, Retract(rq));
      StepValid(shared, Release(q));
      shared := Apply(shared, Release(q));
    }

    /** blk_queue_invalidate_tags: every request of this queue loses its tag and is back at the front
        of the dispatch list, in the order in which the requests got their tags; no other queue's
        tags are touched. */
    method InvalidateTags()
      requires Ready()
      modifies this
      ensures Ready() && shared.busy == old(shared.busy)[q := []] && shared.pc == old(shared.pc)
      ensures dispatch == Reversed(old(shared.busy[q])) + old(dispatch)
      ensures forall r :: r in shared.tagOf <==> r in old(shared.tagOf) && r.queue != q
    {
      hide IndexOk, PcOk, NoLeak;
      while shared.busy[q] != []
        invariant Ready() && shared.pc == old(shared.pc)
        invariant shared.busy == old(shared.busy)[q := shared.busy[q]]
        invariant Reversed(shared.busy[q]) + dispatch == Reversed(old(shared.busy[q])) + old(dispatch)
        invariant forall r: Rq :: r.queue != q ==> (r in shared.tagOf <==> r in old(shared.tagOf))
        decreases |shared.busy[q]|
      {
        var rq := shared.busy[q][0];
        assert rq in shared.busy[q];
        ghost var rest := shared.busy[q][1..];
        UnfoldShape(shared);
        FinishedBusy(shared, rq);
        EndTag(rq);
        assert Reversed(rest) + [rq] + dispatch == Reversed(rest) + ([rq] + dispatch);
        dispatch := [rq] + dispatch;
      }
    }
  }

  lemma UnfoldShape(s: State)
    requires Valid(s)
    ensures Shaped(s) && forall r :: r in s.tagOf ==> s.tagOf[r] < |s.index|
  {
  }

  lemma UnfoldSearch(s: State, q: nat)
    requires Valid(s) && q < |s.pc| && s.pc[q].Searching?
    ensures Shaped(s) && s.pc[q].depth <= |s.bits| && s.pc[q].rq.queue == q && s.pc[q].rq !in s.tagOf
  {
  }
}
