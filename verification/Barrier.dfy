/** The dispatch list and the ordered-flush protocol of the block layer
    (kernel/block/blk-barrier.c and the insertion, dispatch, requeue and completion
    paths of kernel/block/elevator.c), as a step system.

    A request holds the chain of bios it carries.  Bios are numbered in the order in
    which they were submitted, so "queued before" is "smaller number".  The fields
    `epoch`, `subs`, `barriers`, `left`, `ended`, `outcome` and `errs` are history: no
    operation reads them to decide what to do.
 */
module Barrier {
  import opened ListOps

  // QUEUE_ORDSEQ_*: the stages of an ordered sequence, in order (the bit positions).
  const STARTED: nat := 1
  const DRAIN: nat := 2
  const PREFLUSH: nat := 3
  const BAR: nat := 4
  const POSTFLUSH: nat := 5
  const DONE: nat := 6

  /** q->ordseq: the stages completed so far, one bit each. */
  datatype Stages = Stages(started: bool, drain: bool, preflush: bool, bar: bool, postflush: bool)

  const NO_STAGE := Stages(false, false, false, false, false)

  function Or(a: Stages, b: Stages): Stages {
    Stages(a.started || b.started, a.drain || b.drain, a.preflush || b.preflush, a.bar || b.bar, a.postflush || b.postflush)
  }

  predicate Overlap(a: Stages, b: Stages) {
    (a.started && b.started) || (a.drain && b.drain) || (a.preflush && b.preflush) || (a.bar && b.bar) ||
    (a.postflush && b.postflush)
  }

  const EOPNOTSUPP: int := 95

  /** QUEUE_ORDERED_*: how the queue orders and which commands a sequence issues. */
  datatype Mode = Mode(byDrain: bool, byTag: bool, preflush: bool, bar: bool, postflush: bool, fua: bool)

  const NONE := Mode(false, false, false, false, false, false)

  /** The values blk_queue_ordered accepts. */
  predicate Supported(m: Mode) {
    m == NONE ||
    (m.byDrain != m.byTag && m.bar &&
     ((!m.preflush && !m.postflush && !m.fua) ||
      (m.preflush && m.postflush && !m.fua) ||
      (m.preflush && !m.postflush && m.fua)))
  }

  predicate DrainMode(m: Mode) {
    Supported(m) && m.byDrain
  }

  datatype Request =
    | Fs(bios: seq<nat>, barrier: bool, empty: bool, color: bool, write: bool, sector: nat, epoch: nat)
    | Special(hard: bool)   // any request that is not a file system request
    | PreFlush              // q->pre_flush_rq
    | BarRq                 // q->bar_rq, the proxy of the barrier being processed
    | PostFlush             // q->post_flush_rq

  /** A request with its REQ_STARTED and REQ_SOFTBARRIER flags. */
  datatype Entry = Entry(rq: Request, started: bool, soft: bool)

  datatype Queue = Queue(
    dispatch: seq<Entry>,      // q->queue_head
    elevator: seq<Entry>,      // what the I/O scheduler holds
    driver: seq<Entry>,        // dequeued and not yet completed or requeued
    color: bool,               // q->ordcolor
    ordseq: Stages,
    ordered: Mode,
    nextOrdered: Mode,
    orderr: int,
    orig: Option<Request>,     // q->orig_bar_rq
    origStarted: bool,         // and its REQ_STARTED flag
    inFlight: int,
    bug: bool,                 // a BUG_ON of blk_ordered_complete_seq fired
    warned: bool,              // the WARN_ON of blk_do_ordered fired
    subs: seq<nat>,            // epoch of each submitted bio
    barriers: seq<nat>,        // bio of each barrier queued so far
    left: nat,                 // how many barriers have left the dispatch list
    ended: seq<nat>,           // bios ended so far, oldest first
    outcome: map<nat, int>,    // error each barrier was ended with
    errs: seq<int>)            // errors reported so far in the current sequence

  function Init(m: Mode): Queue {
    Queue([], [], [], false, NO_STAGE, m, m, 0, None, false, 0, false, false, [], [], 0, [], map[], [])
  }

  // ----- blk-barrier.c -----

  /** One plus the position of the first zero bit; 0 when no sequence is in progress. */
  function CurSeq(ordseq: Stages): nat {
    if ordseq == NO_STAGE then 0
    else if !ordseq.started then STARTED
    else if !ordseq.drain then DRAIN
    else if !ordseq.preflush then PREFLUSH
    else if !ordseq.bar then BAR
    else if !ordseq.postflush then POSTFLUSH
    else DONE
  }

  function ReqSeq(orig: Option<Request>, rq: Request): nat {
    match rq
    case PreFlush => PREFLUSH
    case BarRq => BAR
    case PostFlush => POSTFLUSH
    case Special(_) => DRAIN
    case Fs(_, _, _, color, _, _, _) =>
      if orig.Some? && orig.value.Fs? && color == orig.value.color then DRAIN else DONE
  }

  function OrigBios(s: Queue): seq<nat> {
    if s.orig.Some? && s.orig.value.Fs? then s.orig.value.bios else []
  }

  function EndBarrier(s: Queue, bios: seq<nat>, error: int): Queue {
    s.(ended := s.ended + bios,
       outcome := if bios == [] then s.outcome else s.outcome[bios[0] := error])
  }

  function CompleteSeq(s: Queue, stages: Stages, error: int): Queue {
    var orderr := if error != 0 && s.orderr == 0 then error else s.orderr;
    var s1 := s.(orderr := orderr, ordseq := Or(s.ordseq, stages), errs := s.errs + [error],
                 bug := s.bug || Overlap(s.ordseq, stages));
    if CurSeq(s1.ordseq) != DONE then s1
    else EndBarrier(s1.(ordseq := NO_STAGE, inFlight := s1.inFlight - if s.origStarted then 1 else 0), OrigBios(s), orderr)
  }

  /** An empty barrier issues no BAR, hence no POSTFLUSH; with no command left at all,
      ordering by tag is replaced by draining. */
  function EffectiveMode(m: Mode, empty: bool): Mode {
    if !empty then m
    else
      var m1 := m.(bar := false, postflush := false);
      if m1.byTag && !m1.preflush then m1.(byTag := false, byDrain := true) else m1
  }

  function Proxies(m: Mode): seq<Entry> {
    (if m.preflush then [Entry(PreFlush, false, true)] else []) +
    (if m.bar then [Entry(BarRq, false, true)] else []) +
    (if m.postflush then [Entry(PostFlush, false, true)] else [])
  }

  function Skipped(m: Mode, drain: bool): Stages {
    Stages(false, !drain, !m.preflush, !m.bar, !m.postflush)
  }

  /** What blk_do_ordered tells the caller about the head of the dispatch list. */
  datatype Outcome = Issue(rq: Request) | Hold | Gone

  function Account(e: Entry): int {
    if e.started && (e.rq.Fs? || e.rq.BarRq?) then 1 else 0
  }

  function StartState(s: Queue): Queue
    requires s.dispatch != [] && s.dispatch[0].rq.Fs?
  {
    var m := EffectiveMode(s.nextOrdered, s.dispatch[0].rq.empty);
    s.(orderr := 0, ordered := m, ordseq := s.ordseq.(started := true),
       inFlight := s.inFlight + Account(s.dispatch[0]),
       orig := Some(s.dispatch[0].rq), origStarted := s.dispatch[0].started,
       dispatch := Proxies(m) + s.dispatch[1..],
       left := s.left + 1, errs := [])
  }

  function StartOrdered(s: Queue): (Queue, Outcome)
    requires s.dispatch != [] && s.dispatch[0].rq.Fs?
  {
    var s1 := StartState(s);
    var drain := s1.ordered.byDrain && s1.inFlight != 0;
    var s2 := CompleteSeq(s1, Skipped(s1.ordered, drain), 0);
    var proxies := Proxies(s1.ordered);
    if s2.ordseq == NO_STAGE then (s2, Gone)
    else if drain || proxies == [] then (s2, Hold)
    else (s2, Issue(proxies[0].rq))
  }

  predicate IsBarrier(rq: Request) {
    || (rq.Fs? && rq.barrier)
    || rq.BarRq?
  }

  function DoOrdered(s: Queue): (Queue, Outcome)
    requires s.dispatch != []
  {
    var rq := s.dispatch[0].rq;
    if s.ordseq == NO_STAGE then
      if !IsBarrier(rq) || !rq.Fs? then (s, Issue(rq))
      else if s.nextOrdered != NONE then StartOrdered(s)
      else
        var s1 := s.(dispatch := s.dispatch[1..], inFlight := s.inFlight + Account(s.dispatch[0]),
                     left := s.left + 1);
        (Completed(EndBarrier(s1, rq.bios, -EOPNOTSUPP), s.dispatch[0]), Gone)
    else if rq.Special? then (s, Issue(rq))
    else if s.ordered.byTag then
      (s, if IsBarrier(rq) && !rq.BarRq? then Hold else Issue(rq))
    else
      var s1 := s.(warned := s.warned || ReqSeq(s.orig, rq) < CurSeq(s.ordseq));
      (s1, if ReqSeq(s.orig, rq) > CurSeq(s.ordseq) then Hold else Issue(rq))
  }

  // ----- elevator.c -----

  /** elv_completed_request; `e` tells whether the request counts as in flight. */
  function Completed(s: Queue, e: Entry): Queue {
    var s1 := s.(inFlight := s.inFlight - Account(e));
    if && s1.ordseq != NO_STAGE && s1.inFlight == 0 && CurSeq(s1.ordseq) == DRAIN
       && (s1.dispatch == [] || ReqSeq(s1.orig, s1.dispatch[0].rq) > DRAIN)
    then CompleteSeq(s1, NO_STAGE.(drain := true), 0)
    else s1
  }

  /** The stage a proxy stands for. */
  function StageOf(rq: Request): Stages {
    NO_STAGE.(preflush := rq.PreFlush?, bar := rq.BarRq?, postflush := rq.PostFlush?)
  }

  /** The driver ends a request it held. */
  function End(s: Queue, e: Entry, error: int): Queue {
    match e.rq
    case Fs(bios, _, _, _, _, _, _) => Completed(s.(ended := s.ended + bios), e)
    case Special(_) => Completed(s, e)
    case _ => CompleteSeq(Completed(s, e), StageOf(e.rq), error)
  }

  /** Where elv_insert puts a requeued request while a sequence is in progress. */
  function RequeuePos(s: Queue, rq: Request, from: nat): nat
    requires from <= |s.dispatch|
    decreases |s.dispatch| - from
  {
    if from == |s.dispatch| || ReqSeq(s.orig, rq) <= ReqSeq(s.orig, s.dispatch[from].rq) then from
    else RequeuePos(s, rq, from + 1)
  }

  lemma RequeuePosBound(s: Queue, rq: Request, from: nat)
    requires from <= |s.dispatch|
    ensures from <= RequeuePos(s, rq, from) <= |s.dispatch|
    decreases |s.dispatch| - from
  {
  }

  /** elv_requeue_request. */
  function RequeueRequest(s: Queue, e: Entry): Queue {
    var s1 := s.(inFlight := s.inFlight - Account(e));
    var p := if s1.ordseq == NO_STAGE then 0 else RequeuePos(s1, e.rq, 0);
    RequeuePosBound(s1, e.rq, 0);
    s1.(dispatch := InsertAt(s1.dispatch, p, Entry(e.rq, false, true)))
  }

  /** The walk of elv_dispatch_sort stops at this entry whatever the sectors are. */
  predicate StopsSort(e: Entry, rq: Request)
    requires rq.Fs?
  {
    !e.rq.Fs? || e.rq.write != rq.write || e.soft || e.rq.barrier || e.started
  }

  /** elv_dispatch_sort walks back from the tail; `n` entries are still ahead of it. */
  function SortPos(d: seq<Entry>, rq: Request, boundary: nat, n: nat): nat
    requires rq.Fs? && n <= |d|
    decreases n
  {
    if n == 0 || StopsSort(d[n - 1], rq) then n
    else if rq.sector >= boundary && d[n - 1].rq.sector < boundary then SortPos(d, rq, boundary, n - 1)
    else if rq.sector < boundary && d[n - 1].rq.sector >= boundary then n
    else if rq.sector >= d[n - 1].rq.sector then n
    else SortPos(d, rq, boundary, n - 1)
  }

  lemma SortPosBound(d: seq<Entry>, rq: Request, boundary: nat, n: nat)
    requires rq.Fs? && n <= |d|
    ensures SortPos(d, rq, boundary, n) <= n
    decreases n
  {
  }

  // ----- the step system -----

  datatype Step =
    | AddSorted(write: bool, sector: nat)               // an ordinary request, ELEVATOR_INSERT_SORT
    | AddBack(write: bool, sector: nat)                 // an ordinary request, ELEVATOR_INSERT_BACK
    | AddBarrier(empty: bool, write: bool, sector: nat) // a REQ_HARDBARRIER file system request
    | AddSpecial(hard: bool, front: bool)
    | MergeBio(k: nat, front: bool, sector: nat)        // a new bio joins elevator[k]
    | MergeRequests(k: nat, j: nat)                     // elevator[j] is absorbed by elevator[k]
    | Dispatch(k: nat, sorted: bool, boundary: nat)     // the scheduler releases elevator[k]
    | Next                                              // one turn of elv_next_request
    | Dequeue(k: nat)                                   // the driver takes a request it was shown
    | Complete(k: nat, error: int)                      // the driver ends driver[k]
    | Requeue(k: nat)                                   // the driver gives driver[k] back

  /** `allowHard` says whether anyone queues a non-file-system request that carries
      REQ_HARDBARRIER.  Back insertion first drains the elevator; no file system
      request is inserted at the front. */
  predicate Enabled(s: Queue, step: Step, allowHard: bool) {
    match step
    case AddSorted(_, _) => true
    case AddBack(_, _) => s.elevator == []
    case AddBarrier(_, _, _) => s.elevator == []
    case AddSpecial(hard, front) => (hard ==> allowHard) && (front || s.elevator == [])
    case MergeBio(k, _, _) => k < |s.elevator| && s.elevator[k].rq.Fs?
    case MergeRequests(k, j) => k < |s.elevator| && j < |s.elevator| && k != j && s.elevator[k].rq.Fs? && s.elevator[j].rq.Fs?
    case Dispatch(k, _, _) => k < |s.elevator| && s.elevator[k].rq.Fs?
    case Next => s.dispatch != []
    case Dequeue(k) => k < |s.dispatch| && s.dispatch[k].started
    case Complete(k, _) => k < |s.driver|
    case Requeue(k) => k < |s.driver|
  }

  function NewFs(s: Queue, barrier: bool, empty: bool, write: bool, sector: nat): Request {
    Fs([|s.subs|], barrier, empty, s.color, write, sector, |s.barriers|)
  }

  function Merged(rq: Request, bio: nat, front: bool, sector: nat): Request
    requires rq.Fs?
  {
    if front then rq.(bios := [bio] + rq.bios, sector := sector) else rq.(bios := rq.bios + [bio])
  }

  /** A new bio, with the epoch it belongs to. */
  function Submit(s: Queue): Queue {
    s.(subs := s.subs + [|s.barriers|])
  }

  /** The scheduler hands elevator[k] over with elv_dispatch_sort or elv_dispatch_add_tail. */
  function DispatchFrom(s: Queue, k: nat, sorted: bool, boundary: nat): Queue
    requires k < |s.elevator| && s.elevator[k].rq.Fs?
  {
    var e := s.elevator[k];
    SortPosBound(s.dispatch, e.rq, boundary, |s.dispatch|);
    var p := if sorted then SortPos(s.dispatch, e.rq, boundary, |s.dispatch|) else |s.dispatch|;
    s.(elevator := RemoveAt(s.elevator, k), dispatch := InsertAt(s.dispatch, p, e))
  }

  function MergeInto(s: Queue, k: nat, j: nat): Queue
    requires k < |s.elevator| && j < |s.elevator| && s.elevator[k].rq.Fs? && s.elevator[j].rq.Fs?
  {
    var e := s.elevator[k];
    var e1 := e.(rq := e.rq.(bios := e.rq.bios + s.elevator[j].rq.bios));
    s.(elevator := RemoveAt(s.elevator[k := e1], j))
  }

  function MarkStarted(s: Queue): Queue {
    if s.dispatch == [] then s
    else s.(dispatch := s.dispatch[0 := s.dispatch[0].(started := true)])
  }

  function NextRequest(s: Queue): Queue
    requires s.dispatch != []
  {
    if DoOrdered(s).1.Issue? then MarkStarted(DoOrdered(s).0) else DoOrdered(s).0
  }

  function DequeueAt(s: Queue, k: nat): Queue
    requires k < |s.dispatch|
  {
    s.(dispatch := RemoveAt(s.dispatch, k), driver := s.driver + [s.dispatch[k]],
       inFlight := s.inFlight + Account(s.dispatch[k]))
  }

  function EndAt(s: Queue, k: nat, error: int): Queue
    requires k < |s.driver|
  {
    End(s.(driver := RemoveAt(s.driver, k)), s.driver[k], error)
  }

  function RequeueAt(s: Queue, k: nat): Queue
    requires k < |s.driver|
  {
    RequeueRequest(s.(driver := RemoveAt(s.driver, k)), s.driver[k])
  }

  function InsertDispatch(s: Queue, p: nat, e: Entry): Queue
    requires p <= |s.dispatch|
  {
    s.(dispatch := InsertAt(s.dispatch, p, e))
  }

  function Apply(s: Queue, step: Step): Queue
    requires Enabled(s, step, true)
  {
    match step
    case AddSorted(write, sector) =>
      Submit(s).(elevator := s.elevator + [Entry(NewFs(s, false, false, write, sector), false, false)])
    case AddBack(write, sector) =>
      Submit(InsertDispatch(s, |s.dispatch|, Entry(NewFs(s, false, false, write, sector), false, true)))
    case AddBarrier(empty, write, sector) =>
      Submit(InsertDispatch(s, |s.dispatch|, Entry(NewFs(s, true, empty, write, sector), false, true)))
      .(color := !s.color, barriers := s.barriers + [|s.subs|])
    case AddSpecial(hard, front) =>
      InsertDispatch(s, if front then 0 else |s.dispatch|, Entry(Special(hard), false, true))
      .(color := if hard then !s.color else s.color)
    case MergeBio(k, front, sector) =>
      var e := s.elevator[k];
      Submit(s).(elevator := s.elevator[k := e.(rq := Merged(e.rq, |s.subs|, front, sector))])
    case MergeRequests(k, j) => MergeInto(s, k, j)
    case Dispatch(k, sorted, boundary) => DispatchFrom(s, k, sorted, boundary)
    case Next => NextRequest(s)
    case Dequeue(k) => DequeueAt(s, k)
    case Complete(k, error) => EndAt(s, k, error)
    case Requeue(k) => RequeueAt(s, k)
  }

  /** The request this step shows to the driver, if any. */
  function Issued(s: Queue, step: Step): Option<Request>
    requires Enabled(s, step, true)
  {
    if step.Next? && DoOrdered(s).1.Issue? then Some(DoOrdered(s).1.rq) else None
  }

  predicate Runs(s: Queue, steps: seq<Step>, allowHard: bool)
    decreases |steps|
  {
    steps == [] ||
    (Enabled(s, steps[0], allowHard) && Enabled(s, steps[0], true) &&
     Runs(Apply(s, steps[0]), steps[1..], allowHard))
  }

  function Exec(s: Queue, steps: seq<Step>): Queue
    requires Runs(s, steps, true)
    decreases |steps|
  {
    if steps == [] then s else Exec(Apply(s, steps[0]), steps[1..])
  }
}
