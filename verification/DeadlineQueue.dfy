/** struct deadline_data as an object, its operations proved to compute the steps of module
    Deadline, and forced dispatch proved to empty it. */
module DeadlineQueue {
  import opened ListOps
  import D = Deadline

  lemma RemoveContents<T>(s: seq<T>, k: nat)
    requires k < |s|
    ensures multiset(s) == multiset(RemoveAt(s, k)) + multiset{s[k]}
  {
    assert s == s[..k] + [s[k]] + s[k + 1..];
  }

  function Queued(s: D.State): multiset<D.Rq> {
    multiset(s.read.sort) + multiset(s.write.sort)
  }

  /** A dispatch moves one request from the lists to the dispatch queue. */
  lemma {:induction false} DispatchConserves(s: D.State, t: D.Tunables, now: nat)
    requires D.Valid(s)
    ensures var s' := D.Dispatch(s, t, now);
            && Queued(s') + multiset(s'.dispatched) == Queued(s) + multiset(s.dispatched)
            && |s'.read.sort| + |s'.write.sort| ==
               |s.read.sort| + |s.write.sort| - (if D.Pick(s, t, now).Some? then 1 else 0)
  {
    hide D.ListsOk, D.Pick;
    D.PickOk(s, t, now);
    if D.Pick(s, t, now).Some? {
      var c := D.Pick(s, t, now).value;
      var sort := D.Of(s, c.write).sort;
      RemoveContents(sort, D.SortIndex(sort, c.rq));
    }
  }

  lemma {:induction false} IndexBeforeAppend(fifo: seq<D.Timed>, x: D.Timed, r: D.Rq)
    requires D.OnFifo(fifo, r)
    ensures D.OnFifo(fifo + [x], r) && D.FifoIndex(fifo + [x], r) == D.FifoIndex(fifo, r)
  {
    var i :| 0 <= i < |fifo| && fifo[i].rq == r;
    assert (fifo + [x])[i].rq == r;
    if fifo[0].rq != r {
      assert fifo[1..][i - 1].rq == r;
      assert (fifo + [x])[1..] == fifo[1..] + [x];
      IndexBeforeAppend(fifo[1..], x, r);
    }
  }

  function Appended(s: D.State, write: bool, x: D.Timed): D.State {
    D.With(s, write, D.Of(s, write).(fifo := D.Of(s, write).fifo + [x]))
  }

  /** Joining the fifo before or after going into the sorted list comes to the same. */
  lemma AppendCommutes(s: D.State, r: D.Rq, x: D.Timed)
    requires var d := D.Of(s, r.write); D.Alias(d.sort, r.sector) ==> D.OnFifo(d.fifo, d.sort[D.Place(d.sort, r.sector)])
    ensures var d := D.Of(s, r.write); D.Alias(d.sort, r.sector) ==> D.OnFifo(d.fifo + [x], d.sort[D.Place(d.sort, r.sector)])
    ensures D.PutSorted(Appended(s, r.write, x), r) == Appended(D.PutSorted(s, r), r.write, x)
  {
    hide D.Place, D.FifoIndex;
    var d := D.Of(s, r.write);
    if D.Alias(d.sort, r.sector) {
      var a := d.sort[D.Place(d.sort, r.sector)];
      IndexBeforeAppend(d.fifo, x, a);
      var k := D.FifoIndex(d.fifo, a);
      assert RemoveAt(d.fifo + [x], k) == RemoveAt(d.fifo, k) + [x];
    }
  }

  class DeadlineData {
    const tunables: D.Tunables
    var sortList: seq<seq<D.Rq>>     // sort_list[READ], sort_list[WRITE]
    var fifoList: seq<seq<D.Timed>>
    var nextRq: seq<Option<D.Rq>>
    var batching: nat
    var starved: nat
    var lastSector: nat
    var dispatched: seq<D.Rq>

    predicate Shaped()
      reads this
    {
      |sortList| == 2 && |fifoList| == 2 && |nextRq| == 2
    }

    function View(): D.State
      reads this
      requires Shaped()
    {
      D.State(D.Dir(sortList[0], fifoList[0], nextRq[0]), D.Dir(sortList[1], fifoList[1], nextRq[1]),
              batching, starved, lastSector, dispatched)
    }

    ghost predicate Valid()
      reads this
    {
      Shaped() && D.Valid(View())
    }

    constructor (t: D.Tunables)
      ensures Valid() && View() == D.State(D.Dir([], [], None), D.Dir([], [], None), 0, 0, 0, []) && tunables == t
    {
      tunables := t;
      sortList, fifoList, nextRq := [[], []], [[], []], [None, None];
      batching, starved, lastSector, dispatched := 0, 0, 0, [];
    }

    static function Index(write: bool): nat {
      if write then 1 else 0
    }

    /** deadline_move_request for the k-th request of a direction. */
    method MoveRequest(write: bool, k: nat)
      requires Shaped() && k < |sortList[Index(write)]|
      requires D.OnFifo(fifoList[Index(write)], sortList[Index(write)][k])
      modifies this
      ensures Shaped() && View() == D.MoveRequest(old(View()), write, k)
    {
      var d := Index(write);
      var sort, fifo := sortList[d], fifoList[d];
      var rq, f := sort[k], D.FifoIndex(fifo, sort[k]);
      nextRq := [None, None][d := if k + 1 < |sort| then Some(sort[k + 1]) else None];
      lastSector := rq.sector + rq.len;
      fifoList := fifoList[d := RemoveAt(fifo, f)];
      sortList := sortList[d := RemoveAt(sort, k)];
      dispatched := dispatched + [rq];
    }

    /** deadline_add_rq_rb: a request at the same sector is moved to the dispatch list first. */
    method AddRqRb(r: D.Rq)
      requires Shaped() && D.Sorted(sortList[Index(r.write)])
      requires var d := D.Of(View(), r.write); D.Alias(d.sort, r.sector) ==> D.OnFifo(d.fifo, d.sort[D.Place(d.sort, r.sector)])
      modifies this
      ensures Shaped() && View() == D.PutSorted(old(View()), r)
    {
      hide D.TakeOff, D.Place, D.Sorted;
      var d := Index(r.write);
      ghost var s := View();
      while D.Alias(sortList[d], r.sector)
        invariant Shaped()
        invariant D.Alias(sortList[d], r.sector) ==> View() == s
        invariant !D.Alias(sortList[d], r.sector) ==>
                    View() == if D.Alias(D.Of(s, r.write).sort, r.sector)
                              then D.MoveRequest(s, r.write, D.Place(D.Of(s, r.write).sort, r.sector)) else s
        decreases D.Alias(sortList[d], r.sector)
      {
        D.NoAliasLeft(sortList[d], r.sector);
        TakeOffSort(D.Of(s, r.write), D.Place(sortList[d], r.sector));
        MoveRequest(r.write, D.Place(sortList[d], r.sector));
      }
      sortList := sortList[d := InsertAt(sortList[d], D.Place(sortList[d], r.sector), r)];
    }

    /** deadline_add_request. */
    method AddRequest(now: nat, r: D.Rq)
      requires Valid() && D.InTime(View(), tunables, now) && D.Fresh(View(), r)
      modifies this
      ensures Valid() && D.EventOk(old(View()), D.Add(r))
      ensures View() == D.Step(old(View()), tunables, now, D.Add(r))
    {
      hide D.PutSorted, D.Place, D.Sorted;
      var d, x := Index(r.write), D.Timed(r, D.Expiry(tunables, r.write, now));
      ghost var s := View();
      D.AddOk(s, tunables, now, r);
      AliasOnFifo(D.Of(s, r.write), r.write, r.sector);
      AppendCommutes(s, r, x);
      AddRqRb(r);
      fifoList := fifoList[d := fifoList[d] + [x]];
    }

    /** deadline_merged_request for a front merge that made the k-th request start where r does. */
    method FrontMerged(write: bool, k: nat, r: D.Rq)
      requires Valid() && k < |sortList[Index(write)]| && r.id == sortList[Index(write)][k].id && r.write == write
      modifies this
      ensures Valid()
      ensures var o := D.Of(old(View()), write);
              && D.OnFifo(o.fifo, o.sort[k])
              && var d := D.Unsorted(o, k, r);
              D.Alias(d.sort, r.sector) ==> D.OnFifo(d.fifo, d.sort[D.Place(d.sort, r.sector)])
      ensures View() == D.FrontMerged(old(View()), write, k, r)
    {
      hide D.PutSorted, D.Place, D.Pending;
      var d := Index(write);
      ghost var s := View();
      D.FrontMergeOk(s, write, k, r);
      UnsortedSorted(D.Of(s, write), write, k, r);
      var f := D.FifoIndex(fifoList[d], sortList[d][k]);
      if nextRq[d] == Some(sortList[d][k]) {
        nextRq := nextRq[d := Some(r)];
      }
      fifoList := fifoList[d := fifoList[d][f := fifoList[d][f].(rq := r)]];
      sortList := sortList[d := RemoveAt(sortList[d], k)];
      AddRqRb(r);
    }

    /** deadline_merged_requests: the k-th request of a direction has swallowed the j-th. */
    method MergedRequests(write: bool, k: nat, j: nat)
      requires Valid() && k < |sortList[Index(write)]| && j < |sortList[Index(write)]| && k != j
      modifies this
      ensures Valid()
      ensures var d := D.Of(old(View()), write);
              D.OnFifo(d.fifo, d.sort[k]) && D.OnFifo(d.fifo, d.sort[j]) &&
              View() == D.With(old(View()), write, D.MergedRequests(d, k, j))
    {
      hide D.ListsOk;
      var d := Index(write);
      D.MergedRequestsOk(D.Of(View(), write), write, k, j);
      var sort, fifo := sortList[d], fifoList[d];
      var fk, fj := D.FifoIndex(fifo, sort[k]), D.FifoIndex(fifo, sort[j]);
      if fifo[fj].expire < fifo[fk].expire {
        fifo := RemoveAt(fifo[fj := D.Timed(sort[k], fifo[fj].expire)], fk);
      } else {
        fifo := RemoveAt(fifo, fj);
      }
      if nextRq[d] == Some(sort[j]) {
        nextRq := nextRq[d := if j + 1 < |sort| then Some(sort[j + 1]) else None];
      }
      fifoList := fifoList[d := fifo];
      sortList := sortList[d := RemoveAt(sort, j)];
    }

    /** The k-th request of a direction grew at its end; it keeps its place everywhere. */
    method BackMerged(write: bool, k: nat, len: nat)
      requires Valid() && k < |sortList[Index(write)]|
      modifies this
      ensures Valid()
      ensures var d := D.Of(old(View()), write);
              D.OnFifo(d.fifo, d.sort[k]) && View() == D.BackMerged(old(View()), write, k, len)
    {
      hide D.ListsOk;
      var d := Index(write);
      D.BackMergeOk(View(), write, k, len);
      var r := sortList[d][k].(len := len);
      var f := D.FifoIndex(fifoList[d], sortList[d][k]);
      if nextRq[d] == Some(sortList[d][k]) {
        nextRq := nextRq[d := Some(r)];
      }
      fifoList := fifoList[d := fifoList[d][f := fifoList[d][f].(rq := r)]];
      sortList := sortList[d := sortList[d][k := r]];
    }

    /** attempt_merge: the k-th request of a direction swallows the j-th. */
    method AttemptMerge(write: bool, k: nat, j: nat)
      requires Valid() && k < |sortList[Index(write)]| && j < |sortList[Index(write)]| && k != j
      modifies this
      ensures Valid() && D.Swallows(old(View()), write, k, j) && View() == D.Swallowed(old(View()), write, k, j)
    {
      hide D.ListsOk, D.FifoMerged, D.FifoIndex, D.OnFifo;
      D.SwallowedOk(View(), write, k, j);
      BackMerged(write, k, sortList[Index(write)][k].len + sortList[Index(write)][j].len);
      MergedRequests(write, k, j);
    }

    /** deadline_check_fifo. */
    method CheckFifo(write: bool, now: nat) returns (expired: bool)
      requires Shaped() && fifoList[Index(write)] != []
      ensures expired <==> now > D.Of(View(), write).fifo[0].expire
    {
      expired := now > fifoList[Index(write)][0].expire;
    }

    /** Start a new batch: choose the direction, then the request. */
    method StartBatch(now: nat) returns (found: bool, write: bool, rq: D.Rq)
      requires Shaped()
      requires !((nextRq[0].Some? || nextRq[1].Some?) && batching < tunables.fifoBatch)
      modifies this`batching, this`starved
      ensures Shaped() && D.Pick(old(View()), tunables, now) ==
              if found then Some(D.Choice(write, rq, batching, starved)) else None
      ensures !found ==> batching == old(batching) && starved == old(starved)
    {
      rq := D.Rq(0, false, 0, 0);
      write := fifoList[0] == [];
      if fifoList[0] == [] && fifoList[1] == [] {
        return false, write, rq;
      }
      if fifoList[0] != [] && fifoList[1] != [] {
        write := starved >= tunables.writesStarved;
        starved := starved + 1;
      }
      if write {
        starved := 0;
      }
      var expired := CheckFifo(write, now);
      rq := if expired || nextRq[Index(write)].None? then fifoList[Index(write)][0].rq else nextRq[Index(write)].value;
      batching := 1;
      found := true;
    }

    /** Continue the batch in progress, or start a new one. */
    method Select(now: nat) returns (found: bool, write: bool, rq: D.Rq)
      requires Shaped()
      modifies this`batching, this`starved
      ensures Shaped() && D.Pick(old(View()), tunables, now) ==
              if found then Some(D.Choice(write, rq, batching, starved)) else None
      ensures !found ==> batching == old(batching) && starved == old(starved)
    {
      if (nextRq[0].Some? || nextRq[1].Some?) && batching < tunables.fifoBatch {
        write := nextRq[1].Some?;
        rq := nextRq[Index(write)].value;
        batching := batching + 1;
        found := true;
      } else {
        found, write, rq := StartBatch(now);
      }
    }

    /** deadline_dispatch_requests; false when nothing is queued. */
    method DispatchRequests(now: nat) returns (found: bool)
      requires Valid()
      modifies this
      ensures Valid() && View() == D.Dispatch(old(View()), tunables, now)
      ensures found <==> D.Pick(old(View()), tunables, now).Some?
      ensures found <==> old(sortList[0] != [] || sortList[1] != [])
    {
      hide D.ListsOk, D.Pick, D.TakeOff;
      D.PickOk(View(), tunables, now);
      D.DispatchOk(View(), tunables, now);
      var write, rq;
      found, write, rq := Select(now);
      if found {
        MoveRequest(write, D.SortIndex(sortList[Index(write)], rq));
      }
    }

    /** elv_drain_elevator over this scheduler: it stops, everything queued has been
        dispatched, and each request once. */
    method Drain(now: nat)
      requires Valid()
      modifies this
      ensures Valid() && sortList[0] == [] && sortList[1] == [] && fifoList[0] == [] && fifoList[1] == []
      ensures multiset(dispatched) == old(Queued(View()) + multiset(dispatched))
    {
      var found := true;
      while found
        invariant Valid() && (!found ==> sortList[0] == [] && sortList[1] == [])
        invariant Queued(View()) + multiset(dispatched) == old(Queued(View()) + multiset(dispatched))
        decreases |sortList[0]| + |sortList[1]|, found
      {
        DispatchConserves(View(), tunables, now);
        found := DispatchRequests(now);
      }
    }
  }

  lemma TakeOffSort(d: D.Dir, k: nat)
    requires k < |d.sort| && D.OnFifo(d.fifo, d.sort[k])
    ensures D.TakeOff(d, k).sort == RemoveAt(d.sort, k)
  {
  }

  lemma AliasOnFifo(d: D.Dir, write: bool, sector: nat)
    requires D.DirOk(d, write)
    ensures D.Sorted(d.sort)
    ensures D.Alias(d.sort, sector) ==> D.OnFifo(d.fifo, d.sort[D.Place(d.sort, sector)])
  {
  }

  lemma UnsortedSorted(d: D.Dir, write: bool, k: nat, r: D.Rq)
    requires D.DirOk(d, write) && k < |d.sort| && r.id == d.sort[k].id && r.write == write
    ensures D.OnFifo(d.fifo, d.sort[k]) && D.Sorted(D.Unsorted(d, k, r).sort)
  {
    D.UnsortedPending(d, write, k, r);
  }
}
