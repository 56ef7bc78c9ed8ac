/** The next-request cache of the anticipatory scheduler (kernel/block/as-iosched.c), for one
    data direction.  The rb-tree of pending requests is a sequence sorted by sector. */
module Anticipatory {
  import opened ListOps

  /** A pending request: sectors [sector, sector + len). */
  datatype Rq = Rq(sector: nat, len: nat)

  const MAXBACK: nat := 1024 * 1024
  const BACK_PENALTY: nat := 2

  function End(r: Rq): nat {
    r.sector + r.len
  }

  /** Too far behind the head: only reached by wrapping around. */
  predicate Wraps(last: nat, s: nat) {
    s < last && s + MAXBACK < last
  }

  function Distance(last: nat, s: nat): nat {
    if s >= last then s - last else (last - s) * BACK_PENALTY
  }

  /** as_choose_req for two requests. */
  function Choose(last: nat, r1: Rq, r2: Rq): Rq {
    var s1, s2 := r1.sector, r2.sector;
    if !Wraps(last, s1) && Wraps(last, s2) then r1
    else if !Wraps(last, s2) && Wraps(last, s1) then r2
    else if Wraps(last, s1) then if s1 <= s2 then r1 else r2
    else if Distance(last, s1) < Distance(last, s2) then r1
    else if Distance(last, s2) < Distance(last, s1) then r2
    else if s1 >= s2 then r1 else r2
  }

  /** as_choose_req, where either may be missing. */
  function ChooseReq(last: nat, r1: Option<Rq>, r2: Option<Rq>): Option<Rq> {
    if r1.None? || r1 == r2 then r2
    else if r2.None? then r1
    else Some(Choose(last, r1.value, r2.value))
  }

  /** as_find_next_rq: only the neighbours of list[k] are looked at, wrapping to the first. */
  function FindNext(last: nat, list: seq<Rq>, k: nat): Option<Rq>
    requires k < |list|
  {
    var prev := if k > 0 then Some(list[k - 1]) else None;
    var next := if k + 1 < |list| then Some(list[k + 1])
                else if k > 0 then Some(list[0])
                else None;
    ChooseReq(last, next, prev)
  }

  // ----- the reference: scan the whole list -----

  function Scan(last: nat, list: seq<Rq>): Option<Rq> {
    if list == [] then None else ChooseReq(last, Some(list[0]), Scan(last, list[1..]))
  }

  predicate Sorted(list: seq<Rq>) {
    forall i, j :: 0 <= i < j < |list| ==> list[i].sector < list[j].sector
  }

  /** No request starts inside another. */
  predicate Disjoint(list: seq<Rq>) {
    forall i, j :: 0 <= i < j < |list| ==> End(list[i]) <= list[j].sector
  }

  /** r is served at least as early as x. */
  predicate Better(last: nat, r: Rq, x: Rq) {
    Choose(last, r, x) == r
  }

  predicate IsBest(last: nat, list: seq<Rq>, r: Rq) {
    r in list && forall x :: x in list ==> Better(last, r, x)
  }

  lemma BetterTotal(last: nat, a: Rq, b: Rq)
    requires a.sector != b.sector
    ensures Better(last, a, b) <==> !Better(last, b, a)
    ensures Choose(last, a, b) == Choose(last, b, a)
  {
  }

  lemma BetterTransitive(last: nat, a: Rq, b: Rq, c: Rq)
    requires Better(last, a, b) && Better(last, b, c)
    requires a.sector != b.sector && b.sector != c.sector && a.sector != c.sector
    ensures Better(last, a, c)
  {
  }

  lemma SortedDistinct(list: seq<Rq>, a: Rq, b: Rq)
    requires Sorted(list) && a in list && b in list && a.sector == b.sector
    ensures a == b
  {
  }

  /** The scan finds the best request of a non-empty list. */
  lemma {:induction false} ScanIsBest(last: nat, list: seq<Rq>)
    requires Sorted(list)
    ensures list == [] ==> Scan(last, list) == None
    ensures list != [] ==> Scan(last, list).Some? && IsBest(last, list, Scan(last, list).value)
  {
    if list != [] {
      var rest := list[1..];
      ScanIsBest(last, rest);
      var first, r := list[0], Scan(last, list).value;
      assert forall x :: x in list ==> x == first || x in rest;
      if rest != [] {
        var best := Scan(last, rest).value;
        forall x | x in list ensures Better(last, r, x) {
          if x in rest && x != best {
            BetterThrough(last, list, r, best, x);
          }
        }
      }
    }
  }

  lemma BetterThrough(last: nat, list: seq<Rq>, r: Rq, best: Rq, x: Rq)
    requires Sorted(list) && r in list && best in list && x in list
    requires Better(last, r, best) && Better(last, best, x)
    ensures Better(last, r, x)
  {
    if r.sector == best.sector {
      SortedDistinct(list, r, best);
    } else if best.sector == x.sector {
      SortedDistinct(list, best, x);
    } else if r.sector != x.sector {
      BetterTransitive(last, r, best, x);
    }
  }

  /** There is only one best request. */
  lemma BestIsScan(last: nat, list: seq<Rq>, r: Rq)
    requires Sorted(list) && IsBest(last, list, r)
    ensures Scan(last, list) == Some(r)
  {
    ScanIsBest(last, list);
    var best := Scan(last, list).value;
    if r.sector != best.sector {
      BetterTotal(last, r, best);
    } else {
      SortedDistinct(list, r, best);
    }
  }

  // ----- looking at the neighbours is enough -----

  /** After list[k] is served, its successor is no worse than the request after that.  This
      is the case whenever the successor does not start inside list[k]. */
  predicate Clear(list: seq<Rq>, k: nat)
    requires k < |list|
  {
    var last := End(list[k]);
    || k + 2 >= |list|
    || list[k + 1].sector >= last
    || (list[k + 2].sector >= last && list[k + 2].sector - last > (last - list[k + 1].sector) * BACK_PENALTY)
  }

  lemma RemovedMembers(list: seq<Rq>, k: nat, x: Rq)
    requires Sorted(list) && k < |list|
    ensures x in RemoveAt(list, k) <==> x in list && x != list[k]
  {
    if x in list && x != list[k] {
      var i :| 0 <= i < |list| && list[i] == x;
      assert RemoveAt(list, k)[if i < k then i else i - 1] == x;
    }
  }

  lemma RemovedSorted(list: seq<Rq>, k: nat)
    requires Sorted(list) && k < |list|
    ensures Sorted(RemoveAt(list, k))
    ensures Disjoint(list) ==> Disjoint(RemoveAt(list, k))
  {
    var w := RemoveAt(list, k);
    forall i | 0 <= i < |w| ensures w[i] == if i < k then list[i] else list[i + 1] {}
  }

  /** Better than both neighbours is better than everything. */
  lemma NeighboursSuffice(list: seq<Rq>, k: nat, r: Rq, j: nat)
    requires Sorted(list) && k < |list| && j < |list| && j != k && Clear(list, k) && list[k].len <= MAXBACK
    requires FindNext(End(list[k]), list, k) == Some(r)
    ensures Better(End(list[k]), r, list[j])
  {
    assert j + 1 < k ==> list[j].sector < list[k - 1].sector;
    assert j > 0 ==> list[0].sector < list[j].sector;
    assert j > k + 1 ==> list[k + 1].sector < list[j].sector;
    assert j > k + 2 ==> list[k + 2].sector < list[j].sector;
    assert k + 1 < |list| ==> list[k].sector < list[k + 1].sector;
    assert k > 0 ==> list[k - 1].sector < list[k].sector;
  }

  lemma FindNextMember(last: nat, list: seq<Rq>, k: nat)
    requires Sorted(list) && k < |list|
    ensures FindNext(last, list, k).None? <==> |list| == 1
    ensures FindNext(last, list, k).Some? ==> FindNext(last, list, k).value in RemoveAt(list, k)
  {
    var w := RemoveAt(list, k);
    if |list| > 1 {
      assert k > 0 ==> w[k - 1] == list[k - 1] && w[0] == list[0];
      assert k + 1 < |list| ==> w[k] == list[k + 1];
    }
  }

  lemma FindNextSufficient(list: seq<Rq>, k: nat)
    requires Sorted(list) && k < |list| && list[k].len <= MAXBACK && Clear(list, k)
    ensures FindNext(End(list[k]), list, k) == Scan(End(list[k]), RemoveAt(list, k))
  {
    var last, w := End(list[k]), RemoveAt(list, k);
    FindNextMember(last, list, k);
    RemovedSorted(list, k);
    if |list| > 1 {
      var r := FindNext(last, list, k).value;
      forall x | x in w ensures Better(last, r, x) {
        RemovedMembers(list, k, x);
        var j :| 0 <= j < |list| && list[j] == x;
        NeighboursSuffice(list, k, r, j);
      }
      BestIsScan(last, w, r);
    }
  }

  /** The neighbour rule finds what a scan of all remaining requests would find exactly when
      the dispatched request is clear of its successor. */
  lemma FindNextIff(list: seq<Rq>, k: nat)
    requires Sorted(list) && k < |list| && list[k].len <= MAXBACK
    ensures FindNext(End(list[k]), list, k) == Scan(End(list[k]), RemoveAt(list, k)) <==> Clear(list, k)
  {
    hide Scan;
    var last, w := End(list[k]), RemoveAt(list, k);
    if Clear(list, k) {
      FindNextSufficient(list, k);
    } else {
      RemovedSorted(list, k);
      ScanIsBest(last, w);
      var x1, x2 := list[k + 1], list[k + 2];
      assert w[k + 1] == x2;
      assert Better(last, Scan(last, w).value, x2);
      assert k > 0 ==> list[k - 1].sector < list[k].sector;
      assert FindNext(last, list, k) == Some(x1);
      BetterTotal(last, x1, x2);
    }
  }

  /** A long request dispatched from over a short one: its neighbour lies 50 sectors back, and the
      request one sector ahead is not looked at. */
  lemma FindNextCanMiss()
    ensures exists list: seq<Rq>, k: nat ::
              && Sorted(list) && k < |list| && list[k].len <= MAXBACK
              && FindNext(End(list[k]), list, k) != Scan(End(list[k]), RemoveAt(list, k))
  {
    var list := [Rq(0, 100), Rq(50, 8), Rq(101, 8)];
    FindNextIff(list, 0);
    assert !Clear(list, 0);
  }

  lemma DisjointIsClear(list: seq<Rq>, k: nat)
    requires Disjoint(list) && k < |list|
    ensures Clear(list, k)
  {
  }

  // ----- a request leaves while the head stays where it is -----

  /** Next to the best request of a list stands the best of the others. */
  lemma BestNeighbours(last: nat, list: seq<Rq>, k: nat, r: Rq, j: nat)
    requires Sorted(list) && k < |list| && j < |list| && j != k && IsBest(last, list, list[k])
    requires FindNext(last, list, k) == Some(r)
    ensures Better(last, r, list[j])
  {
    assert j + 1 < k ==> list[j].sector < list[k - 1].sector;
    assert j > 0 ==> list[0].sector < list[j].sector;
    assert j > k + 1 ==> list[k + 1].sector < list[j].sector;
    assert k + 1 < |list| ==> list[k].sector < list[k + 1].sector;
    assert k > 0 ==> list[k - 1].sector < list[k].sector;
    assert Better(last, list[k], list[j]);
    assert k > 0 ==> Better(last, list[k], list[k - 1]) && Better(last, list[k], list[0]);
    assert k + 1 < |list| ==> Better(last, list[k], list[k + 1]);
  }

  /** So when the best request leaves, looking at its neighbours is enough: for any lengths and however
      the requests overlap. */
  lemma RemoveBest(last: nat, list: seq<Rq>, k: nat)
    requires Sorted(list) && k < |list| && Scan(last, list) == Some(list[k])
    ensures FindNext(last, list, k) == Scan(last, RemoveAt(list, k))
  {
    var w := RemoveAt(list, k);
    ScanIsBest(last, list);
    FindNextMember(last, list, k);
    RemovedSorted(list, k);
    if |list| > 1 {
      var r := FindNext(last, list, k).value;
      forall x | x in w ensures Better(last, r, x) {
        RemovedMembers(list, k, x);
        var j :| 0 <= j < |list| && list[j] == x;
        BestNeighbours(last, list, k, r, j);
      }
      BestIsScan(last, w, r);
    }
  }

  /** Any other request that leaves does not change the best. */
  lemma RemoveOther(last: nat, list: seq<Rq>, k: nat)
    requires Sorted(list) && k < |list| && Scan(last, list) != Some(list[k])
    ensures Scan(last, RemoveAt(list, k)) == Scan(last, list)
  {
    ScanIsBest(last, list);
    RemovedSorted(list, k);
    var best, w := Scan(last, list).value, RemoveAt(list, k);
    forall x ensures x in w <==> x in list && x != list[k] {
      RemovedMembers(list, k, x);
    }
    BestIsScan(last, w, best);
  }

  /** list[k] has grown at its end. */
  function Grown(list: seq<Rq>, k: nat, len: nat): seq<Rq>
    requires k < |list|
  {
    list[k := list[k].(len := len)]
  }

  /** Growing at the end does not change which request is the best. */
  lemma GrownBest(last: nat, list: seq<Rq>, k: nat, len: nat)
    requires Sorted(list) && k < |list|
    ensures Sorted(Grown(list, k, len))
    ensures Scan(last, Grown(list, k, len)) ==
            if Scan(last, list) == Some(list[k]) then Some(list[k].(len := len)) else Scan(last, list)
  {
    var g := Grown(list, k, len);
    ScanIsBest(last, list);
    var i :| 0 <= i < |list| && list[i] == Scan(last, list).value;
    forall x | x in g ensures Better(last, g[i], x) {
      var j :| 0 <= j < |g| && g[j] == x;
      assert Better(last, list[i], list[j]);
      assert list[j] in list && g[j].sector == list[j].sector && g[i].sector == list[i].sector;
      assert i != j ==> list[i].sector != list[j].sector;
    }
    BestIsScan(last, g, g[i]);
    assert list[i] == list[k] ==> i == k;
  }

  lemma NotLeft(last: nat, list: seq<Rq>, k: nat)
    requires Sorted(list) && k < |list|
    ensures Scan(last, RemoveAt(list, k)) != Some(list[k])
  {
    RemovedSorted(list, k);
    ScanIsBest(last, RemoveAt(list, k));
    RemovedMembers(list, k, list[k]);
  }

  lemma GrownDisjoint(list: seq<Rq>, k: nat, len: nat)
    requires Sorted(list) && Disjoint(list) && k < |list|
    requires k + 1 < |list| ==> list[k].sector + len <= list[k + 1].sector
    ensures Disjoint(Grown(list, k, len))
  {
    assert forall j :: k + 1 < j < |list| ==> list[k + 1].sector < list[j].sector;
  }

  lemma SwallowedDisjoint(list: seq<Rq>, k: nat)
    requires Sorted(list) && Disjoint(list) && k + 1 < |list| && End(list[k]) == list[k + 1].sector
    ensures Disjoint(RemoveAt(Grown(list, k, list[k].len + list[k + 1].len), k + 1))
  {
    var g := Grown(list, k, list[k].len + list[k + 1].len);
    var w := RemoveAt(g, k + 1);
    forall i | 0 <= i < |w| ensures w[i] == if i <= k then g[i] else list[i + 1] {}
  }

  // ----- adding a request -----

  lemma InsertKeepsBest(last: nat, list: seq<Rq>, p: nat, r: Rq)
    requires p <= |list| && Sorted(list) && Sorted(InsertAt(list, p, r))
    ensures ChooseReq(last, Some(r), Scan(last, list)) == Scan(last, InsertAt(list, p, r))
  {
    var t := InsertAt(list, p, r);
    ScanIsBest(last, list);
    var c := ChooseReq(last, Some(r), Scan(last, list)).value;
    assert t[p] == r;
    assert forall x :: x in list ==> x in t by {
      assert list == list[..p] + list[p..];
    }
    forall x | x in t ensures Better(last, c, x) {
      if list != [] && x != r {
        assert x in list;
        BetterThrough(last, t, c, Scan(last, list).value, x);
      }
    }
    BestIsScan(last, t, c);
  }

  // ----- the scheduler's data for one direction -----

  /** Does r keep clear of every request of the list, other than one starting where it starts? */
  predicate Fits(list: seq<Rq>, r: Rq) {
    forall x :: x in list ==> x.sector == r.sector || End(x) <= r.sector || End(r) <= x.sector
  }

  class AsData {
    var sortList: seq<Rq>
    var nextRq: Option<Rq>
    var lastSector: nat
    var dispatched: seq<Rq>

    /** The cache holds what a scan of the whole list would find. */
    ghost predicate Valid()
      reads this
    {
      && Sorted(sortList) && Disjoint(sortList)
      && (forall r :: r in sortList ==> 0 < r.len <= MAXBACK)
      && nextRq == Scan(lastSector, sortList)
    }

    constructor ()
      ensures Valid() && sortList == [] && dispatched == []
    {
      sortList, nextRq, lastSector, dispatched := [], None, 0, [];
    }

    /** as_remove_queued_request: a cached request that goes is replaced first.  If the cache is the best
        of the list, or already of what will be left, it is the best of what is left. */
    method RemoveQueued(k: nat)
      requires k < |sortList| && Sorted(sortList)
      requires nextRq == Scan(lastSector, sortList) || nextRq == Scan(lastSector, RemoveAt(sortList, k))
      modifies this`sortList, this`nextRq
      ensures sortList == RemoveAt(old(sortList), k) && Sorted(sortList)
      ensures nextRq == Scan(lastSector, sortList)
    {
      hide Scan, FindNext, Better;
      RemovedSorted(sortList, k);
      NotLeft(lastSector, sortList, k);
      if Scan(lastSector, sortList) == Some(sortList[k]) {
        RemoveBest(lastSector, sortList, k);
      } else {
        RemoveOther(lastSector, sortList, k);
      }
      if nextRq == Some(sortList[k]) {
        nextRq := FindNext(lastSector, sortList, k);
      }
      sortList := RemoveAt(sortList, k);
    }

    /** A bio joins the end of sortList[k]. */
    method BackMerged(k: nat, len: nat)
      requires Valid() && k < |sortList| && sortList[k].len <= len <= MAXBACK
      requires k + 1 < |sortList| ==> sortList[k].sector + len <= sortList[k + 1].sector
      modifies this`sortList, this`nextRq
      ensures Valid() && sortList == Grown(old(sortList), k, len)
    {
      hide Scan;
      GrownBest(lastSector, sortList, k, len);
      GrownDisjoint(sortList, k, len);
      if nextRq == Some(sortList[k]) {
        nextRq := Some(sortList[k].(len := len));
      }
      sortList := Grown(sortList, k, len);
    }

    /** as_merged_requests, after attempt_merge has made sortList[k] swallow its successor: the cache is
        again the best of the list. */
    method MergedRequests(k: nat)
      requires Valid() && k + 1 < |sortList| && End(sortList[k]) == sortList[k + 1].sector
      requires sortList[k].len + sortList[k + 1].len <= MAXBACK
      modifies this`sortList, this`nextRq
      ensures Valid() && sortList == RemoveAt(Grown(old(sortList), k, old(sortList[k].len + sortList[k + 1].len)), k + 1)
    {
      hide Scan;
      var len := sortList[k].len + sortList[k + 1].len;
      GrownBest(lastSector, sortList, k, len);
      SwallowedDisjoint(sortList, k);
      if nextRq == Some(sortList[k]) {
        nextRq := Some(sortList[k].(len := len));
      }
      sortList := Grown(sortList, k, len);
      RemoveQueued(k + 1);
    }

    /** as_move_to_dispatch for sortList[k], whichever request that is. */
    method MoveToDispatch(k: nat)
      requires Valid() && k < |sortList|
      modifies this
      ensures Valid() && sortList == RemoveAt(old(sortList), k)
      ensures dispatched == old(dispatched) + [old(sortList)[k]] && lastSector == End(old(sortList)[k])
    {
      var rq := sortList[k];
      lastSector := End(rq);
      nextRq := FindNext(lastSector, sortList, k);
      DisjointIsClear(sortList, k);
      FindNextSufficient(sortList, k);
      RemovedSorted(sortList, k);
      RemoveQueued(k);
      dispatched := dispatched + [rq];
    }

    /** elv_rb_add: where r belongs, and the request already there if it starts at the same sector. */
    method Place(r: Rq) returns (p: nat, alias: bool)
      requires Valid()
      ensures p <= |sortList| && (alias ==> p < |sortList| && sortList[p].sector == r.sector)
      ensures forall i :: 0 <= i < p ==> sortList[i].sector < r.sector
      ensures forall i :: p <= i < |sortList| ==> sortList[i].sector > r.sector || (alias && i == p)
    {
      p := 0;
      while p < |sortList| && sortList[p].sector < r.sector
        invariant p <= |sortList| && forall i :: 0 <= i < p ==> sortList[i].sector < r.sector
      {
        p := p + 1;
      }
      alias := p < |sortList| && sortList[p].sector == r.sector;
    }

    /** as_add_rq_rb up to the insertion: whatever starts where r starts is dispatched. */
    method DispatchAliases(r: Rq) returns (p: nat)
      requires Valid() && Fits(sortList, r)
      modifies this
      ensures Valid() && Fits(sortList, r) && p <= |sortList|
      ensures forall i :: 0 <= i < p ==> sortList[i].sector < r.sector
      ensures forall i :: p <= i < |sortList| ==> sortList[i].sector > r.sector
      ensures Moved(old(sortList), old(dispatched), sortList, dispatched, r.sector)
    {
      var alias;
      p, alias := Place(r);
      while alias
        invariant Valid() && Fits(sortList, r) && 0 <= p <= |sortList|
        invariant alias ==> p < |sortList| && sortList[p].sector == r.sector
        invariant forall i :: 0 <= i < p ==> sortList[i].sector < r.sector
        invariant forall i :: p <= i < |sortList| ==> sortList[i].sector > r.sector || (alias && i == p)
        invariant Moved(old(sortList), old(dispatched), sortList, dispatched, r.sector)
        decreases |sortList|
      {
        hide Moved;
        MovedStep(old(sortList), old(dispatched), sortList, dispatched, p, r.sector);
        MoveToDispatch(p);
        p, alias := Place(r);
      }
    }

    /** as_add_request: requests at the same sector are dispatched first, then r goes into the
        list and as_update_rq compares it with the cached request. */
    method AddRequest(r: Rq)
      requires Valid() && 0 < r.len <= MAXBACK && Fits(sortList, r)
      modifies this
      ensures Valid() && r in sortList
      ensures multiset(sortList) + multiset(dispatched) == old(multiset(sortList) + multiset(dispatched)) + multiset{r}
      ensures forall x :: x in old(sortList) && x.sector != r.sector ==> x in sortList
    {
      hide Scan, Choose, ChooseReq, InsertAt;
      var p := DispatchAliases(r);
      InsertContents(sortList, p, r);
      InsertDisjoint(sortList, p, r);
      InsertKeepsBest(lastSector, sortList, p, r);
      sortList := InsertAt(sortList, p, r);
      nextRq := ChooseReq(lastSector, Some(r), nextRq);
    }

    /** Forced dispatch: take the cached request until there is none; nothing stays behind. */
    method ForcedDispatch()
      requires Valid()
      modifies this
      ensures Valid() && sortList == [] && nextRq == None
      ensures multiset(dispatched) == old(multiset(sortList) + multiset(dispatched))
    {
      while nextRq.Some?
        invariant Valid()
        invariant multiset(sortList) + multiset(dispatched) == old(multiset(sortList) + multiset(dispatched))
        decreases |sortList|
      {
        ScanIsBest(lastSector, sortList);
        var k :| 0 <= k < |sortList| && sortList[k] == nextRq.value;
        RemovedContents(sortList, k);
        MoveToDispatch(k);
      }
      ScanIsBest(lastSector, sortList);
    }
  }

  /** Requests went from one list to the other, all of them starting at sector s. */
  ghost predicate Moved(list: seq<Rq>, out: seq<Rq>, list': seq<Rq>, out': seq<Rq>, s: nat) {
    && multiset(list') + multiset(out') == multiset(list) + multiset(out)
    && (forall x :: x in list' ==> x in list)
    && (forall x :: x in list && x.sector != s ==> x in list')
  }

  lemma MovedStep(list: seq<Rq>, out: seq<Rq>, list': seq<Rq>, out': seq<Rq>, k: nat, s: nat)
    requires Moved(list, out, list', out', s) && Sorted(list') && k < |list'| && list'[k].sector == s
    ensures Moved(list, out, RemoveAt(list', k), out' + [list'[k]], s)
    ensures forall x :: x in RemoveAt(list', k) ==> x in list'
  {
    RemovedContents(list', k);
    forall x ensures x in RemoveAt(list', k) <==> x in list' && x != list'[k] {
      RemovedMembers(list', k, x);
    }
  }

  lemma RemovedContents(list: seq<Rq>, k: nat)
    requires k < |list|
    ensures multiset(list) == multiset(RemoveAt(list, k)) + multiset{list[k]}
  {
    assert list == list[..k] + [list[k]] + list[k + 1..];
  }

  lemma InsertContents(list: seq<Rq>, p: nat, r: Rq)
    requires p <= |list|
    ensures multiset(InsertAt(list, p, r)) == multiset(list) + multiset{r} && r in InsertAt(list, p, r)
    ensures forall x :: x in InsertAt(list, p, r) <==> x in list || x == r
  {
    assert list == list[..p] + list[p..];
    assert InsertAt(list, p, r)[p] == r;
  }

  lemma InsertDisjoint(list: seq<Rq>, p: nat, r: Rq)
    requires p <= |list| && Sorted(list) && Disjoint(list) && Fits(list, r) && r.len > 0
    requires forall x :: x in list ==> x.len > 0
    requires forall i :: 0 <= i < p ==> list[i].sector < r.sector
    requires forall i :: p <= i < |list| ==> list[i].sector > r.sector
    ensures Disjoint(InsertAt(list, p, r)) && Sorted(InsertAt(list, p, r))
  {
    var t := InsertAt(list, p, r);
    forall i, j | 0 <= i < j < |t| ensures End(t[i]) <= t[j].sector && t[i].sector < t[j].sector {
      assert t[i] == if i < p then list[i] else if i == p then r else list[i - 1];
      assert t[j] == if j < p then list[j] else if j == p then r else list[j - 1];
      assert i != p ==> t[i] in list;
      assert j != p ==> t[j] in list;
    }
  }
}
