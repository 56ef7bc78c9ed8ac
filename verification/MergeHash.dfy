/** Bios merging into requests: __make_request (kernel/block/blk-core.c), attempt_merge
    (kernel/block/blk-merge.c) and the merge hash and one-hit cache of kernel/block/elevator.c. */
module MergeHash {
  import opened ListOps

  /** Sectors [sector, sector + len). */
  datatype Bio = Bio(id: nat, sector: nat, len: nat)

  /** era is the number of barriers queued before the request was. */
  datatype Rq = Rq(sector: nat, nr: nat, mergeable: bool, era: nat, bios: seq<Bio>)

  const BUCKETS: nat := 64

  function End(r: Rq): nat {
    r.sector + r.nr
  }

  // ----- the sectors of a request -----

  /** The bios follow each other without a gap from sector `from` to sector `to`. */
  predicate Covers(bios: seq<Bio>, from: nat, to: nat) {
    if bios == [] then from == to else bios[0].sector == from && Covers(bios[1..], from + bios[0].len, to)
  }

  predicate RqOk(r: Rq) {
    r.bios != [] && Covers(r.bios, r.sector, End(r))
  }

  lemma {:induction false} CoversConcat(a: seq<Bio>, b: seq<Bio>, from: nat, mid: nat, to: nat)
    requires Covers(a, from, mid) && Covers(b, mid, to)
    ensures Covers(a + b, from, to)
  {
    if a == [] {
      assert a + b == b;
    } else {
      assert (a + b)[1..] == a[1..] + b;
      CoversConcat(a[1..], b, from + a[0].len, mid, to);
    }
  }

  lemma CoversOne(b: Bio)
    ensures Covers([b], b.sector, b.sector + b.len)
  {
    assert [b][1..] == [];
  }

  function Grown(r: Rq, b: Bio): Rq {
    r.(nr := r.nr + b.len, bios := r.bios + [b])
  }

  function GrownFront(r: Rq, b: Bio): Rq {
    r.(sector := b.sector, nr := r.nr + b.len, bios := [b] + r.bios)
  }

  function Joined(r: Rq, next: Rq): Rq {
    r.(nr := r.nr + next.nr, bios := r.bios + next.bios)
  }

  lemma GrownOk(r: Rq, b: Bio)
    requires RqOk(r) && End(r) == b.sector
    ensures RqOk(Grown(r, b))
  {
    CoversOne(b);
    CoversConcat(r.bios, [b], r.sector, End(r), End(Grown(r, b)));
  }

  lemma GrownFrontOk(r: Rq, b: Bio)
    requires RqOk(r) && r.sector == b.sector + b.len
    ensures RqOk(GrownFront(r, b)) && End(GrownFront(r, b)) == End(r)
  {
    CoversOne(b);
    CoversConcat([b], r.bios, b.sector, r.sector, End(r));
  }

  lemma JoinedOk(r: Rq, next: Rq)
    requires RqOk(r) && RqOk(next) && End(r) == next.sector
    ensures RqOk(Joined(r, next)) && End(Joined(r, next)) == End(next)
  {
    CoversConcat(r.bios, next.bios, r.sector, End(r), End(next));
  }

  // ----- the state -----

  /** rqs holds every request that still exists, sorted those in the elevator.  hash has one chain
      of request numbers for every bucket. */
  datatype State = State(rqs: map<nat, Rq>, sorted: set<nat>, hash: seq<seq<nat>>, last: Option<nat>, barriers: nat)

  /** ELV_HASH_FN, for any hash function. */
  function Bucket(fn: nat -> nat, sector: nat): (k: nat)
    ensures k < BUCKETS
  {
    fn(sector / 8) % BUCKETS
  }

  predicate Shaped(s: State) {
    |s.hash| == BUCKETS && s.sorted <= s.rqs.Keys
  }

  predicate Distinct(list: seq<nat>) {
    forall i, j :: 0 <= i < j < |list| ==> list[i] != list[j]
  }

  /** Every chain holds elevator requests whose end belongs there. */
  predicate ChainsOk(fn: nat -> nat, s: State)
    requires Shaped(s)
  {
    && (forall k :: 0 <= k < BUCKETS ==> Distinct(s.hash[k]))
    && (forall k, x :: 0 <= k < BUCKETS && x in s.hash[k] ==> x in s.sorted && k == Bucket(fn, End(s.rqs[x])))
  }

  /** Every mergeable elevator request is found in the chain of its end. */
  predicate Hashed(fn: nat -> nat, s: State)
    requires Shaped(s)
  {
    forall x :: x in s.sorted && s.rqs[x].mergeable ==> x in s.hash[Bucket(fn, End(s.rqs[x]))]
  }

  predicate RqsOk(rqs: map<nat, Rq>) {
    forall x :: x in rqs ==> RqOk(rqs[x])
  }

  predicate ErasOk(s: State)
    requires Shaped(s)
  {
    forall x :: x in s.sorted ==> s.rqs[x].era == s.barriers
  }

  /** The reachable-state invariant. */
  predicate Valid(fn: nat -> nat, s: State) {
    && Shaped(s) && ChainsOk(fn, s) && Hashed(fn, s) && RqsOk(s.rqs) && ErasOk(s)
    && (s.last.Some? ==> s.last.value in s.sorted)
  }

  function Ids(bios: seq<Bio>): (ids: seq<nat>)
    ensures |ids| == |bios| && forall i :: 0 <= i < |bios| ==> ids[i] == bios[i].id
  {
    seq(|bios|, i requires 0 <= i < |bios| => bios[i].id)
  }

  /** Every bio submitted so far is in exactly one request, once: own maps each to that request. */
  ghost predicate Owned(rqs: map<nat, Rq>, own: map<nat, nat>) {
    && (forall b :: b in own ==> own[b] in rqs)
    && (forall x :: x in rqs ==> Distinct(Ids(rqs[x].bios)) && Holds(rqs[x], own, x))
  }

  ghost predicate Holds(r: Rq, own: map<nat, nat>, x: nat) {
    forall b :: b in Ids(r.bios) <==> b in own && own[b] == x
  }

  // ----- hash operations -----

  function Without(list: seq<nat>, x: nat): seq<nat> {
    if list == [] then [] else if list[0] == x then Without(list[1..], x) else [list[0]] + Without(list[1..], x)
  }

  lemma {:induction false} WithoutMembers(list: seq<nat>, x: nat)
    ensures forall y :: y in Without(list, x) <==> y in list && y != x
    ensures Distinct(list) ==> Distinct(Without(list, x))
  {
    if list != [] {
      assert list == [list[0]] + list[1..];
      WithoutMembers(list[1..], x);
      if Distinct(list) {
        assert list[0] !in list[1..];
      }
    }
  }

  /** elv_rqhash_del. */
  function Unhashed(hash: seq<seq<nat>>, x: nat): seq<seq<nat>> {
    seq(|hash|, k requires 0 <= k < |hash| => Without(hash[k], x))
  }

  /** elv_rqhash_add. */
  function Rehashed(hash: seq<seq<nat>>, k: nat, x: nat): seq<seq<nat>>
    requires k < |hash|
  {
    hash[k := [x] + hash[k]]
  }

  lemma UnhashedMembers(hash: seq<seq<nat>>, x: nat)
    ensures |Unhashed(hash, x)| == |hash|
    ensures forall k, y :: 0 <= k < |hash| ==> (y in Unhashed(hash, x)[k] <==> y in hash[k] && y != x)
    ensures forall k :: 0 <= k < |hash| && Distinct(hash[k]) ==> Distinct(Unhashed(hash, x)[k])
  {
    forall k | 0 <= k < |hash|
      ensures forall y :: y in Unhashed(hash, x)[k] <==> y in hash[k] && y != x
      ensures Distinct(hash[k]) ==> Distinct(Unhashed(hash, x)[k])
    {
      WithoutMembers(hash[k], x);
    }
  }

  // ----- what happens to the state -----

  /** elv_insert of a new request made of one bio. */
  function Inserted(fn: nat -> nat, s: State, x: nat, b: Bio, mergeable: bool): State
    requires Shaped(s)
  {
    s.(rqs := s.rqs[x := Rq(b.sector, b.len, mergeable, s.barriers, [b])], sorted := s.sorted + {x},
       hash := if mergeable then Rehashed(s.hash, Bucket(fn, b.sector + b.len), x) else s.hash,
       last := if mergeable && s.last.None? then Some(x) else s.last)
  }

  /** The request changes; where it is hashed does not, yet. */
  function Changed(s: State, x: nat, r: Rq): State {
    s.(rqs := s.rqs[x := r])
  }

  /** elv_rqhash_reposition, after which the request is the one-hit cache. */
  function Repositioned(fn: nat -> nat, s: State, x: nat): State
    requires Shaped(s) && x in s.rqs
  {
    s.(hash := Rehashed(Unhashed(s.hash, x), Bucket(fn, End(s.rqs[x])), x), last := Some(x))
  }

  /** The request y has been swallowed and is gone. */
  function Gone(s: State, y: nat): State {
    s.(rqs := s.rqs - {y}, sorted := s.sorted - {y}, hash := Unhashed(s.hash, y))
  }

  /** elv_dispatch_sort or elv_dispatch_add_tail, as far as merging is concerned. */
  function Dispatched(s: State, x: nat): State {
    s.(sorted := s.sorted - {x}, hash := Unhashed(s.hash, x), last := if s.last == Some(x) then None else s.last)
  }

  /** A merge function refuses: REQ_NOMERGE. */
  function Refused(s: State, x: nat): State
    requires x in s.rqs
  {
    s.(rqs := s.rqs[x := s.rqs[x].(mergeable := false)], last := if s.last == Some(x) then None else s.last)
  }

  /** The hash is right for every request but x. */
  predicate Loose(fn: nat -> nat, s: State, x: nat)
    requires Shaped(s)
  {
    && (forall k :: 0 <= k < BUCKETS ==> Distinct(s.hash[k]))
    && (forall k, y :: 0 <= k < BUCKETS && y in s.hash[k] && y != x ==> y in s.sorted && k == Bucket(fn, End(s.rqs[y])))
    && (forall y :: y in s.sorted && y != x && s.rqs[y].mergeable ==> y in s.hash[Bucket(fn, End(s.rqs[y]))])
    && RqsOk(s.rqs) && ErasOk(s)
  }

  lemma ValidIsLoose(fn: nat -> nat, s: State, x: nat, r: Rq)
    requires Valid(fn, s) && x in s.sorted && RqOk(r) && r.era == s.rqs[x].era
    ensures Shaped(Changed(s, x, r)) && Loose(fn, Changed(s, x, r), x)
  {
    hide Bucket, RqOk;
  }

  lemma RepositionedValid(fn: nat -> nat, s: State, x: nat)
    requires Shaped(s) && x in s.sorted && Loose(fn, s, x)
    ensures Valid(fn, Repositioned(fn, s, x))
  {
    hide Unhashed, RqsOk, Without, Bucket;
    UnhashedMembers(s.hash, x);
    var s' := Repositioned(fn, s, x);
    var k' := Bucket(fn, End(s.rqs[x]));
    assert s'.hash[k'] == [x] + Unhashed(s.hash, x)[k'];
    assert x !in Unhashed(s.hash, x)[k'];
    forall k, y | 0 <= k < BUCKETS && y in s'.hash[k] ensures y in s'.sorted && k == Bucket(fn, End(s'.rqs[y])) {
      assert y != x ==> y in Unhashed(s.hash, x)[k];
    }
  }

  lemma GoneValid(fn: nat -> nat, s: State, y: nat)
    requires Valid(fn, s) && s.last != Some(y)
    ensures Valid(fn, Gone(s, y))
  {
    hide Unhashed, Without, RqOk;
    UnhashedMembers(s.hash, y);
  }

  lemma DispatchedValid(fn: nat -> nat, s: State, x: nat)
    requires Valid(fn, s)
    ensures Valid(fn, Dispatched(s, x))
  {
    hide Unhashed, Without, RqsOk;
    UnhashedMembers(s.hash, x);
  }

  /** A request that cannot be merged any more may be taken off the hash. */
  lemma DropValid(fn: nat -> nat, s: State, x: nat)
    requires Valid(fn, s) && x in s.rqs && !s.rqs[x].mergeable
    ensures Valid(fn, s.(hash := Unhashed(s.hash, x)))
  {
    hide Unhashed, Without, RqsOk;
    UnhashedMembers(s.hash, x);
  }

  lemma RefusedValid(fn: nat -> nat, s: State, x: nat)
    requires Valid(fn, s) && x in s.rqs
    ensures Valid(fn, Refused(s, x))
  {
    hide Bucket, Covers;
  }

  lemma InsertedValid(fn: nat -> nat, s: State, x: nat, b: Bio, mergeable: bool)
    requires Valid(fn, s) && x !in s.rqs
    ensures Valid(fn, Inserted(fn, s, x, b, mergeable))
  {
    hide Covers;
    CoversOne(b);
  }

  /** A front merge leaves the end of the request, and so its place in the hash, alone. */
  lemma FrontValid(fn: nat -> nat, s: State, x: nat, r: Rq)
    requires Valid(fn, s) && x in s.sorted && RqOk(r) && r.era == s.rqs[x].era && r.mergeable == s.rqs[x].mergeable
    requires End(r) == End(s.rqs[x])
    ensures Valid(fn, Changed(s, x, r).(last := Some(x)))
  {
    hide Bucket, Covers;
  }

  lemma FirstMember(list: seq<nat>, S: set<nat>)
    requires forall x :: x in list ==> x in S
    ensures list == [] || list[0] in S
  {
  }

  /** With an empty elevator there is nothing to merge with. */
  lemma DrainedForgets(fn: nat -> nat, s: State)
    requires Valid(fn, s) && s.sorted == {}
    ensures s.last == None && forall k :: 0 <= k < BUCKETS ==> s.hash[k] == []
  {
    forall k | 0 <= k < BUCKETS ensures s.hash[k] == [] {
      assert forall x: nat :: x in s.hash[k] ==> x in s.sorted;
      FirstMember(s.hash[k], s.sorted);
    }
  }

  // ----- every bio in one request -----

  lemma InsertedOwned(rqs: map<nat, Rq>, own: map<nat, nat>, x: nat, r: Rq, b: Bio)
    requires Owned(rqs, own) && x !in rqs && b.id !in own && r.bios == [b]
    ensures Owned(rqs[x := r], own[b.id := x])
  {
    var rqs' := rqs[x := r];
    forall y | y in rqs' ensures Holds(rqs'[y], own[b.id := x], y) {
      assert Ids([b]) == [b.id];
      if y != x {
        assert Holds(rqs[y], own, y);
      }
    }
  }

  lemma GrownOwned(rqs: map<nat, Rq>, own: map<nat, nat>, x: nat, r: Rq, b: Bio)
    requires Owned(rqs, own) && x in rqs && b.id !in own
    requires Ids(r.bios) == Ids(rqs[x].bios) + [b.id] || Ids(r.bios) == [b.id] + Ids(rqs[x].bios)
    ensures Owned(rqs[x := r], own[b.id := x])
  {
    var rqs' := rqs[x := r];
    forall y | y in rqs' ensures Holds(rqs'[y], own[b.id := x], y) {
      assert Holds(rqs[y], own, y);
    }
    assert b.id !in Ids(rqs[x].bios);
  }

  /** The bios of y now belong to x. */
  function Handed(own: map<nat, nat>, x: nat, y: nat): map<nat, nat> {
    map b | b in own :: if own[b] == y then x else own[b]
  }

  lemma JoinedOwned(rqs: map<nat, Rq>, own: map<nat, nat>, x: nat, y: nat, r: Rq)
    requires Owned(rqs, own) && x in rqs && y in rqs && x != y
    requires Ids(r.bios) == Ids(rqs[x].bios) + Ids(rqs[y].bios)
    ensures Owned(rqs[x := r] - {y}, Handed(own, x, y))
  {
    var rqs' := rqs[x := r] - {y};
    forall z | z in rqs' ensures Holds(rqs'[z], Handed(own, x, y), z) {
      assert Holds(rqs[z], own, z) && Holds(rqs[y], own, y);
    }
    assert Holds(rqs[x], own, x) && Holds(rqs[y], own, y);
    forall b | b in Ids(rqs[x].bios) ensures b !in Ids(rqs[y].bios) {
    }
    DistinctConcat(Ids(rqs[x].bios), Ids(rqs[y].bios));
  }

  lemma DistinctConcat(a: seq<nat>, b: seq<nat>)
    requires Distinct(a) && Distinct(b) && forall x :: x in a ==> x !in b
    ensures Distinct(a + b)
  {
    forall i, j | 0 <= i < j < |a + b| ensures (a + b)[i] != (a + b)[j] {
      if i < |a| <= j {
        assert a[i] in a && b[j - |a|] in b;
      }
    }
  }
}

/** The elevator's merge interface as an object. */
module Elevator {
  import opened ListOps
  import opened MergeHash

  datatype Kind = NoMerge | Back | Front

  /** The first mergeable request of a chain that ends at the sector. */
  function FirstEnding(rqs: map<nat, Rq>, chain: seq<nat>, sector: nat): Option<nat> {
    if chain == [] then None
    else if chain[0] in rqs && rqs[chain[0]].mergeable && End(rqs[chain[0]]) == sector then Some(chain[0])
    else FirstEnding(rqs, chain[1..], sector)
  }

  lemma {:induction false} NoneEnding(rqs: map<nat, Rq>, chain: seq<nat>, sector: nat)
    requires FirstEnding(rqs, chain, sector) == None
    ensures forall x :: x in chain && x in rqs && rqs[x].mergeable ==> End(rqs[x]) != sector
  {
    if chain != [] {
      assert chain == [chain[0]] + chain[1..];
      NoneEnding(rqs, chain[1..], sector);
    }
  }

  class Queue {
    const fn: nat -> nat               // hash_long
    var s: State
    ghost var own: map<nat, nat>       // which request each submitted bio is in

    ghost predicate Ok()
      reads this
    {
      Valid(fn, s) && Owned(s.rqs, own)
    }

    constructor (fn: nat -> nat)
      ensures Ok() && this.fn == fn && own == map[]
    {
      this.fn := fn;
      s := State(map[], {}, seq(BUCKETS, _ => []), None, 0);
      own := map[];
    }

    /** A mergeable request of the elevator ends at this sector. */
    predicate EndsAt(x: nat, sector: nat)
      reads this
    {
      x in s.sorted && x in s.rqs && s.rqs[x].mergeable && End(s.rqs[x]) == sector
    }

    /** The candidate for a back merge: of the requests that end at the sector, the first in its chain. */
    ghost function Candidate(sector: nat): Option<nat>
      requires Ok()
      reads this
    {
      FirstEnding(s.rqs, s.hash[Bucket(fn, sector)], sector)
    }

    /** elv_rqhash_find agrees with a search through the whole elevator; requests it meets that have
        become unmergeable are dropped from the hash. */
    method HashFind(sector: nat) returns (r: Option<nat>)
      requires Ok()
      modifies this`s
      ensures Ok() && s == old(s).(hash := s.hash)
      ensures r == old(Candidate(sector))
      ensures r.Some? ==> EndsAt(r.value, sector)
      ensures r.None? ==> forall x :: x in s.sorted ==> !EndsAt(x, sector)
    {
      hide RqsOk, ErasOk, Owned;
      var k := Bucket(fn, sector);
      var chain := s.hash[k];
      assert chain[0..] == chain;
      var i := 0;
      while i < |chain|
        invariant 0 <= i <= |chain| && Valid(fn, s) && s == old(s).(hash := s.hash)
        invariant FirstEnding(s.rqs, chain[i..], sector) == old(Candidate(sector))
        invariant forall x :: x in chain ==> x in s.sorted
      {
        var x := chain[i];
        if !s.rqs[x].mergeable {
          DropValid(fn, s, x);
          UnhashedMembers(s.hash, x);
          s := s.(hash := Unhashed(s.hash, x));
        } else if End(s.rqs[x]) == sector {
          return Some(x);
        }
        assert chain[i..][1..] == chain[i + 1..];
        i := i + 1;
      }
      NoneEnding(s.rqs, chain, sector);
      r := None;
    }

    /** elv_merge.  `ok` is the part of elv_rq_merge_ok that looks at the data direction, the disk and
        the scheduler's wishes; `starts` is the request the scheduler's own lookup finds at the bio's
        end; `noMerges` is the flag that leaves only the one-hit cache.  What it returns is in the
        elevator, can be merged, touches the bio, and was queued after the last barrier.  It finds
        nothing iff the cached request, the candidate for a back merge and the one for a front merge
        are each absent or refused. */
    method Merge(b: Bio, ok: nat -> bool, starts: Option<nat>, noMerges: bool) returns (kind: Kind, x: nat)
      requires Ok()
      requires starts.Some? ==> starts.value in s.sorted && s.rqs[starts.value].sector == b.sector + b.len
      modifies this`s
      ensures Ok() && s == old(s).(hash := s.hash)
      ensures kind != NoMerge ==> x in s.sorted && s.rqs[x].mergeable && ok(x) && s.rqs[x].era == s.barriers
      ensures kind == Back ==> End(s.rqs[x]) == b.sector
      ensures kind == Front ==> s.rqs[x].sector == b.sector + b.len
      ensures var last, found := s.last, old(Candidate(b.sector));
              kind == NoMerge <==>
              && (last.Some? && s.rqs[last.value].mergeable && ok(last.value) ==>
                    End(s.rqs[last.value]) != b.sector && s.rqs[last.value].sector != b.sector + b.len)
              && (noMerges || (&& (found.Some? ==> !ok(found.value))
                               && (starts.Some? && s.rqs[starts.value].mergeable ==> !ok(starts.value))))
      ensures kind == NoMerge && !noMerges && (forall y :: y in s.sorted ==> ok(y)) ==>
                forall y :: y in s.sorted ==> !EndsAt(y, b.sector)
    {
      hide ChainsOk, Hashed, RqsOk, Owned;
      kind, x := NoMerge, 0;
      if s.last.Some? && s.rqs[s.last.value].mergeable && ok(s.last.value) {
        x := s.last.value;
        if End(s.rqs[x]) == b.sector {
          kind := Back;
          return;
        } else if s.rqs[x].sector == b.sector + b.len {
          kind := Front;
          return;
        }
      }
      if noMerges {
        return;
      }
      var found := HashFind(b.sector);
      if found.Some? && ok(found.value) {
        return Back, found.value;
      }
      if starts.Some? && s.rqs[starts.value].mergeable && ok(starts.value) {
        return Front, starts.value;
      }
    }

    /** A new request for the bio. */
    method Insert(x: nat, b: Bio, mergeable: bool)
      requires Ok() && x !in s.rqs && b.id !in own
      modifies this
      ensures Ok() && s == Inserted(fn, old(s), x, b, mergeable) && own == old(own)[b.id := x]
    {
      hide Owned, Valid;
      InsertedValid(fn, s, x, b, mergeable);
      assert Shaped(s) by { UnfoldValid(fn, s); }
      InsertedOwned(s.rqs, own, x, Rq(b.sector, b.len, mergeable, s.barriers, [b]), b);
      s := Inserted(fn, s, x, b, mergeable);
      own := own[b.id := x];
    }

    /** attempt_merge: x swallows its successor y if they touch, can be merged and nothing else
        (`allowed`) stands against it.  The place of x in the hash may be out of date before. */
    method AttemptMerge(x: nat, y: nat, allowed: bool) returns (done: bool)
      requires Shaped(s) && Loose(fn, s, x) && Owned(s.rqs, own) && x in s.sorted && y in s.sorted && x != y
      modifies this
      ensures !done ==> s == old(s) && own == old(own)
      ensures done ==>
                && Ok() && y !in s.rqs && s.last == Some(x) && s.barriers == old(s.barriers)
                && s.rqs == old(s.rqs)[x := Joined(old(s.rqs[x]), old(s.rqs[y]))] - {y}
                && own == Handed(old(own), x, y)
    {
      hide Owned, Covers, Ids;
      done := allowed && s.rqs[x].mergeable && s.rqs[y].mergeable && End(s.rqs[x]) == s.rqs[y].sector;
      if done {
        var r := Joined(s.rqs[x], s.rqs[y]);
        JoinedOk(s.rqs[x], s.rqs[y]);
        JoinedOwned(s.rqs, own, x, y, r) by { IdsConcat(s.rqs[x].bios, s.rqs[y].bios); }
        ChangedLoose(fn, s, x, r);
        s := Changed(s, x, r);
        RepositionedValid(fn, s, x);
        s := Repositioned(fn, s, x);
        GoneValid(fn, s, y);
        s := Gone(s, y);
        own := Handed(own, x, y);
      }
    }

    /** The ELEVATOR_BACK_MERGE case of __make_request; `fits` is ll_back_merge_fn's answer and `next`
        the request after x. */
    method BackMerge(x: nat, b: Bio, fits: bool, next: Option<nat>, allowed: bool)
      requires Ok() && x in s.sorted && End(s.rqs[x]) == b.sector && b.id !in own
      requires next.Some? ==> next.value in s.sorted && next.value != x
      modifies this
      ensures Ok() && s.barriers == old(s.barriers)
      ensures own.Keys == old(own.Keys) + (if fits then {b.id} else {})
      ensures fits ==> x in s.rqs && b.id in own && own[b.id] == x && s.last == Some(x)
      ensures fits ==> Grown(old(s.rqs[x]), b).bios <= s.rqs[x].bios
      ensures !fits ==> s.rqs.Keys == old(s.rqs.Keys)
    {
      hide Owned, Covers, Ids, Loose, ChainsOk, Hashed;
      if !fits {
        RefusedValid(fn, s, x);
        RefusedOwned(s, own, x);
        s := Refused(s, x);
        return;
      }
      var r := Grown(s.rqs[x], b);
      GrownOk(s.rqs[x], b);
      GrownOwned(s.rqs, own, x, r, b) by { GrownIds(s.rqs[x], b); }
      ValidIsLoose(fn, s, x, r);
      s := Changed(s, x, r);
      own := own[b.id := x];
      var joined := false;
      if next.Some? {
        joined := AttemptMerge(x, next.value, allowed);
      }
      if !joined {
        RepositionedValid(fn, s, x);
        s := Repositioned(fn, s, x);
      }
    }

    /** The ELEVATOR_FRONT_MERGE case; `prev` is the request before x, which may swallow it. */
    method FrontMerge(x: nat, b: Bio, fits: bool, prev: Option<nat>, allowed: bool)
      requires Ok() && x in s.sorted && s.rqs[x].sector == b.sector + b.len && b.id !in own
      requires prev.Some? ==> prev.value in s.sorted && prev.value != x
      modifies this
      ensures Ok() && s.barriers == old(s.barriers)
      ensures own.Keys == old(own.Keys) + (if fits then {b.id} else {})
      ensures fits && x in s.rqs ==> b.id in own && own[b.id] == x && s.rqs[x] == GrownFront(old(s.rqs[x]), b)
      ensures fits && x !in s.rqs ==>
                && prev.Some? && prev.value in s.rqs && b.id in own && own[b.id] == prev.value
                && s.rqs[prev.value] == Joined(old(s.rqs[prev.value]), GrownFront(old(s.rqs[x]), b))
      ensures !fits ==> s.rqs.Keys == old(s.rqs.Keys)
    {
      hide Owned, Covers, Ids, Loose, ChainsOk, Hashed;
      if !fits {
        RefusedValid(fn, s, x);
        RefusedOwned(s, own, x);
        s := Refused(s, x);
        return;
      }
      var r := GrownFront(s.rqs[x], b);
      GrownFrontOk(s.rqs[x], b);
      GrownOwned(s.rqs, own, x, r, b) by { GrownIds(s.rqs[x], b); }
      FrontValid(fn, s, x, r);
      s := Changed(s, x, r);
      own := own[b.id := x];
      var joined := false;
      if prev.Some? {
        ForgetPlace(fn, s, prev.value, x);
        joined := AttemptMerge(prev.value, x, allowed);
      }
      if !joined {
        s := s.(last := Some(x));
      }
    }

    /** __make_request for a bio that is not a barrier: it ends up in exactly one request, whatever the
        merge functions and the scheduler answer. */
    method Submit(b: Bio, x: nat, mergeable: bool, ok: nat -> bool, starts: Option<nat>, fits: bool,
                  neighbour: nat -> Option<nat>, allowed: bool, noMerges: bool)
      requires Ok() && x !in s.rqs && b.id !in own
      requires starts.Some? ==> starts.value in s.sorted && s.rqs[starts.value].sector == b.sector + b.len
      requires forall y :: y in s.sorted && neighbour(y).Some? ==>
                 neighbour(y).value in s.sorted && neighbour(y).value != y
      modifies this
      ensures Ok() && own.Keys == old(own.Keys) + {b.id} && s.barriers == old(s.barriers)
    {
      hide Owned, Valid;
      var kind, y := NoMerge, 0;
      if s.sorted != {} {
        kind, y := Merge(b, ok, starts, noMerges);
      }
      if kind == Back {
        BackMerge(y, b, fits, neighbour(y), allowed);
      } else if kind == Front {
        FrontMerge(y, b, fits, neighbour(y), allowed);
      }
      if kind == NoMerge || !fits {
        Insert(x, b, mergeable);
      }
    }

    /** A request leaves the elevator for the dispatch list: nothing can be merged into it any more. */
    method Dispatch(x: nat)
      requires Ok() && x in s.sorted
      modifies this`s
      ensures Ok() && s == Dispatched(old(s), x)
      ensures s.last != Some(x) && forall k :: 0 <= k < BUCKETS ==> x !in s.hash[k]
    {
      hide Owned, ChainsOk, Hashed, RqsOk;
      DispatchedValid(fn, s, x);
      UnhashedMembers(s.hash, x);
      s := Dispatched(s, x);
    }

    /** Queueing a barrier x drains the elevator first, so afterwards no earlier request is left for a
        bio to merge into. */
    method QueueBarrier(x: nat, b: Bio)
      requires Ok() && x !in s.rqs && b.id !in own
      modifies this
      ensures Ok() && s.barriers == old(s.barriers) + 1 && own == old(own)[b.id := x]
      ensures s.sorted == {} && s.last == None && forall k :: 0 <= k < BUCKETS ==> s.hash[k] == []
    {
      hide Owned, ChainsOk, Hashed, RqsOk;
      while s.sorted != {}
        invariant Ok() && s.rqs == old(s.rqs) && s.barriers == old(s.barriers) && own == old(own)
        decreases |s.sorted|
      {
        var y :| y in s.sorted;
        Dispatch(y);
      }
      DrainedForgets(fn, s);
      var r := Rq(b.sector, b.len, false, s.barriers, [b]);
      InsertedOwned(s.rqs, own, x, r, b);
      CoversOne(b);
      BarrierValid(fn, s, x, r);
      s := s.(rqs := s.rqs[x := r], barriers := s.barriers + 1);
      own := own[b.id := x];
    }
  }

  lemma UnfoldValid(fn: nat -> nat, s: State)
    requires Valid(fn, s)
    ensures Shaped(s) && forall x :: x in s.sorted ==> x in s.rqs
  {
  }

  lemma IdsConcat(a: seq<Bio>, b: seq<Bio>)
    ensures Ids(a + b) == Ids(a) + Ids(b)
  {
  }

  lemma ChangedLoose(fn: nat -> nat, s: State, x: nat, r: Rq)
    requires Shaped(s) && Loose(fn, s, x) && x in s.sorted && RqOk(r) && r.era == s.rqs[x].era
    ensures Shaped(Changed(s, x, r)) && Loose(fn, Changed(s, x, r), x)
  {
    hide Bucket, RqOk;
  }

  lemma RefusedOwned(s: State, own: map<nat, nat>, x: nat)
    requires Owned(s.rqs, own) && x in s.rqs
    ensures Owned(Refused(s, x).rqs, own)
  {
    var rqs' := Refused(s, x).rqs;
    forall y | y in rqs' ensures Distinct(Ids(rqs'[y].bios)) && Holds(rqs'[y], own, y) {
      assert Holds(s.rqs[y], own, y) && rqs'[y].bios == s.rqs[y].bios;
    }
  }

  lemma GrownIds(r: Rq, b: Bio)
    ensures Ids(Grown(r, b).bios) == Ids(r.bios) + [b.id]
    ensures Ids(GrownFront(r, b).bios) == [b.id] + Ids(r.bios)
  {
    IdsConcat(r.bios, [b]);
    IdsConcat([b], r.bios);
    assert Ids([b]) == [b.id];
  }

  /** A valid state but for the cache is loose for every request. */
  lemma ForgetPlace(fn: nat -> nat, s: State, x: nat, y: nat)
    requires Valid(fn, s.(last := Some(y)))
    ensures Shaped(s) && Loose(fn, s, x)
  {
  }

  lemma BarrierValid(fn: nat -> nat, s: State, x: nat, r: Rq)
    requires Valid(fn, s) && s.sorted == {} && x !in s.rqs && RqOk(r)
    ensures Valid(fn, s.(rqs := s.rqs[x := r], barriers := s.barriers + 1))
  {
    hide Bucket, Covers;
  }
}
