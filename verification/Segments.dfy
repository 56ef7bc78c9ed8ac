/** Physical segments of a request (kernel/block/blk-merge.c): counting them, building the
    scatterlist, and what a valid division into segments is.

    The tests BIOVEC_PHYS_MERGEABLE and BIOVEC_SEG_BOUNDARY are one arbitrary relation
    between neighbouring vectors. */
module Segments {

  /** struct bio_vec; `high` says the page lies above the bounce limit. */
  datatype Vec = Vec(page: nat, offset: nat, len: nat, high: bool)

  /** The limits of a request queue. */
  datatype Limits = Limits(
    cluster: bool, maxSegmentSize: nat, joins: (Vec, Vec) -> bool,
    maxPhys: nat, maxHw: nat, maxSectors: nat)

  // ----- valid divisions -----

  function Size(g: seq<Vec>): nat {
    if g == [] then 0 else g[0].len + Size(g[1..])
  }

  lemma {:induction false} SizeConcat(a: seq<Vec>, b: seq<Vec>)
    ensures Size(a + b) == Size(a) + Size(b)
  {
    if a == [] {
      assert a + b == b;
    } else {
      assert (a + b)[1..] == a[1..] + b;
      SizeConcat(a[1..], b);
    }
  }

  /** A run of vectors the hardware accepts as one segment.  A single vector always is one,
      however long. */
  predicate Segment(q: Limits, g: seq<Vec>) {
    && g != []
    && (|g| > 1 ==> q.cluster && Size(g) <= q.maxSegmentSize)
    && (forall i :: 0 <= i < |g| - 1 ==> q.joins(g[i], g[i + 1]))
  }

  function Flatten(gs: seq<seq<Vec>>): seq<Vec> {
    if gs == [] then [] else gs[0] + Flatten(gs[1..])
  }

  lemma {:induction false} FlattenConcat(a: seq<seq<Vec>>, b: seq<seq<Vec>>)
    ensures Flatten(a + b) == Flatten(a) + Flatten(b)
  {
    if a == [] {
      assert a + b == b;
    } else {
      assert (a + b)[1..] == a[1..] + b;
      FlattenConcat(a[1..], b);
    }
  }

  /** `gs` divides `vs` into segments. */
  predicate Division(q: Limits, vs: seq<Vec>, gs: seq<seq<Vec>>) {
    Flatten(gs) == vs && forall g :: g in gs ==> Segment(q, g)
  }

  // ----- the greedy division -----

  /** May `v` join a segment of size `size` that ends with `prev`?  Counting (`low`) never
      lets a high page share a segment; mapping does not look at that. */
  predicate Extends(q: Limits, low: bool, size: nat, prev: Vec, v: Vec) {
    && !(low && (prev.high || v.high))
    && q.cluster && size + v.len <= q.maxSegmentSize && q.joins(prev, v)
  }

  /** How many further segments are started after one of size `size` ending with `prev`. */
  function More(q: Limits, low: bool, size: nat, prev: Vec, rest: seq<Vec>): nat
    decreases |rest|
  {
    if rest == [] then 0
    else if Extends(q, low, size, prev, rest[0]) then More(q, low, size + rest[0].len, rest[0], rest[1..])
    else 1 + More(q, low, rest[0].len, rest[0], rest[1..])
  }

  function Count(q: Limits, low: bool, vs: seq<Vec>): nat {
    if vs == [] then 0 else 1 + More(q, low, vs[0].len, vs[0], vs[1..])
  }

  /** The segments themselves, the first of which begins with `cur`. */
  function Groups(q: Limits, low: bool, cur: seq<Vec>, rest: seq<Vec>): (gs: seq<seq<Vec>>)
    requires cur != []
    ensures gs != []
    decreases |rest|
  {
    if rest == [] then [cur]
    else if Extends(q, low, Size(cur), cur[|cur| - 1], rest[0]) then Groups(q, low, cur + [rest[0]], rest[1..])
    else [cur] + Groups(q, low, [rest[0]], rest[1..])
  }

  function Greedy(q: Limits, low: bool, vs: seq<Vec>): seq<seq<Vec>> {
    if vs == [] then [] else Groups(q, low, [vs[0]], vs[1..])
  }

  lemma {:induction false} GroupsDivide(q: Limits, low: bool, cur: seq<Vec>, rest: seq<Vec>)
    requires Segment(q, cur)
    ensures Division(q, cur + rest, Groups(q, low, cur, rest))
    ensures |Groups(q, low, cur, rest)| == 1 + More(q, low, Size(cur), cur[|cur| - 1], rest)
    decreases |rest|
  {
    if rest == [] {
      assert Flatten([cur]) == cur + Flatten([]) == cur + rest;
    } else {
      var next := cur + [rest[0]];
      SizeConcat(cur, [rest[0]]);
      assert Size([rest[0]]) == rest[0].len;
      if Extends(q, low, Size(cur), cur[|cur| - 1], rest[0]) {
        assert Segment(q, next);
        assert next + rest[1..] == cur + rest;
        GroupsDivide(q, low, next, rest[1..]);
      } else {
        GroupsDivide(q, low, [rest[0]], rest[1..]);
        assert [rest[0]] + rest[1..] == rest;
      }
    }
  }

  /** Greedy counting produces a valid division of that many segments. */
  lemma GreedyDivides(q: Limits, low: bool, vs: seq<Vec>)
    ensures Division(q, vs, Greedy(q, low, vs)) && |Greedy(q, low, vs)| == Count(q, low, vs)
  {
    if vs != [] {
      assert [vs[0]] + vs[1..] == vs;
      assert Size([vs[0]]) == vs[0].len;
      GroupsDivide(q, low, [vs[0]], vs[1..]);
    }
  }

  // ----- greedy mapping is minimal -----

  /** A shorter current segment never leads to more segments; any two current segments
      with the same end lead to numbers that differ by at most one. */
  lemma {:induction false} MoreMonotone(q: Limits, x: nat, y: nat, prev: Vec, rest: seq<Vec>)
    ensures x <= y ==> More(q, false, x, prev, rest) <= More(q, false, y, prev, rest)
    ensures More(q, false, x, prev, rest) <= 1 + More(q, false, y, prev, rest)
    decreases |rest|
  {
    if rest != [] {
      var v, r := rest[0], rest[1..];
      MoreMonotone(q, x + v.len, y + v.len, v, r);
      MoreMonotone(q, x + v.len, v.len, v, r);
      MoreMonotone(q, v.len, y + v.len, v, r);
    }
  }

  /** Greedy mapping needs one segment for a valid segment, and then no more than it would
      need for the rest alone. */
  lemma {:induction false} SegmentAbsorbed(q: Limits, done: seq<Vec>, todo: seq<Vec>, rest: seq<Vec>)
    requires done != [] && Segment(q, done + todo)
    ensures More(q, false, Size(done), done[|done| - 1], todo + rest) <= Count(q, false, rest)
    decreases |todo|
  {
    if todo == [] {
      assert todo + rest == rest;
      if rest != [] {
        MoreMonotone(q, Size(done) + rest[0].len, rest[0].len, rest[0], rest[1..]);
      }
    } else {
      var g, next := done + todo, done + [todo[0]];
      assert next + todo[1..] == g;
      assert (todo + rest)[1..] == todo[1..] + rest;
      SizeConcat(done, todo);
      SizeConcat(done, [todo[0]]);
      assert q.joins(g[|done| - 1], g[|done|]);
      SegmentAbsorbed(q, next, todo[1..], rest);
    }
  }

  /** No valid division has fewer segments than greedy mapping emits. */
  lemma {:induction false} GreedyMinimal(q: Limits, vs: seq<Vec>, gs: seq<seq<Vec>>)
    requires Division(q, vs, gs)
    ensures Count(q, false, vs) <= |gs|
    decreases |gs|
  {
    if gs != [] {
      var g, rest := gs[0], Flatten(gs[1..]);
      assert Segment(q, g);
      GreedyMinimal(q, rest, gs[1..]);
      assert g == [g[0]] + g[1..];
      assert vs[1..] == g[1..] + rest;
      assert Size([g[0]]) == g[0].len;
      SegmentAbsorbed(q, [g[0]], g[1..], rest);
    }
  }
}
