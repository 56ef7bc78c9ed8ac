/** A request whose segment count is kept up to date incrementally, through bio merges,
    request merges (accepted or refused) and recounts, and the proof that the scatterlist
    built from it never has more entries than that count. */
module SegmentedRequest {
  import opened Segments

  /** struct bio: its pending vectors and its segment bookkeeping. */
  datatype Bio = Bio(vecs: seq<Vec>, sectors: nat, frontSize: nat, backSize: nat, physSegments: nat, segValid: bool)

  function Max(a: nat, b: nat): nat {
    if a > b then a else b
  }

  function Vecs(bios: seq<Bio>): seq<Vec> {
    if bios == [] then [] else bios[0].vecs + Vecs(bios[1..])
  }

  lemma {:induction false} VecsConcat(a: seq<Bio>, b: seq<Bio>)
    ensures Vecs(a + b) == Vecs(a) + Vecs(b)
  {
    if a == [] {
      assert a + b == b;
    } else {
      assert (a + b)[1..] == a[1..] + b;
      VecsConcat(a[1..], b);
    }
  }

  lemma SingleVecs(b: Bio)
    ensures Vecs([b]) == b.vecs
  {
    assert Vecs([b]) == b.vecs + Vecs([]);
  }

  function FirstSize(gs: seq<seq<Vec>>): nat {
    if gs == [] then 0 else Size(gs[0])
  }

  function LastSize(gs: seq<seq<Vec>>): nat {
    if gs == [] then 0 else Size(gs[|gs| - 1])
  }

  /** The first bio records `front`, the last one at least `back`. */
  function WithSizes(bios: seq<Bio>, front: nat, back: nat): (r: seq<Bio>)
    requires bios != []
    ensures |r| == |bios|
  {
    var b1 := bios[0 := bios[0].(frontSize := front)];
    var n := |bios| - 1;
    b1[n := b1[n].(backSize := Max(b1[n].backSize, back))]
  }

  /** The chain after __blk_recalc_rq_segments: the first bio knows at least the size of the
      first segment, the last bio at least that of the last. */
  function Recounted(q: Limits, bios: seq<Bio>): (r: seq<Bio>)
    ensures |r| == |bios|
  {
    if bios == [] then [] else
    var gs := Greedy(q, true, Vecs(bios));
    WithSizes(bios, Max(bios[0].frontSize, FirstSize(gs)), LastSize(gs))
  }

  /** Where the counting loop stands: `gs` are the finished segments, `cur` the current one
      (empty before the first vector), `todo` the vectors still to come. */
  ghost predicate CountingAt(q: Limits, low: bool, vs: seq<Vec>, todo: seq<Vec>, gs: seq<seq<Vec>>, cur: seq<Vec>) {
    && (cur == [] ==> gs == [] && todo == vs)
    && (cur != [] ==> Greedy(q, low, vs) == gs + Groups(q, low, cur, todo))
  }

  lemma CountingStart(q: Limits, low: bool, vs: seq<Vec>)
    ensures CountingAt(q, low, vs, vs, [], [])
  {
  }

  lemma CountingJoin(q: Limits, low: bool, vs: seq<Vec>, todo: seq<Vec>, gs: seq<seq<Vec>>, cur: seq<Vec>)
    requires CountingAt(q, low, vs, todo, gs, cur) && todo != [] && cur != []
    requires Extends(q, low, Size(cur), cur[|cur| - 1], todo[0])
    ensures CountingAt(q, low, vs, todo[1..], gs, cur + [todo[0]])
  {
  }

  lemma GroupsStep(q: Limits, low: bool, vs: seq<Vec>, todo: seq<Vec>, cur: seq<Vec>)
    requires todo != [] && (cur == [] || !Extends(q, low, Size(cur), cur[|cur| - 1], todo[0]))
    ensures cur != [] ==> Groups(q, low, cur, todo) == [cur] + Groups(q, low, [todo[0]], todo[1..])
    ensures Greedy(q, low, todo) == Groups(q, low, [todo[0]], todo[1..])
  {
  }

  lemma CountingNew(q: Limits, low: bool, vs: seq<Vec>, todo: seq<Vec>, gs: seq<seq<Vec>>, cur: seq<Vec>)
    requires CountingAt(q, low, vs, todo, gs, cur) && todo != []
    requires cur == [] || !Extends(q, low, Size(cur), cur[|cur| - 1], todo[0])
    ensures CountingAt(q, low, vs, todo[1..], if cur == [] then gs else gs + [cur], [todo[0]])
  {
    hide Extends, Size, Groups, Greedy;
    GroupsStep(q, low, vs, todo, cur);
    var next := Groups(q, low, [todo[0]], todo[1..]);
    if cur == [] {
      assert [] + next == next;
    } else {
      assert gs + ([cur] + next) == (gs + [cur]) + next;
    }
  }

  lemma CountingDone(q: Limits, low: bool, vs: seq<Vec>, gs: seq<seq<Vec>>, cur: seq<Vec>)
    requires CountingAt(q, low, vs, [], gs, cur)
    ensures Greedy(q, low, vs) == if cur == [] then [] else gs + [cur]
    ensures Count(q, low, vs) == if cur == [] then 0 else |gs| + 1
  {
    GreedyDivides(q, low, vs);
  }

  /** What the loop variables stand for. */
  ghost predicate Tracks(nr: nat, front: nat, segSize: nat, prev: Vec, highPrev: bool, front0: nat,
                         gs: seq<seq<Vec>>, cur: seq<Vec>)
  {
    && segSize == Size(cur)
    && nr == |gs| + (if cur == [] then 0 else 1)
    && front == (if gs == [] then front0 else Max(front0, Size(gs[0])))
    && (cur == [] ==> highPrev && gs == [])
    && (cur != [] ==> prev == cur[|cur| - 1] && highPrev == prev.high)
  }

  /** One vector of the counting loop. */
  method CountVec(q: Limits, v: Vec, nr: nat, front: nat, segSize: nat, prev: Vec, highPrev: bool,
                  ghost vs: seq<Vec>, ghost todo: seq<Vec>, ghost front0: nat, ghost gs: seq<seq<Vec>>, ghost cur: seq<Vec>)
    returns (nr': nat, front': nat, segSize': nat, highPrev': bool, ghost gs': seq<seq<Vec>>, ghost cur': seq<Vec>)
    requires Tracks(nr, front, segSize, prev, highPrev, front0, gs, cur)
    requires CountingAt(q, true, vs, todo, gs, cur) && todo != [] && todo[0] == v
    ensures Tracks(nr', front', segSize', v, highPrev', front0, gs', cur')
    ensures CountingAt(q, true, vs, todo[1..], gs', cur')
  {
    nr', front', segSize', highPrev', gs', cur' := nr, front, segSize, highPrev, gs, cur;
    if !v.high && !highPrev && q.cluster && segSize + v.len <= q.maxSegmentSize && q.joins(prev, v) {
      CountingJoin(q, true, vs, todo, gs, cur);
      SizeConcat(cur, [v]);
      segSize', cur' := segSize + v.len, cur + [v];
    } else {
      CountingNew(q, true, vs, todo, gs, cur);
      if nr == 1 && segSize > front {
        front' := segSize;
      }
      nr', segSize', highPrev' := nr + 1, v.len, v.high;
      gs', cur' := if cur == [] then gs else gs + [cur], [v];
    }
  }

  /** __blk_recalc_rq_segments over a chain of bios. */
  method RecalcSegments(q: Limits, bios: seq<Bio>) returns (nr: nat, out: seq<Bio>)
    ensures nr == Count(q, true, Vecs(bios)) && out == Recounted(q, bios)
  {
    if bios == [] {
      return 0, [];
    }
    nr := 0;
    var front: nat, segSize: nat := bios[0].frontSize, 0;
    var prev, highPrev := Vec(0, 0, 0, true), true;
    ghost var vs, gs, cur := Vecs(bios), [], [];
    var b := 0;
    while b < |bios|
      invariant 0 <= b <= |bios|
      invariant CountingAt(q, true, vs, Vecs(bios[b..]), gs, cur)
      invariant Tracks(nr, front, segSize, prev, highPrev, bios[0].frontSize, gs, cur)
    {
      hide CountingAt, Tracks;
      var i := 0;
      var vecs := bios[b].vecs;
      ghost var later := Vecs(bios[b + 1..]);
      assert bios[b..][1..] == bios[b + 1..];
      assert vecs[0..] + later == Vecs(bios[b..]);
      while i < |vecs|
        invariant 0 <= i <= |vecs|
        invariant CountingAt(q, true, vs, vecs[i..] + later, gs, cur)
        invariant Tracks(nr, front, segSize, prev, highPrev, bios[0].frontSize, gs, cur)
      {
        var v := vecs[i];
        ghost var todo := vecs[i..] + later;
        assert todo[0] == v && todo[1..] == vecs[i + 1..] + later;
        nr, front, segSize, highPrev, gs, cur :=
          CountVec(q, v, nr, front, segSize, prev, highPrev, vs, todo, bios[0].frontSize, gs, cur);
        prev := v;
        i := i + 1;
      }
      assert vecs[i..] + later == later;
      b := b + 1;
    }
    CountingDone(q, true, vs, gs, cur);
    if nr == 1 && segSize > front {
      front := segSize;
    }
    out := StoreSizes(bios, front, segSize);
  }

  method StoreSizes(bios: seq<Bio>, front: nat, segSize: nat) returns (out: seq<Bio>)
    requires bios != []
    ensures out == WithSizes(bios, front, segSize)
  {
    out := bios[0 := bios[0].(frontSize := front)];
    var last := out[|out| - 1];
    if segSize > last.backSize {
      out := out[|out| - 1 := last.(backSize := segSize)];
    }
  }

  // ----- what the counters promise -----

  /** Some division of the chain has exactly `nr` segments, the first no larger than the
      first bio says and the last no larger than the last bio says. */
  ghost predicate Accounted(q: Limits, bios: seq<Bio>, nr: nat) {
    exists gs :: DividedBy(q, bios, nr, gs)
  }

  ghost predicate DividedBy(q: Limits, bios: seq<Bio>, nr: nat, gs: seq<seq<Vec>>) {
    && bios != [] && gs != [] && |gs| == nr
    && Division(q, Vecs(bios), gs)
    && FirstSize(gs) <= bios[0].frontSize
    && LastSize(gs) <= bios[|bios| - 1].backSize
  }

  predicate HasData(bios: seq<Bio>) {
    bios != [] && forall b :: b in bios ==> b.vecs != []
  }

  lemma VecsNonEmpty(bios: seq<Bio>)
    requires HasData(bios)
    ensures Vecs(bios) != [] && Vecs(bios)[0] == bios[0].vecs[0]
    ensures var last := bios[|bios| - 1].vecs; Vecs(bios)[|Vecs(bios)| - 1] == last[|last| - 1]
  {
    var n := |bios| - 1;
    assert bios == bios[..n] + [bios[n]];
    VecsConcat(bios[..n], [bios[n]]);
    assert Vecs([bios[n]]) == bios[n].vecs + [];
  }

  /** The scatterlist of an accounted request fits. */
  lemma {:induction false} AccountedBounds(q: Limits, bios: seq<Bio>, nr: nat)
    requires Accounted(q, bios, nr)
    ensures Count(q, false, Vecs(bios)) <= nr
  {
    var gs :| DividedBy(q, bios, nr, gs);
    GreedyMinimal(q, Vecs(bios), gs);
  }

  /** A recount of a chain with data accounts for it. */
  lemma {:induction false} RecountAccounts(q: Limits, bios: seq<Bio>)
    requires HasData(bios)
    ensures Accounted(q, Recounted(q, bios), Count(q, true, Vecs(bios))) && Vecs(Recounted(q, bios)) == Vecs(bios)
    ensures HasData(Recounted(q, bios))
  {
    var out, gs := Recounted(q, bios), Greedy(q, true, Vecs(bios));
    GreedyDivides(q, true, Vecs(bios));
    VecsNonEmpty(bios);
    SameVecs(bios, out);
    assert DividedBy(q, out, |gs|, gs);
  }

  lemma {:induction false} SameVecs(a: seq<Bio>, b: seq<Bio>)
    requires |a| == |b| && forall i :: 0 <= i < |a| ==> a[i].vecs == b[i].vecs
    ensures Vecs(a) == Vecs(b)
  {
    if a != [] {
      SameVecs(a[1..], b[1..]);
    }
  }

  /** Larger recorded sizes do no harm. */
  lemma {:induction false} AccountedGrows(q: Limits, a: seq<Bio>, b: seq<Bio>, nr: nat)
    requires Accounted(q, a, nr) && |a| == |b| && forall i :: 0 <= i < |a| ==> a[i].vecs == b[i].vecs
    requires a[0].frontSize <= b[0].frontSize && a[|a| - 1].backSize <= b[|b| - 1].backSize
    ensures Accounted(q, b, nr)
  {
    var gs :| DividedBy(q, a, nr, gs);
    SameVecs(a, b);
    assert DividedBy(q, b, nr, gs);
  }

  lemma {:induction false} DividedConcat(q: Limits, a: seq<Bio>, n: nat, gs: seq<seq<Vec>>, b: seq<Bio>, m: nat, hs: seq<seq<Vec>>)
    requires DividedBy(q, a, n, gs) && DividedBy(q, b, m, hs)
    ensures DividedBy(q, a + b, n + m, gs + hs)
  {
    VecsConcat(a, b);
    FlattenConcat(gs, hs);
    hide Segment, Flatten, Vecs, Size;
  }

  /** Chains put one after the other, counts added. */
  lemma {:induction false} AccountedConcat(q: Limits, a: seq<Bio>, n: nat, b: seq<Bio>, m: nat)
    requires Accounted(q, a, n) && Accounted(q, b, m)
    ensures Accounted(q, a + b, n + m)
  {
    hide DividedBy;
    var gs :| DividedBy(q, a, n, gs);
    var hs :| DividedBy(q, b, m, hs);
    DividedConcat(q, a, n, gs, b, m, hs);
    assert DividedBy(q, a + b, n + m, gs + hs);
  }

  lemma {:induction false} FlattenEnds(gs: seq<seq<Vec>>)
    requires gs != [] && gs[0] != [] && gs[|gs| - 1] != []
    ensures var vs, last := Flatten(gs), gs[|gs| - 1];
            vs != [] && vs[0] == gs[0][0] && vs[|vs| - 1] == last[|last| - 1]
  {
    var n := |gs| - 1;
    assert gs == gs[..n] + [gs[n]];
    FlattenConcat(gs[..n], [gs[n]]);
    assert Flatten([gs[n]]) == gs[n] + [];
    assert Flatten(gs) == gs[0] + Flatten(gs[1..]);
  }

  /** Two segments whose ends join and whose sizes fit are one segment. */
  lemma {:induction false} SegmentsJoin(q: Limits, g: seq<Vec>, h: seq<Vec>)
    requires Segment(q, g) && Segment(q, h) && q.cluster && Size(g) + Size(h) <= q.maxSegmentSize
    requires q.joins(g[|g| - 1], h[0])
    ensures Segment(q, g + h)
  {
    SizeConcat(g, h);
    var gh := g + h;
    forall i | 0 <= i < |gh| - 1 ensures q.joins(gh[i], gh[i + 1]) {
      if i < |g| - 1 {
        assert q.joins(g[i], g[i + 1]);
      } else if i >= |g| {
        assert q.joins(h[i - |g|], h[i - |g| + 1]);
      }
    }
  }

  /** Put `hs` after `gs`, making the last segment of one and the first of the other one segment. */
  function Fused(gs: seq<seq<Vec>>, hs: seq<seq<Vec>>): seq<seq<Vec>>
    requires gs != [] && hs != []
  {
    gs[..|gs| - 1] + [gs[|gs| - 1] + hs[0]] + hs[1..]
  }

  lemma {:induction false} FusedFlatten(gs: seq<seq<Vec>>, hs: seq<seq<Vec>>)
    requires gs != [] && hs != []
    ensures Flatten(Fused(gs, hs)) == Flatten(gs) + Flatten(hs)
  {
    var n := |gs| - 1;
    var init, mid := gs[..n], gs[n] + hs[0];
    assert gs == init + [gs[n]];
    FlattenConcat(init, [gs[n]]);
    FlattenConcat(init + [mid], hs[1..]);
    FlattenConcat(init, [mid]);
    assert Flatten([mid]) == mid + Flatten([]);
    assert Flatten([gs[n]]) == gs[n] + Flatten([]);
  }

  lemma {:induction false} FusedDivides(q: Limits, vs: seq<Vec>, gs: seq<seq<Vec>>, ws: seq<Vec>, hs: seq<seq<Vec>>)
    requires Division(q, vs, gs) && Division(q, ws, hs) && gs != [] && hs != [] && vs != [] && ws != []
    requires q.cluster && LastSize(gs) + FirstSize(hs) <= q.maxSegmentSize && q.joins(vs[|vs| - 1], ws[0])
    ensures Division(q, vs + ws, Fused(gs, hs))
  {
    var g, h := gs[|gs| - 1], hs[0];
    assert Segment(q, g) && Segment(q, h) && Segment(q, gs[0]) && Segment(q, hs[|hs| - 1]);
    FlattenEnds(gs);
    FlattenEnds(hs);
    SegmentsJoin(q, g, h);
    FusedFlatten(gs, hs);
    hide Segment, Flatten, Size;
    assert forall x :: x in Fused(gs, hs) ==> x in gs || x == g + h || x in hs;
  }

  /** The two chains after ll_merge_requests_fn found their ends joinable. */
  function JoinedSizes(a: seq<Bio>, n: nat, b: seq<Bio>, m: nat): (seq<Bio>, seq<Bio>)
    requires a != [] && b != []
  {
    var segSize := a[|a| - 1].backSize + b[0].frontSize;
    (if n == 1 then a[0 := a[0].(frontSize := segSize)] else a,
     if m == 1 then b[|b| - 1 := b[|b| - 1].(backSize := segSize)] else b)
  }

  lemma JoinedKeepVecs(a: seq<Bio>, n: nat, b: seq<Bio>, m: nat)
    requires a != [] && b != []
    ensures var (a', b') := JoinedSizes(a, n, b, m); Vecs(a') == Vecs(a) && Vecs(b') == Vecs(b)
  {
    var (a', b') := JoinedSizes(a, n, b, m);
    SameVecs(a, a');
    SameVecs(b, b');
  }

  lemma {:induction false} FusedAccounts(q: Limits, a: seq<Bio>, n: nat, gs: seq<seq<Vec>>, b: seq<Bio>, m: nat, hs: seq<seq<Vec>>)
    requires DividedBy(q, a, n, gs) && DividedBy(q, b, m, hs) && HasData(a) && HasData(b)
    requires q.cluster && a[|a| - 1].backSize + b[0].frontSize <= q.maxSegmentSize
    requires var last := a[|a| - 1].vecs; q.joins(last[|last| - 1], b[0].vecs[0])
    ensures var (a', b') := JoinedSizes(a, n, b, m); DividedBy(q, a' + b', n + m - 1, Fused(gs, hs))
  {
    hide Segment, Flatten, Size, Fused, Division;
    var (a', b') := JoinedSizes(a, n, b, m);
    VecsNonEmpty(a);
    VecsNonEmpty(b);
    JoinedKeepVecs(a, n, b, m);
    VecsConcat(a', b');
    FusedDivides(q, Vecs(a), gs, Vecs(b), hs);
    FusedSizes(gs, hs);
  }

  lemma {:induction false} FusedSizes(gs: seq<seq<Vec>>, hs: seq<seq<Vec>>)
    requires gs != [] && hs != []
    ensures var fs := Fused(gs, hs);
            && fs != [] && |fs| == |gs| + |hs| - 1
            && FirstSize(fs) == FirstSize(gs) + (if |gs| == 1 then FirstSize(hs) else 0)
            && LastSize(fs) == LastSize(hs) + (if |hs| == 1 then LastSize(gs) else 0)
  {
    SizeConcat(gs[|gs| - 1], hs[0]);
  }

  lemma {:induction false} AccountedJoin(q: Limits, a: seq<Bio>, n: nat, b: seq<Bio>, m: nat)
    requires Accounted(q, a, n) && Accounted(q, b, m) && HasData(a) && HasData(b)
    requires q.cluster && a[|a| - 1].backSize + b[0].frontSize <= q.maxSegmentSize
    requires var last := a[|a| - 1].vecs; q.joins(last[|last| - 1], b[0].vecs[0])
    ensures n + m >= 1
    ensures var (a', b') := JoinedSizes(a, n, b, m); Accounted(q, a' + b', n + m - 1)
  {
    var gs :| DividedBy(q, a, n, gs);
    var hs :| DividedBy(q, b, m, hs);
    FusedAccounts(q, a, n, gs, b, m, hs);
  }

  /** A refused request merge may leave larger sizes behind; both requests stay accounted. */
  lemma {:induction false} JoinedStillAccounted(q: Limits, a: seq<Bio>, n: nat, b: seq<Bio>, m: nat)
    requires Accounted(q, a, n) && Accounted(q, b, m)
    ensures var (a', b') := JoinedSizes(a, n, b, m); Accounted(q, a', n) && Accounted(q, b', m)
  {
    hide DividedBy;
    var gs :| DividedBy(q, a, n, gs);
    var hs :| DividedBy(q, b, m, hs);
    JoinedStillDivided(q, a, n, gs, b, m, hs);
  }

  lemma {:induction false} JoinedStillDivided(q: Limits, a: seq<Bio>, n: nat, gs: seq<seq<Vec>>, b: seq<Bio>, m: nat, hs: seq<seq<Vec>>)
    requires DividedBy(q, a, n, gs) && DividedBy(q, b, m, hs)
    ensures var (a', b') := JoinedSizes(a, n, b, m); DividedBy(q, a', n, gs) && DividedBy(q, b', m, hs)
  {
    JoinedKeepVecs(a, n, b, m);
    hide Segment, Flatten, Vecs, Size;
  }

  // ----- the request -----

  /** An entry of a scatterlist. */
  datatype Sg = Sg(page: nat, offset: nat, length: nat)

  /** The entry for a segment: where its first vector is, and how long it is. */
  function Entry(g: seq<Vec>): Sg
    requires g != []
  {
    Sg(g[0].page, g[0].offset, Size(g))
  }

  /** A bio whose BIO_SEG_VALID flag, if set, can be believed. */
  ghost predicate BioOk(q: Limits, b: Bio) {
    b.vecs != [] && (b.segValid ==> Accounted(q, [b], b.physSegments))
  }

  /** What bio_phys_segments returns. */
  function BioSegments(q: Limits, b: Bio): nat {
    if b.segValid then b.physSegments else Count(q, true, b.vecs)
  }

  /** blk_recount_segments. */
  method RecountBio(q: Limits, b: Bio) returns (r: Bio)
    requires b.vecs != []
    ensures r.segValid && Accounted(q, [r], r.physSegments) && r.physSegments == Count(q, true, b.vecs)
    ensures r == b.(frontSize := r.frontSize, backSize := r.backSize, physSegments := r.physSegments, segValid := true)
    ensures b.frontSize <= r.frontSize && b.backSize <= r.backSize
  {
    var nr, out := RecalcSegments(q, [b]);
    SingleVecs(b);
    RecountAccounts(q, [b]);
    r := out[0].(physSegments := nr, segValid := true);
    AccountedGrows(q, out, [r], nr);
  }

  /** The scatterlist built so far: the finished segments, then the current one. */
  ghost predicate Mapped(sg: seq<Sg>, gs: seq<seq<Vec>>, cur: seq<Vec>) {
    && |sg| == |gs| + (if cur == [] then 0 else 1)
    && (forall k :: 0 <= k < |gs| ==> gs[k] != [] && sg[k] == Entry(gs[k]))
    && (cur != [] ==> sg[|gs|] == Entry(cur))
  }

  /** One vector of the mapping loop; `prev` is the vector before it. */
  method MapVec(q: Limits, v: Vec, prev: Vec, sg: seq<Sg>, ghost vs: seq<Vec>, ghost todo: seq<Vec>,
                ghost gs: seq<seq<Vec>>, ghost cur: seq<Vec>)
    returns (sg': seq<Sg>, ghost gs': seq<seq<Vec>>, ghost cur': seq<Vec>)
    requires CountingAt(q, false, vs, todo, gs, cur) && todo != [] && todo[0] == v && Mapped(sg, gs, cur)
    requires (cur == [] ==> gs == []) && (cur != [] ==> cur[|cur| - 1] == prev)
    ensures CountingAt(q, false, vs, todo[1..], gs', cur') && Mapped(sg', gs', cur')
    ensures cur' != [] && cur'[|cur'| - 1] == v
  {
    sg', gs', cur' := sg, gs, cur;
    if sg != [] && q.cluster && sg[|sg| - 1].length + v.len <= q.maxSegmentSize && q.joins(prev, v) {
      CountingJoin(q, false, vs, todo, gs, cur);
      SizeConcat(cur, [v]);
      sg' := sg[|sg| - 1 := sg[|sg| - 1].(length := sg[|sg| - 1].length + v.len)];
      cur' := cur + [v];
    } else {
      CountingNew(q, false, vs, todo, gs, cur);
      assert Size([v]) == v.len + Size([]);
      sg' := sg + [Sg(v.page, v.offset, v.len)];
      gs', cur' := if cur == [] then gs else gs + [cur], [v];
    }
  }

  /** blk_phys_contig_segment, for bios that carry data. */
  predicate PhysContig(q: Limits, a: Bio, b: Bio)
    requires a.vecs != [] && b.vecs != []
  {
    q.cluster && a.backSize + b.frontSize <= q.maxSegmentSize && q.joins(a.vecs[|a.vecs| - 1], b.vecs[0])
  }

  class Request {
    var bios: seq<Bio>
    var nrPhysSegments: nat
    var nrSectors: nat
    var nomerge: bool
    var special: bool

    ghost predicate Valid(q: Limits)
      reads this
    {
      HasData(bios) && Accounted(q, bios, nrPhysSegments)
    }

    /** blk_rq_bio_prep. */
    constructor (q: Limits, bio: Bio)
      requires BioOk(q, bio)
      ensures Valid(q) && Vecs(bios) == bio.vecs && nrSectors == bio.sectors && !nomerge && !special
      ensures nrPhysSegments == BioSegments(q, bio)
    {
      var b := bio;
      if !b.segValid {
        b := RecountBio(q, b);
      }
      bios, nrPhysSegments, nrSectors, nomerge, special := [b], b.physSegments, b.sectors, false, false;
      SingleVecs(b);
    }

    /** blk_recalc_rq_segments, whatever happened to the chain before. */
    method Recalc(q: Limits)
      requires HasData(bios)
      modifies this
      ensures Valid(q) && Vecs(bios) == old(Vecs(bios)) && |bios| == old(|bios|)
      ensures nrPhysSegments == Count(q, true, Vecs(bios))
      ensures nrSectors == old(nrSectors) && nomerge == old(nomerge) && special == old(special)
    {
      var nr, out := RecalcSegments(q, bios);
      RecountAccounts(q, bios);
      nrPhysSegments, bios := nr, out;
    }

    /** blk_rq_map_sg up to padding and draining: one entry per segment, and never more
        entries than nrPhysSegments promised. */
    method MapSg(q: Limits) returns (sg: seq<Sg>)
      requires Valid(q)
      ensures |sg| <= nrPhysSegments
      ensures var gs := Greedy(q, false, Vecs(bios));
              && Division(q, Vecs(bios), gs) && |sg| == |gs|
              && forall k :: 0 <= k < |sg| ==> gs[k] != [] && sg[k] == Entry(gs[k])
    {
      hide Accounted, CountingAt, Vecs;
      sg := [];
      var vs := Vecs(bios);
      CountingStart(q, false, vs);
      assert vs[0..] == vs;
      ghost var gs, cur := [], [];
      var i := 0;
      var prev := Vec(0, 0, 0, false);
      while i < |vs|
        invariant 0 <= i <= |vs|
        invariant CountingAt(q, false, vs, vs[i..], gs, cur) && Mapped(sg, gs, cur)
        invariant (cur == [] ==> gs == []) && (cur != [] ==> cur[|cur| - 1] == prev)
      {
        assert vs[i..][1..] == vs[i + 1..];
        sg, gs, cur := MapVec(q, vs[i], prev, sg, vs, vs[i..], gs, cur);
        prev, i := vs[i], i + 1;
      }
      assert vs[i..] == [];
      CountingDone(q, false, vs, gs, cur);
      GreedyDivides(q, false, vs);
      AccountedBounds(q, bios, nrPhysSegments);
    }

    /** ll_new_hw_segment. */
    method NewHwSegment(q: Limits, n: nat) returns (ok: bool)
      modifies this
      ensures bios == old(bios) && nrSectors == old(nrSectors) && special == old(special)
      ensures ok <==> old(nrPhysSegments) + n <= q.maxHw && old(nrPhysSegments) + n <= q.maxPhys
      ensures nrPhysSegments == old(nrPhysSegments) + (if ok then n else 0)
      ensures nomerge == (old(nomerge) || !ok)
    {
      if nrPhysSegments + n > q.maxHw || nrPhysSegments + n > q.maxPhys {
        nomerge := true;
        return false;
      }
      nrPhysSegments := nrPhysSegments + n;
      return true;
    }

    /** ll_back_merge_fn, and the linking done by its caller when it agrees. */
    method BackMerge(q: Limits, bio: Bio) returns (ok: bool)
      requires Valid(q) && BioOk(q, bio)
      modifies this
      ensures Valid(q)
      ensures Vecs(bios) == old(Vecs(bios)) + (if ok then bio.vecs else [])
      ensures nrSectors == old(nrSectors) + (if ok then bio.sectors else 0)
      ensures ok ==> nrSectors <= q.maxSectors && nrPhysSegments <= q.maxPhys && nrPhysSegments <= q.maxHw
      ensures nrPhysSegments == old(nrPhysSegments) + (if ok then BioSegments(q, bio) else 0)
      ensures !ok ==> nomerge
    {
      hide Accounted, Vecs;
      if nrSectors + bio.sectors > q.maxSectors {
        nomerge := true;
        return false;
      }
      var n, b := |bios| - 1, bio;
      if !bios[n].segValid {
        var tail := RecountBio(q, bios[n]);
        ReplaceBio(q, bios, nrPhysSegments, n, tail);
        bios := bios[n := tail];
      }
      if !b.segValid {
        b := RecountBio(q, b);
      }
      AccountedConcat(q, bios, nrPhysSegments, [b], b.physSegments);
      VecsConcat(bios, [b]);
      SingleVecs(b);
      ok := NewHwSegment(q, b.physSegments);
      if ok {
        bios, nrSectors := bios + [b], nrSectors + b.sectors;
      }
    }

    /** ll_front_merge_fn, and the linking done by its caller when it agrees. */
    method FrontMerge(q: Limits, bio: Bio) returns (ok: bool)
      requires Valid(q) && BioOk(q, bio)
      modifies this
      ensures Valid(q)
      ensures Vecs(bios) == (if ok then bio.vecs else []) + old(Vecs(bios))
      ensures nrSectors == old(nrSectors) + (if ok then bio.sectors else 0)
      ensures ok ==> nrSectors <= q.maxSectors && nrPhysSegments <= q.maxPhys && nrPhysSegments <= q.maxHw
      ensures nrPhysSegments == old(nrPhysSegments) + (if ok then BioSegments(q, bio) else 0)
      ensures !ok ==> nomerge
    {
      hide Accounted, Vecs;
      if nrSectors + bio.sectors > q.maxSectors {
        nomerge := true;
        return false;
      }
      var b := bio;
      if !b.segValid {
        b := RecountBio(q, b);
      }
      if !bios[0].segValid {
        var head := RecountBio(q, bios[0]);
        ReplaceBio(q, bios, nrPhysSegments, 0, head);
        bios := bios[0 := head];
      }
      AccountedConcat(q, [b], b.physSegments, bios, nrPhysSegments);
      VecsConcat([b], bios);
      SingleVecs(b);
      ok := NewHwSegment(q, b.physSegments);
      if ok {
        bios, nrSectors := [b] + bios, nrSectors + b.sectors;
      }
    }

    /** ll_merge_requests_fn, and the linking done by attempt_merge when it agrees.  A
        refusal can come after sizes were already changed. */
    method MergeRequests(q: Limits, next: Request) returns (ok: bool)
      requires this != next && Valid(q) && next.Valid(q)
      modifies this, next
      ensures Valid(q) && next.special == old(next.special) && special == old(special)
      ensures ok ==> Vecs(bios) == old(Vecs(bios)) + old(Vecs(next.bios)) && nrSectors == old(nrSectors) + old(next.nrSectors)
      ensures ok ==> nrSectors <= q.maxSectors && nrPhysSegments <= q.maxPhys && nrPhysSegments <= q.maxHw
      ensures !ok ==> next.Valid(q) && Vecs(bios) == old(Vecs(bios)) && Vecs(next.bios) == old(Vecs(next.bios))
      ensures !ok ==> nrPhysSegments == old(nrPhysSegments) && next.nrPhysSegments == old(next.nrPhysSegments)
      ensures ok ==> nrPhysSegments == old(nrPhysSegments) + old(next.nrPhysSegments) -
                       (if old(PhysContig(q, bios[|bios| - 1], next.bios[0])) then 1 else 0)
    {
      hide Accounted, Vecs;
      if special || next.special {
        return false;
      }
      if nrSectors + next.nrSectors > q.maxSectors {
        return false;
      }
      var n := |bios| - 1;
      var contig := PhysContig(q, bios[n], next.bios[0]);
      RequestsMerged(q, bios, nrPhysSegments, next.bios, next.nrPhysSegments, contig);
      var total := nrPhysSegments + next.nrPhysSegments;
      if contig {
        var segSize := bios[n].backSize + next.bios[0].frontSize;
        if nrPhysSegments == 1 {
          bios := bios[0 := bios[0].(frontSize := segSize)];
        }
        if next.nrPhysSegments == 1 {
          var k := |next.bios| - 1;
          next.bios := next.bios[k := next.bios[k].(backSize := segSize)];
        }
        total := total - 1;
      }
      if total > q.maxPhys || total > q.maxHw {
        return false;
      }
      nrPhysSegments, bios, nrSectors := total, bios + next.bios, nrSectors + next.nrSectors;
      return true;
    }
  }

  /** Both outcomes of ll_merge_requests_fn for the chains `a` and `b`. */
  lemma {:induction false} RequestsMerged(q: Limits, a: seq<Bio>, n: nat, b: seq<Bio>, m: nat, contig: bool)
    requires Accounted(q, a, n) && Accounted(q, b, m) && HasData(a) && HasData(b)
    requires contig ==> PhysContig(q, a[|a| - 1], b[0])
    ensures var (a', b') := if contig then JoinedSizes(a, n, b, m) else (a, b);
            && HasData(a') && HasData(b') && HasData(a' + b')
            && Vecs(a') == Vecs(a) && Vecs(b') == Vecs(b) && Vecs(a' + b') == Vecs(a) + Vecs(b)
            && Accounted(q, a', n) && Accounted(q, b', m)
            && n + m >= 1 && Accounted(q, a' + b', if contig then n + m - 1 else n + m)
  {
    hide Accounted, Vecs;
    var (a', b') := if contig then JoinedSizes(a, n, b, m) else (a, b);
    JoinedKeepVecs(a, n, b, m);
    VecsConcat(a', b');
    JoinedStillAccounted(q, a, n, b, m);
    AccountedNonZero(q, a, n);
    if contig {
      AccountedJoin(q, a, n, b, m);
    } else {
      AccountedConcat(q, a, n, b, m);
    }
  }

  lemma AccountedNonZero(q: Limits, bios: seq<Bio>, nr: nat)
    requires Accounted(q, bios, nr)
    ensures nr >= 1
  {
  }

  lemma {:induction false} ReplaceBio(q: Limits, bios: seq<Bio>, nr: nat, k: nat, b: Bio)
    requires HasData(bios) && Accounted(q, bios, nr) && k < |bios| && b.vecs == bios[k].vecs
    requires bios[k].frontSize <= b.frontSize && bios[k].backSize <= b.backSize
    ensures HasData(bios[k := b]) && Accounted(q, bios[k := b], nr) && Vecs(bios[k := b]) == Vecs(bios)
  {
    hide Accounted, Vecs;
    SameVecs(bios, bios[k := b]);
    AccountedGrows(q, bios, bios[k := b], nr);
  }
}
