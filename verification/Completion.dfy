/** Partial completion of a request (kernel/block/blk-core.c __end_that_request_first and
    req_bio_endio, kernel/block/blk-merge.c blk_recalc_rq_sectors).

    The reference is the stream of memory bytes a chain of bios stands for: completing n bytes
    drops the first n of it. */
module Completion {

  const SECTOR: nat := 512
  const EIO: int := -5

  /** A whole number of sectors. */
  predicate Whole(n: int) {
    n % SECTOR == 0
  }

  lemma WholeMinus(a: int, b: int)
    requires Whole(a) && Whole(b)
    ensures Whole(a - b)
  {
  }

  datatype Vec = Vec(page: nat, offset: nat, len: nat)

  /** vecs is bi_io_vec, idx is bi_idx. */
  datatype Bio = Bio(id: nat, sector: nat, size: nat, idx: nat, vecs: seq<Vec>, uptodate: bool)

  /** What bio_endio reports. */
  datatype Ended = Ended(id: nat, error: int)

  /** The bytes described by vecs[i..]. */
  function Len(vecs: seq<Vec>, i: nat): nat
    decreases |vecs| - i
  {
    if i >= |vecs| then 0 else vecs[i].len + Len(vecs, i + 1)
  }

  predicate BioOk(b: Bio) {
    b.size == Len(b.vecs, b.idx) && b.size > 0 && Whole(b.size)
  }

  predicate ChainOk(bios: seq<Bio>) {
    forall i :: 0 <= i < |bios| ==> BioOk(bios[i])
  }

  function Bytes(bios: seq<Bio>): nat {
    if bios == [] then 0 else bios[0].size + Bytes(bios[1..])
  }

  // ----- one bio -----

  /** The first vector that completing n bytes from vecs[i] on does not finish. */
  function Skip(vecs: seq<Vec>, i: nat, n: nat): nat
    decreases |vecs| - i
  {
    if i < |vecs| && 0 < n && vecs[i].len <= n then Skip(vecs, i + 1, n - vecs[i].len) else i
  }

  /** How many of the n bytes fall into that vector. */
  function Over(vecs: seq<Vec>, i: nat, n: nat): nat
    decreases |vecs| - i
  {
    if i < |vecs| && 0 < n && vecs[i].len <= n then Over(vecs, i + 1, n - vecs[i].len) else n
  }

  lemma {:induction false} SkipBounds(vecs: seq<Vec>, i: nat, n: nat)
    requires n < Len(vecs, i)
    ensures i <= Skip(vecs, i, n) < |vecs|
    ensures n == 0 ==> Over(vecs, i, n) == 0
    ensures Over(vecs, i, n) == 0 || Over(vecs, i, n) < vecs[Skip(vecs, i, n)].len
    ensures Len(vecs, i) - n == Len(vecs, Skip(vecs, i, n)) - Over(vecs, i, n)
    decreases |vecs| - i
  {
    if i < |vecs| && 0 < n && vecs[i].len <= n {
      SkipBounds(vecs, i + 1, n - vecs[i].len);
    }
  }

  function Shrunk(v: Vec, n: nat): Vec
    requires n <= v.len
  {
    v.(offset := v.offset + n, len := v.len - n)
  }

  function Cut(vecs: seq<Vec>, k: nat, n: nat): seq<Vec>
    requires k < |vecs| && n <= vecs[k].len
  {
    vecs[k := Shrunk(vecs[k], n)]
  }

  predicate SameFrom(u: seq<Vec>, v: seq<Vec>, i: nat) {
    |u| == |v| && forall j :: i <= j < |u| ==> u[j] == v[j]
  }

  /** A bio of which n bytes, but not all, have been completed. */
  function Advanced(b: Bio, n: nat, error: int): Bio
    requires BioOk(b) && n < b.size
  {
    if n == 0 then b
    else
      SkipBounds(b.vecs, b.idx, n);
      var k := Skip(b.vecs, b.idx, n);
      Bio(b.id, b.sector + n / SECTOR, b.size - n, k, Cut(b.vecs, k, Over(b.vecs, b.idx, n)),
          b.uptodate && error == 0)
  }

  lemma {:induction false} LenAbove(u: seq<Vec>, v: seq<Vec>, i: nat)
    requires SameFrom(u, v, i)
    ensures Len(u, i) == Len(v, i)
    decreases |u| - i
  {
    if i < |u| {
      LenAbove(u, v, i + 1);
    }
  }

  lemma {:induction false} SkipAbove(u: seq<Vec>, v: seq<Vec>, i: nat, n: nat)
    requires SameFrom(u, v, i)
    ensures Skip(u, i, n) == Skip(v, i, n) && Over(u, i, n) == Over(v, i, n)
    decreases |u| - i
  {
    if i < |u| && 0 < n && u[i].len <= n {
      SkipAbove(u, v, i + 1, n - u[i].len);
    }
  }

  lemma AdvancedOk(b: Bio, n: nat, error: int)
    requires BioOk(b) && n < b.size && Whole(n)
    ensures BioOk(Advanced(b, n, error)) && Advanced(b, n, error).size == b.size - n
  {
    SkipBounds(b.vecs, b.idx, n);
    var b' := Advanced(b, n, error);
    if n > 0 {
      LenAbove(b.vecs, b'.vecs, b'.idx + 1);
    }
  }

  /** Skipping a bytes and then c bytes ends where skipping a + c bytes does. */
  lemma {:induction false} SkipTwice(vecs: seq<Vec>, i: nat, a: nat, c: nat)
    requires a + c < Len(vecs, i) && 0 < c
    ensures var k, o := Skip(vecs, i, a), Over(vecs, i, a);
            && i <= k < |vecs| && o <= vecs[k].len
            && Skip(vecs, i, a + c) == Skip(Cut(vecs, k, o), k, c)
            && Over(vecs, i, a + c) ==
               Over(Cut(vecs, k, o), k, c) + (if Skip(vecs, i, a + c) == k then o else 0)
    decreases |vecs| - i
  {
    SkipBounds(vecs, i, a);
    if i < |vecs| && 0 < a && vecs[i].len <= a {
      SkipTwice(vecs, i + 1, a - vecs[i].len, c);
    } else {
      var v := Cut(vecs, i, a);
      if vecs[i].len <= a + c {
        SkipAbove(vecs, v, i + 1, a + c - vecs[i].len);
        SkipMonotone(vecs, i + 1, a + c - vecs[i].len);
      }
    }
  }

  lemma {:induction false} SkipMonotone(vecs: seq<Vec>, i: nat, n: nat)
    ensures Skip(vecs, i, n) >= i
    decreases |vecs| - i
  {
    if i < |vecs| && 0 < n && vecs[i].len <= n {
      SkipMonotone(vecs, i + 1, n - vecs[i].len);
    }
  }

  /** Equal in everything that is still to be done. */
  predicate SameLeft(x: Bio, y: Bio) {
    x.(vecs := []) == y.(vecs := []) && SameFrom(x.vecs, y.vecs, x.idx)
  }

  /** One bio: two completions leave what their sum leaves.  The vectors already passed differ if
      the first completion stopped inside a vector that the second one went past. */
  lemma {:induction false} AdvancedTwice(b: Bio, a: nat, c: nat, error: int)
    requires BioOk(b) && a + c < b.size && Whole(a) && Whole(c)
    ensures BioOk(Advanced(b, a, error))
    ensures SameLeft(Advanced(Advanced(b, a, error), c, error), Advanced(b, a + c, error))
    ensures Advanced(Advanced(b, a, error), c, error) == Advanced(b, a + c, error) <==>
            (Over(b.vecs, b.idx, a) == 0 || Skip(b.vecs, b.idx, a) == Skip(b.vecs, b.idx, a + c))
  {
    hide Skip, Over, Len, Shrunk, Cut;
    AdvancedOk(b, a, error);
    if c > 0 && a > 0 {
      SkipTwice(b.vecs, b.idx, a, c);
      SkipBounds(b.vecs, b.idx, a);
      SkipBounds(b.vecs, b.idx, a + c);
      SectorsAdd(a, c);
      TwiceVecs(b.vecs, b.idx, a, c);
    } else if a == 0 {
      SkipBounds(b.vecs, b.idx, a);
    }
  }

  /** Completing half of the first vector and then the rest of it with half of the second leaves the
      first vector cut; completing both at once leaves it whole. */
  lemma PassedVectorsCanDiffer()
    ensures exists b: Bio, a: nat, c: nat ::
              && BioOk(b) && a + c < b.size && Whole(a) && Whole(c)
              && BioOk(Advanced(b, a, 0)) && Advanced(Advanced(b, a, 0), c, 0) != Advanced(b, a + c, 0)
  {
    var vecs := [Vec(0, 0, 1024), Vec(1, 0, 1024)];
    var b := Bio(0, 0, 2048, 0, vecs, true);
    assert Len(vecs, 2) == 0 && Len(vecs, 1) == 1024;
    assert Over(vecs, 0, 512) == 512 && Skip(vecs, 0, 512) == 0;
    assert Skip(vecs, 1, 512) == 1 && Skip(vecs, 0, 1536) == 1;
    hide Skip, Over, Advanced, Len;
    AdvancedTwice(b, 512, 1024, 0);
    assert Advanced(Advanced(b, 512, 0), 1024, 0) != Advanced(b, 512 + 1024, 0);
  }

  lemma SectorsAdd(a: nat, c: nat)
    requires Whole(a)
    ensures a / SECTOR + c / SECTOR == (a + c) / SECTOR
  {
  }

  lemma TwiceVecs(vecs: seq<Vec>, i: nat, a: nat, c: nat)
    requires a + c < Len(vecs, i) && 0 < c
    ensures var k, o := Skip(vecs, i, a), Over(vecs, i, a);
            && i <= k < |vecs| && o <= vecs[k].len
            && var v := Cut(vecs, k, o);
            var k2, o1, o2 := Skip(vecs, i, a + c), Over(v, k, c), Over(vecs, i, a + c);
            && k <= k2 < |vecs| && o1 <= v[k2].len && o2 <= vecs[k2].len
            && SameFrom(Cut(v, k2, o1), Cut(vecs, k2, o2), k2)
            && (Cut(v, k2, o1) == Cut(vecs, k2, o2) <==> o == 0 || k == k2)
  {
    SkipBounds(vecs, i, a);
    SkipBounds(vecs, i, a + c);
    SkipTwice(vecs, i, a, c);
    var k, o := Skip(vecs, i, a), Over(vecs, i, a);
    var v := Cut(vecs, k, o);
    SkipMonotone(v, k, c);
    var k2, o1, o2 := Skip(vecs, i, a + c), Over(v, k, c), Over(vecs, i, a + c);
    if k2 == k {
      assert Cut(v, k2, o1) == Cut(vecs, k2, o2);
    } else if o > 0 {
      assert Cut(v, k2, o1)[k] != Cut(vecs, k2, o2)[k];
    }
  }

  // ----- a chain of bios -----

  /** bio_endio's verdict: an earlier error of the bio is remembered in BIO_UPTODATE. */
  function EndError(b: Bio, error: int): int {
    if error != 0 then error else if b.uptodate then 0 else EIO
  }

  /** The chain after n more bytes. */
  function Left(bios: seq<Bio>, n: nat, error: int): seq<Bio>
    requires ChainOk(bios)
  {
    if bios == [] then []
    else if n >= bios[0].size then Left(bios[1..], n - bios[0].size, error)
    else [Advanced(bios[0], n, error)] + bios[1..]
  }

  /** The bios that n more bytes finish. */
  function EndedBy(bios: seq<Bio>, n: nat, error: int): seq<Ended> {
    if bios == [] || n < bios[0].size then []
    else [Ended(bios[0].id, EndError(bios[0], error))] + EndedBy(bios[1..], n - bios[0].size, error)
  }

  predicate SameChain(x: seq<Bio>, y: seq<Bio>) {
    |x| == |y| && forall i :: 0 <= i < |x| ==> SameLeft(x[i], y[i])
  }

  /** The remaining bytes drop by exactly n, or to nothing. */
  lemma {:induction false} LeftOk(bios: seq<Bio>, n: nat, error: int)
    requires ChainOk(bios) && Whole(n)
    ensures ChainOk(Left(bios, n, error))
    ensures Bytes(Left(bios, n, error)) == if n <= Bytes(bios) then Bytes(bios) - n else 0
    ensures Left(bios, n, error) == [] <==> Bytes(bios) <= n
  {
    if bios != [] {
      if n >= bios[0].size {
        LeftOk(bios[1..], n - bios[0].size, error);
      } else {
        AdvancedOk(bios[0], n, error);
        assert Left(bios, n, error)[1..] == bios[1..];
      }
    }
  }

  /** Completing a bytes and then c bytes leaves the same work and ends the same bios, with the same
      errors, as completing a + c bytes. */
  lemma {:induction false} LeftTwice(bios: seq<Bio>, a: nat, c: nat, error: int)
    requires ChainOk(bios) && Whole(a) && Whole(c)
    ensures ChainOk(Left(bios, a, error))
    ensures SameChain(Left(Left(bios, a, error), c, error), Left(bios, a + c, error))
    ensures EndedBy(bios, a, error) + EndedBy(Left(bios, a, error), c, error) == EndedBy(bios, a + c, error)
    decreases |bios|, 1
  {
    if bios != [] {
      assert bios == [bios[0]] + bios[1..];
      MoreTwice(bios[0], bios[1..], a, c, error);
    }
  }

  lemma {:induction false} MoreTwice(b: Bio, rest: seq<Bio>, a: nat, c: nat, error: int)
    requires ChainOk([b] + rest) && Whole(a) && Whole(c)
    ensures var bios := [b] + rest;
            && ChainOk(Left(bios, a, error))
            && SameChain(Left(Left(bios, a, error), c, error), Left(bios, a + c, error))
            && EndedBy(bios, a, error) + EndedBy(Left(bios, a, error), c, error) == EndedBy(bios, a + c, error)
    decreases |rest| + 1, 0
  {
    hide Advanced, EndError, SameChain, Left, EndedBy, ChainOk, Len, Whole, Bytes;
    ChainParts(b, rest);
    LeftOk([b] + rest, a, error);
    if a >= b.size {
      WholeMinus(a, b.size);
      LeftTwice(rest, a - b.size, c, error);
      LaterTwice(b, rest, a, c, error);
    } else {
      FirstTwice(b, rest, a, c, error);
    }
  }

  lemma ChainParts(b: Bio, rest: seq<Bio>)
    requires ChainOk([b] + rest)
    ensures BioOk(b) && ChainOk(rest) && Whole(b.size)
  {
    assert forall i :: 0 <= i < |rest| ==> rest[i] == ([b] + rest)[i + 1];
    assert ([b] + rest)[0] == b;
  }

  lemma LaterTwice(b: Bio, rest: seq<Bio>, a: nat, c: nat, error: int)
    requires a >= b.size && ChainOk([b] + rest) && ChainOk(rest)
    requires ChainOk(Left(rest, a - b.size, error))
    requires SameChain(Left(Left(rest, a - b.size, error), c, error), Left(rest, a - b.size + c, error))
    requires EndedBy(rest, a - b.size, error) + EndedBy(Left(rest, a - b.size, error), c, error) ==
             EndedBy(rest, a - b.size + c, error)
    ensures var bios := [b] + rest;
            && ChainOk(Left(bios, a, error))
            && SameChain(Left(Left(bios, a, error), c, error), Left(bios, a + c, error))
            && EndedBy(bios, a, error) + EndedBy(Left(bios, a, error), c, error) == EndedBy(bios, a + c, error)
  {
    hide SameChain, ChainOk, EndError, Advanced;
    var bios := [b] + rest;
    assert bios[1..] == rest;
    var end := [Ended(b.id, EndError(b, error))];
    var x, y := EndedBy(rest, a - b.size, error), EndedBy(Left(rest, a - b.size, error), c, error);
    assert end + x + y == end + (x + y);
  }

  lemma FirstTwice(b: Bio, rest: seq<Bio>, a: nat, c: nat, error: int)
    requires BioOk(b) && ChainOk(rest) && Whole(a) && Whole(c) && a < b.size
    requires var bios := [b] + rest; ChainOk(bios) && ChainOk(Left(bios, a, error))
    ensures var bios := [b] + rest;
            && SameChain(Left(Left(bios, a, error), c, error), Left(bios, a + c, error))
            && EndedBy(bios, a, error) + EndedBy(Left(bios, a, error), c, error) == EndedBy(bios, a + c, error)
  {
    hide Advanced, BioOk, EndError;
    var bios, b' := [b] + rest, Advanced(b, a, error);
    AdvancedOk(b, a, error);
    AdvancedEnd(b, a, error);
    assert bios[1..] == rest;
    assert Left(bios, a, error)[1..] == rest;
    if c < b'.size {
      AdvancedTwice(b, a, c, error);
    }
  }

  lemma AdvancedEnd(b: Bio, n: nat, error: int)
    requires BioOk(b) && n < b.size
    ensures Advanced(b, n, error).id == b.id && EndError(Advanced(b, n, error), error) == EndError(b, error)
  {
  }

  // ----- the reference: the bytes of memory still to be transferred -----

  datatype Byte = Byte(page: nat, offset: nat)

  function VecStream(v: Vec): (s: seq<Byte>)
    ensures |s| == v.len && forall i :: 0 <= i < |s| ==> s[i] == Byte(v.page, v.offset + i)
  {
    seq(v.len, (i: nat) => Byte(v.page, v.offset + i))
  }

  function VecsStream(vecs: seq<Vec>, i: nat): seq<Byte>
    decreases |vecs| - i
  {
    if i >= |vecs| then [] else VecStream(vecs[i]) + VecsStream(vecs, i + 1)
  }

  function Stream(bios: seq<Bio>): seq<Byte> {
    if bios == [] then [] else VecsStream(bios[0].vecs, bios[0].idx) + Stream(bios[1..])
  }

  lemma {:induction false} StreamLen(vecs: seq<Vec>, i: nat)
    ensures |VecsStream(vecs, i)| == Len(vecs, i)
    decreases |vecs| - i
  {
    if i < |vecs| {
      StreamLen(vecs, i + 1);
    }
  }

  lemma {:induction false} StreamAbove(u: seq<Vec>, v: seq<Vec>, i: nat)
    requires SameFrom(u, v, i)
    ensures VecsStream(u, i) == VecsStream(v, i)
    decreases |u| - i
  {
    if i < |u| {
      StreamAbove(u, v, i + 1);
    }
  }

  lemma {:induction false} SkipStream(vecs: seq<Vec>, i: nat, n: nat)
    requires n < Len(vecs, i)
    ensures var k, o := Skip(vecs, i, n), Over(vecs, i, n);
            && k < |vecs| && o <= vecs[k].len && n <= |VecsStream(vecs, i)|
            && VecsStream(Cut(vecs, k, o), k) == VecsStream(vecs, i)[n..]
    decreases |vecs| - i
  {
    SkipBounds(vecs, i, n);
    StreamLen(vecs, i);
    if i < |vecs| && 0 < n && vecs[i].len <= n {
      SkipStream(vecs, i + 1, n - vecs[i].len);
      DropConcat(VecStream(vecs[i]), VecsStream(vecs, i + 1), n);
    } else {
      StreamAbove(vecs, Cut(vecs, i, n), i + 1);
      assert VecStream(Shrunk(vecs[i], n)) == VecStream(vecs[i])[n..];
    }
  }

  lemma DropConcat<T>(s: seq<T>, t: seq<T>, n: nat)
    requires |s| <= n <= |s| + |t|
    ensures (s + t)[n..] == t[n - |s|..]
  {
  }

  lemma AdvancedStream(b: Bio, n: nat, error: int)
    requires BioOk(b) && n < b.size
    ensures |VecsStream(b.vecs, b.idx)| == b.size
    ensures var b' := Advanced(b, n, error); VecsStream(b'.vecs, b'.idx) == VecsStream(b.vecs, b.idx)[n..]
  {
    StreamLen(b.vecs, b.idx);
    SkipStream(b.vecs, b.idx, n);
  }

  /** Completing n bytes drops exactly the first n bytes of the stream. */
  lemma {:induction false} LeftStream(bios: seq<Bio>, n: nat, error: int)
    requires ChainOk(bios) && n <= Bytes(bios)
    ensures |Stream(bios)| == Bytes(bios)
    ensures Stream(Left(bios, n, error)) == Stream(bios)[n..]
    decreases |bios|
  {
    if bios != [] {
      var b, rest := bios[0], bios[1..];
      assert BioOk(b) && ChainOk(rest) && bios == [b] + rest;
      hide Advanced, VecsStream, Len, Left, Stream, ChainOk;
      if n >= b.size {
        LaterStream(b, rest, n, error) by { LeftStream(rest, n - b.size, error); }
      } else {
        FirstStream(b, rest, n, error) by { LeftStream(rest, 0, error); }
      }
    }
  }

  lemma LaterStream(b: Bio, rest: seq<Bio>, n: nat, error: int)
    requires 0 < b.size <= n <= b.size + Bytes(rest) && BioOk(b) && ChainOk(rest) && ChainOk([b] + rest)
    requires |Stream(rest)| == Bytes(rest) && Stream(Left(rest, n - b.size, error)) == Stream(rest)[n - b.size..]
    ensures |Stream([b] + rest)| == b.size + Bytes(rest)
    ensures Stream(Left([b] + rest, n, error)) == Stream([b] + rest)[n..]
  {
    hide VecsStream, BioOk, ChainOk, Advanced;
    var bios, first := [b] + rest, VecsStream(b.vecs, b.idx);
    assert bios[1..] == rest;
    AdvancedStream(b, 0, error);
    assert Stream(bios) == first + Stream(rest);
    assert Left(bios, n, error) == Left(rest, n - b.size, error);
    DropConcat(first, Stream(rest), n);
  }

  lemma FirstStream(b: Bio, rest: seq<Bio>, n: nat, error: int)
    requires n < b.size && BioOk(b) && ChainOk([b] + rest) && |Stream(rest)| == Bytes(rest)
    ensures |Stream([b] + rest)| == b.size + Bytes(rest)
    ensures Stream(Left([b] + rest, n, error)) == Stream([b] + rest)[n..]
  {
    hide VecsStream, BioOk, ChainOk, Advanced;
    var bios, first := [b] + rest, VecsStream(b.vecs, b.idx);
    assert bios[1..] == rest;
    AdvancedStream(b, n, error);
    assert Left(bios, n, error)[1..] == rest;
    assert (first + Stream(rest))[n..] == first[n..] + Stream(rest);
  }

  // ----- the request's sector counts -----

  datatype Sectors = Sectors(hardSector: int, hardNr: int, sector: int, nr: int, current: int)

  /** blk_recalc_rq_sectors of a file system request whose first vector now has `cur` sectors. */
  function Recalculated(s: Sectors, nsect: int, cur: int): Sectors {
    var hs, hn := s.hardSector + nsect, s.hardNr - nsect;
    var t := if s.nr >= hn && s.sector <= hs then Sectors(hs, hn, hs, hn, cur)
             else s.(hardSector := hs, hardNr := hn);
    if t.nr < t.current then t.(nr := t.current) else t
  }

  lemma RecalculatedTwice(s: Sectors, a: int, c: int, cur1: int, cur2: int)
    requires 0 <= a && 0 <= c && s.current <= s.nr && cur1 <= s.hardNr - a && cur2 <= s.hardNr - a - c
    ensures Recalculated(Recalculated(s, a, cur1), c, cur2) == Recalculated(s, a + c, cur2)
    ensures Recalculated(s, a, cur1).current <= Recalculated(s, a, cur1).nr
  {
  }

  lemma RecalculatedMoves(s: Sectors, a: int, cur: int)
    ensures Recalculated(s, a, cur).hardSector == s.hardSector + a
  {
  }

  datatype Request = Request(bios: seq<Bio>, sectors: Sectors, ended: seq<Ended>)

  predicate RequestOk(r: Request) {
    ChainOk(r.bios) && r.sectors.hardNr * SECTOR == Bytes(r.bios) && r.sectors.current <= r.sectors.nr
  }

  /** bio_cur_sectors of the first bio. */
  function Current(bios: seq<Bio>): (cur: int)
    requires ChainOk(bios) && bios != []
    ensures cur * SECTOR <= Bytes(bios)
  {
    SkipBounds(bios[0].vecs, bios[0].idx, 0);
    bios[0].vecs[bios[0].idx].len / SECTOR
  }

  /** __end_that_request_first. */
  function Completed(r: Request, n: nat, error: int): Request
    requires ChainOk(r.bios) && Whole(n)
  {
    LeftOk(r.bios, n, error);
    var left := Left(r.bios, n, error);
    Request(left,
            if left == [] then r.sectors else Recalculated(r.sectors, n / SECTOR, Current(left)),
            r.ended + EndedBy(r.bios, n, error))
  }

  lemma CompletedOk(r: Request, n: nat, error: int)
    requires RequestOk(r) && Whole(n) && n < Bytes(r.bios)
    ensures RequestOk(Completed(r, n, error))
  {
    LeftOk(r.bios, n, error);
    var left := Left(r.bios, n, error);
    RecalculatedTwice(r.sectors, n / SECTOR, 0, Current(left), Current(left));
  }

  lemma SameCurrent(x: seq<Bio>, y: seq<Bio>)
    requires ChainOk(x) && ChainOk(y) && SameChain(x, y) && x != []
    ensures Current(x) == Current(y)
  {
    assert SameLeft(x[0], y[0]);
    SkipBounds(x[0].vecs, x[0].idx, 0);
  }

  /** The submission pointers are ahead of the completed sectors, or already where a completion of
      nothing would put them. */
  predicate PointersSettled(r: Request)
    requires ChainOk(r.bios) && r.bios != []
  {
    var s := r.sectors;
    || s.nr < s.hardNr || s.sector > s.hardSector
    || (s.nr == s.hardNr && s.sector == s.hardSector && s.current == Current(r.bios))
  }

  lemma SettledIff(r: Request)
    requires RequestOk(r) && r.bios != []
    ensures Recalculated(r.sectors, 0, Current(r.bios)) == r.sectors <==> PointersSettled(r)
  {
  }

  /** Partial completion is additive, except that a request that the second of two completions
      finishes keeps the sector counts the first one moved. */
  lemma {:induction false} CompletedTwice(r: Request, a: nat, c: nat, error: int)
    requires RequestOk(r) && Whole(a) && Whole(c)
    ensures ChainOk(Completed(r, a, error).bios)
    ensures var two, one := Completed(Completed(r, a, error), c, error), Completed(r, a + c, error);
            && SameChain(two.bios, one.bios) && two.ended == one.ended
            && (two.sectors == one.sectors <==>
                  a + c < Bytes(r.bios) || Bytes(r.bios) <= a || (a == 0 && PointersSettled(r)))
  {
    hide EndedBy, Left, Current, SameChain, BioOk, Recalculated, Bytes;
    LeftOk(r.bios, a, error);
    LeftOk(r.bios, a + c, error);
    LeftTwice(r.bios, a, c, error);
    var left1 := Left(r.bios, a, error);
    LeftOk(left1, c, error);
    SectorsAdd(a, c);
    if a + c < Bytes(r.bios) {
      var left2, left := Left(left1, c, error), Left(r.bios, a + c, error);
      SameCurrent(left2, left);
      RecalculatedTwice(r.sectors, a / SECTOR, c / SECTOR, Current(left1), Current(left2));
    } else if a < Bytes(r.bios) {
      assert r.bios != [] by { BytesOfNone(); }
      RecalculatedMoves(r.sectors, a / SECTOR, Current(left1));
      if a == 0 {
        NothingLeft(r.bios, error);
        SettledIff(r);
      }
    }
  }

  lemma BytesOfNone()
    ensures Bytes([]) == 0
  {
  }

  lemma NothingLeft(bios: seq<Bio>, error: int)
    requires ChainOk(bios)
    ensures Left(bios, 0, error) == bios
  {
  }

  // ----- every bio ends exactly once -----

  /** A completion the driver reports: how many bytes, and with what error. */
  datatype Chunk = Chunk(n: nat, error: int)

  function Sum(chunks: seq<Chunk>): nat {
    if chunks == [] then 0 else chunks[0].n + Sum(chunks[1..])
  }

  predicate SectorSized(chunks: seq<Chunk>) {
    forall i :: 0 <= i < |chunks| ==> Whole(chunks[i].n)
  }

  /** The bios ended by one completion after another. */
  function EndedByAll(bios: seq<Bio>, chunks: seq<Chunk>): seq<Ended>
    requires ChainOk(bios) && SectorSized(chunks)
    decreases |chunks|
  {
    if chunks == [] then []
    else
      var c := chunks[0];
      LeftOk(bios, c.n, c.error);
      EndedBy(bios, c.n, c.error) + EndedByAll(Left(bios, c.n, c.error), chunks[1..])
  }

  /** Completion j finishes what ends at byte `to` of the request. */
  predicate Finishes(chunks: seq<Chunk>, j: nat, to: nat)
    requires j < |chunks|
  {
    Sum(chunks[..j]) < to <= Sum(chunks[..j + 1])
  }

  /** Completion i transfers some of the bytes [from, to) of the request. */
  predicate Touches(chunks: seq<Chunk>, i: nat, from: nat, to: nat)
    requires i < |chunks|
  {
    0 < chunks[i].n && Sum(chunks[..i]) < to && from < Sum(chunks[..i + 1])
  }

  /** An earlier completion of some of those bytes failed. */
  predicate FailedBefore(chunks: seq<Chunk>, j: nat, from: nat, to: nat)
    requires j <= |chunks|
  {
    exists i :: 0 <= i < j && Touches(chunks, i, from, to) && chunks[i].error != 0
  }

  /** What a bio over bytes [from, to) reports when completion j finishes it: that completion's error,
      or EIO if only an earlier one that touched it, or one before the request was queued, failed. */
  function Verdict(b: Bio, chunks: seq<Chunk>, j: nat, from: nat, to: nat): int
    requires j < |chunks|
  {
    if chunks[j].error != 0 then chunks[j].error
    else if b.uptodate && !FailedBefore(chunks, j, from, to) then 0
    else EIO
  }

  lemma SumFirst(chunks: seq<Chunk>, i: nat)
    requires 0 < i <= |chunks|
    ensures Sum(chunks[..i]) == chunks[0].n + Sum(chunks[1..][..i - 1])
  {
    assert chunks[..i][1..] == chunks[1..][..i - 1];
  }

  /** Seen from behind the first completion, the bytes are that much nearer. */
  lemma TouchesShift(chunks: seq<Chunk>, i: nat, from: nat, to: nat)
    requires i + 1 < |chunks| && chunks[0].n < to
    ensures var n := chunks[0].n;
            Touches(chunks[1..], i, if from < n then 0 else from - n, to - n) <==> Touches(chunks, i + 1, from, to)
  {
    hide Sum;
    SumFirst(chunks, i + 1);
    SumFirst(chunks, i + 2);
    SumGrows(chunks[1..], i);
  }

  lemma SumGrows(chunks: seq<Chunk>, i: nat)
    requires i < |chunks|
    ensures Sum(chunks[..i + 1]) == Sum(chunks[..i]) + chunks[i].n
  {
    assert chunks[..i + 1] == chunks[..i] + [chunks[i]];
    SumAppend(chunks[..i], chunks[i]);
  }

  lemma {:induction false} SumAppend(chunks: seq<Chunk>, c: Chunk)
    ensures Sum(chunks + [c]) == Sum(chunks) + c.n
  {
    if chunks == [] {
      assert chunks + [c] == [c];
    } else {
      assert (chunks + [c])[1..] == chunks[1..] + [c];
      SumAppend(chunks[1..], c);
    }
  }

  /** The k-th bio after one completion that finishes it. */
  lemma {:induction false} EndedAt(bios: seq<Bio>, n: nat, error: int, k: nat)
    requires k < |bios| && Bytes(bios[..k]) + bios[k].size <= n
    ensures k < |EndedBy(bios, n, error)|
    ensures EndedBy(bios, n, error)[k] == Ended(bios[k].id, EndError(bios[k], error))
    decreases |bios|
  {
    if k > 0 {
      assert bios[..k][1..] == bios[1..][..k - 1];
      EndedAt(bios[1..], n - bios[0].size, error, k - 1);
    }
  }

  /** The k-th bio after one completion that does not finish it: what is left of it, and where. */
  lemma {:induction false} LeftAt(bios: seq<Bio>, n: nat, error: int, k: nat)
    requires ChainOk(bios) && k < |bios| && n < Bytes(bios[..k]) + bios[k].size
    ensures var from, done, left := Bytes(bios[..k]), |EndedBy(bios, n, error)|, Left(bios, n, error);
            && done <= k < done + |left|
            && var b := left[k - done];
            && b.id == bios[k].id && b.size == bios[k].size - (if from < n then n - from else 0)
            && b.uptodate == (bios[k].uptodate && (from < n ==> error == 0))
            && Bytes(left[..k - done]) == if from < n then 0 else from - n
    decreases |bios|
  {
    hide Len, BioOk;
    if n >= bios[0].size {
      assert bios[..k][1..] == bios[1..][..k - 1];
      LeftAt(bios[1..], n - bios[0].size, error, k - 1);
    } else {
      FirstLeft(bios, n, error, k);
    }
  }

  lemma FirstLeft(bios: seq<Bio>, n: nat, error: int, k: nat)
    requires ChainOk(bios) && k < |bios| && n < bios[0].size
    ensures Left(bios, n, error) == [Advanced(bios[0], n, error)] + bios[1..] && EndedBy(bios, n, error) == []
    ensures Advanced(bios[0], n, error).size == bios[0].size - n
    ensures Bytes(Left(bios, n, error)[..k]) == if k == 0 then 0 else Bytes(bios[..k]) - n
    ensures Bytes(bios[..k]) >= if k == 0 then 0 else bios[0].size
  {
    var left := Left(bios, n, error);
    if k > 0 {
      assert left[..k][1..] == bios[..k][1..];
    }
  }

  /** However a driver splits its completions and whatever errors it reports, by the time they cover the
      request every bio has been ended once, in order, by the completion j that finished it. */
  lemma {:induction false} EachBioEndsOnce(bios: seq<Bio>, chunks: seq<Chunk>, k: nat) returns (j: nat)
    requires ChainOk(bios) && SectorSized(chunks) && Bytes(bios) <= Sum(chunks) && k < |bios|
    ensures |EndedByAll(bios, chunks)| == |bios|
    ensures j < |chunks|
    ensures var from, to := Bytes(bios[..k]), Bytes(bios[..k]) + bios[k].size;
            && Finishes(chunks, j, to)
            && EndedByAll(bios, chunks)[k] == Ended(bios[k].id, Verdict(bios[k], chunks, j, from, to))
    decreases |chunks|
  {
    var from, to := Bytes(bios[..k]), Bytes(bios[..k]) + bios[k].size;
    BytesUpTo(bios, k);
    AllEnded(bios, chunks);
    assert BioOk(bios[k]);
    var c := chunks[0];
    LeftOk(bios, c.n, c.error);
    assert chunks[..0] == [];
    SumFirst(chunks, 1);
    if to <= c.n {
      j := 0;
      EndedAt(bios, c.n, c.error, k);
    } else {
      j := EndsLater(bios, chunks, k);
    }
  }

  lemma OneByOne(bios: seq<Bio>, chunks: seq<Chunk>)
    requires ChainOk(bios) && SectorSized(chunks) && Bytes(bios) <= Sum(chunks) && chunks != []
    ensures var c, rest := chunks[0], chunks[1..];
            && ChainOk(Left(bios, c.n, c.error)) && SectorSized(rest) && Bytes(Left(bios, c.n, c.error)) <= Sum(rest)
            && EndedByAll(bios, chunks) == EndedBy(bios, c.n, c.error) + EndedByAll(Left(bios, c.n, c.error), rest)
  {
    hide Left, EndedBy, Bytes;
    LeftOk(bios, chunks[0].n, chunks[0].error);
  }

  lemma {:induction false} EndsLater(bios: seq<Bio>, chunks: seq<Chunk>, k: nat) returns (j: nat)
    requires ChainOk(bios) && SectorSized(chunks) && Bytes(bios) <= Sum(chunks) && k < |bios| && chunks != []
    requires chunks[0].n < Bytes(bios[..k]) + bios[k].size && bios[k].size > 0
    ensures k < |EndedByAll(bios, chunks)|
    ensures j < |chunks|
    ensures var from, to := Bytes(bios[..k]), Bytes(bios[..k]) + bios[k].size;
            && Finishes(chunks, j, to)
            && EndedByAll(bios, chunks)[k] == Ended(bios[k].id, Verdict(bios[k], chunks, j, from, to))
    decreases |chunks|, 0
  {
    hide Left, EndedBy, ChainOk, Bytes, Touches, Whole, Finishes, Verdict, EndedByAll, Sum, SectorSized;
    var from, to := Bytes(bios[..k]), Bytes(bios[..k]) + bios[k].size;
    var c, rest := chunks[0], chunks[1..];
    var left, done := Left(bios, c.n, c.error), |EndedBy(bios, c.n, c.error)|;
    OneByOne(bios, chunks);
    LeftAt(bios, c.n, c.error, k);
    var j' := EachBioEndsOnce(left, rest, k - done);
    j := j' + 1;
    FinishesShift(chunks, j', to);
    VerdictShift(bios[k], left[k - done], chunks, j', from, to);
  }

  lemma FinishesShift(chunks: seq<Chunk>, j: nat, to: nat)
    requires j + 1 < |chunks| && chunks[0].n < to
    ensures Finishes(chunks[1..], j, to - chunks[0].n) <==> Finishes(chunks, j + 1, to)
  {
    hide Sum;
    SumFirst(chunks, j + 1);
    SumFirst(chunks, j + 2);
  }

  lemma VerdictShift(b: Bio, b': Bio, chunks: seq<Chunk>, j: nat, from: nat, to: nat)
    requires j + 1 < |chunks| && chunks[0].n < to && from < to
    requires b'.uptodate == (b.uptodate && (from < chunks[0].n ==> chunks[0].error == 0))
    ensures var n := chunks[0].n;
            Verdict(b', chunks[1..], j, if from < n then 0 else from - n, to - n) == Verdict(b, chunks, j + 1, from, to)
  {
    hide Touches;
    var n, rest := chunks[0].n, chunks[1..];
    var from' := if from < n then 0 else from - n;
    assert Touches(chunks, 0, from, to) <==> from < n by { FirstTouches(chunks, from, to); }
    if FailedBefore(chunks, j + 1, from, to) {
      var i :| 0 <= i < j + 1 && Touches(chunks, i, from, to) && chunks[i].error != 0;
      if i > 0 {
        TouchesShift(chunks, i - 1, from, to);
        assert Touches(rest, i - 1, from', to - n) && rest[i - 1].error != 0;
      }
    }
    if FailedBefore(rest, j, from', to - n) {
      var i :| 0 <= i < j && Touches(rest, i, from', to - n) && rest[i].error != 0;
      TouchesShift(chunks, i, from, to);
      assert Touches(chunks, i + 1, from, to) && chunks[i + 1].error != 0;
    }
  }

  lemma FirstTouches(chunks: seq<Chunk>, from: nat, to: nat)
    requires chunks != [] && from < to
    ensures Touches(chunks, 0, from, to) <==> from < chunks[0].n
  {
    assert chunks[..0] == [];
    SumFirst(chunks, 1);
    assert chunks[1..][..0] == [];
  }

  lemma {:induction false} BytesUpTo(bios: seq<Bio>, k: nat)
    requires k < |bios|
    ensures Bytes(bios[..k]) + bios[k].size <= Bytes(bios)
  {
    if k > 0 {
      assert bios[..k][1..] == bios[1..][..k - 1];
      BytesUpTo(bios[1..], k - 1);
    }
  }

  lemma {:induction false} EndedOrLeft(bios: seq<Bio>, n: nat, error: int)
    requires ChainOk(bios)
    ensures |EndedBy(bios, n, error)| + |Left(bios, n, error)| == |bios|
  {
    if bios != [] && n >= bios[0].size {
      EndedOrLeft(bios[1..], n - bios[0].size, error);
    }
  }

  lemma {:induction false} AllEnded(bios: seq<Bio>, chunks: seq<Chunk>)
    requires ChainOk(bios) && SectorSized(chunks) && Bytes(bios) <= Sum(chunks)
    ensures |EndedByAll(bios, chunks)| == |bios|
    decreases |chunks|
  {
    hide Left, EndedBy;
    if chunks != [] {
      var c := chunks[0];
      LeftOk(bios, c.n, c.error);
      EndedOrLeft(bios, c.n, c.error);
      AllEnded(Left(bios, c.n, c.error), chunks[1..]);
    }
  }
}

/** struct request as an object whose completion loop computes Completion.Completed. */
module CompletionLoop {
  import opened Completion

  /** The walk has passed `passed` vectors of b, holding `part` bytes, and has n bytes to go. */
  predicate Midway(b: Bio, passed: nat, part: nat, n: nat) {
    && b.idx + passed <= |b.vecs| && part + Len(b.vecs, b.idx + passed) == b.size
    && (passed == 0 ==> part == 0)
    && (passed > 0 ==> n > 0 && n + part < b.size)
    && (n > 0 ==>
          && Skip(b.vecs, b.idx, n + part) == Skip(b.vecs, b.idx + passed, n)
          && Over(b.vecs, b.idx, n + part) == Over(b.vecs, b.idx + passed, n))
  }

  /** The walk has stopped there, with `over` bytes of the next vector done. */
  predicate Stopped(b: Bio, passed: nat, over: nat, part: nat) {
    part < b.size &&
    (part > 0 ==> b.idx + passed == Skip(b.vecs, b.idx, part) && over == Over(b.vecs, b.idx, part))
  }

  lemma MidwayStart(b: Bio, n: nat)
    requires BioOk(b)
    ensures Midway(b, 0, 0, n) && Stopped(b, 0, 0, 0)
  {
  }

  /** One turn of the loop inside a bio that is not finished. */
  lemma MidwayStep(b: Bio, passed: nat, part: nat, n: nat)
    requires BioOk(b) && Midway(b, passed, part, n) && n < b.size
    ensures b.idx + passed < |b.vecs|
    ensures var len := b.vecs[b.idx + passed].len;
            if len > n then Stopped(b, passed, n, part + n)
            else if len == n then Stopped(b, passed + 1, 0, part + n)
            else Midway(b, passed + 1, part + len, n - len)
  {
    var i := b.idx + passed;
    assert Skip(b.vecs, i + 1, 0) == i + 1 && Over(b.vecs, i + 1, 0) == 0;
  }

  /** Finishing the bio that the walk stopped in. */
  function Settled(b: Bio, passed: nat, over: nat, part: nat, error: int): Bio
    requires BioOk(b) && Stopped(b, passed, over, part)
  {
    SkipBounds(b.vecs, b.idx, part);
    if part == 0 then b
    else Bio(b.id, b.sector + part / SECTOR, b.size - part, b.idx + passed, Cut(b.vecs, b.idx + passed, over),
             b.uptodate && error == 0)
  }

  class Rq {
    var bios: seq<Bio>
    var sectors: Sectors
    var ended: seq<Ended>     // bio_endio calls so far

    function View(): Request
      reads this
    {
      Request(bios, sectors, ended)
    }

    constructor (r: Request)
      ensures View() == r
    {
      bios, sectors, ended := r.bios, r.sectors, r.ended;
    }

    /** req_bio_endio for the first bio, when all of it is done. */
    method EndFirst(error: int)
      requires bios != []
      modifies this`bios, this`ended
      ensures bios == old(bios)[1..]
      ensures ended == old(ended) + [Ended(old(bios[0].id), EndError(old(bios[0]), error))]
    {
      var verdict := error;
      if error == 0 && !bios[0].uptodate {
        verdict := EIO;
      }
      ended := ended + [Ended(bios[0].id, verdict)];
      bios := bios[1..];
    }

    /** The walk over bios and vectors. */
    method Walk(nrBytes: nat, error: int) returns (total: nat, passed: nat, over: nat, part: nat)
      requires ChainOk(bios)
      modifies this`bios, this`ended
      ensures ChainOk(bios) && ended == old(ended) + EndedBy(old(bios), nrBytes, error)
      ensures bios == [] ==> Left(old(bios), nrBytes, error) == []
      ensures bios != [] ==>
                && total == nrBytes && Stopped(bios[0], passed, over, part)
                && Left(old(bios), nrBytes, error) == [Advanced(bios[0], part, error)] + bios[1..]
    {
      hide Skip, Over, Len, Advanced, EndError, Stopped, Midway;
      var n: nat := nrBytes;
      total, passed, part := 0, 0, 0;
      if bios != [] {
        MidwayStart(bios[0], n);
      }
      while bios != []
        invariant ChainOk(bios) && total + n == nrBytes
        invariant bios != [] ==> Midway(bios[0], passed, part, n)
        invariant bios != [] ==> part == 0 || n + part < bios[0].size
        invariant Left(old(bios), nrBytes, error) == Left(bios, n + part, error)
        invariant ended + EndedBy(bios, n + part, error) == old(ended) + EndedBy(old(bios), nrBytes, error)
        decreases |bios|, if bios == [] then 0 else |bios[0].vecs| - bios[0].idx - passed
      {
        var nbytes: nat;
        if n >= bios[0].size {
          nbytes := bios[0].size;
          EndFirst(error);
          passed, part := 0, 0;
          if bios != [] {
            MidwayStart(bios[0], n - nbytes);
          }
        } else {
          MidwayStep(bios[0], passed, part, n);
          nbytes := bios[0].vecs[bios[0].idx + passed].len;
          if nbytes > n {
            part, total := part + n, total + n;
            break;
          }
          passed, part := passed + 1, part + nbytes;
        }
        total, n := total + nbytes, n - nbytes;
        if bios != [] && n == 0 {
          break;
        }
      }
      over := n;
    }

    /** __end_that_request_first: false when the request is done. */
    method EndThatRequestFirst(error: int, nrBytes: nat) returns (pending: bool)
      requires RequestOk(View()) && Whole(nrBytes)
      modifies this
      ensures View() == Completed(old(View()), nrBytes, error)
      ensures pending <==> nrBytes < old(Bytes(bios))
      ensures pending ==> RequestOk(View())
    {
      hide Skip, Over, Len, EndError, Left, EndedBy, Recalculated;
      LeftOk(bios, nrBytes, error);
      if nrBytes < Bytes(bios) {
        CompletedOk(View(), nrBytes, error);
      }
      var total, passed, over, part := Walk(nrBytes, error);
      if bios == [] {
        return false;
      }
      bios := [Settled(bios[0], passed, over, part, error)] + bios[1..];
      sectors := Recalculated(sectors, total / SECTOR, Current(bios));
      pending := true;
    }
  }
}
