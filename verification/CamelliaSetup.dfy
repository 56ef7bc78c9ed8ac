/** camellia_setup_tail on arrays: it absorbs kw2 and kw4 into the other subkeys, moves each
    key to the end of its round and undoes the last half of P, and what comes out are the
    keys under which the fast cipher is the plain one. */
module CamelliaSetup {
  import opened Words
  import opened Camellia
  import opened CamelliaCipher

  /** kw2 as it passes the FLInv layers before block b. */
  function Kw2(raw: seq<Half>, n: nat, b: nat): Half
    requires Shape(raw, n) && b < n
  {
    if b == 0 then raw[1] else FLInvLin(Kw2(raw, n, b - 1), raw[8 * b + 1])
  }

  /** kw4 as it passes the FL layers after block b, backwards. */
  function Kw4(raw: seq<Half>, n: nat, b: nat): Half
    requires Shape(raw, n) && b < n
    decreases n - b
  {
    if b + 1 == n then raw[8 * n + 1] else FLInvLin(Kw4(raw, n, b + 1), raw[8 * b + 8])
  }

  /** Three keys of `raw`, two apart, have had w added in `cur`. */
  predicate Tripled(raw: seq<Half>, cur: seq<Half>, i: nat, w: Half)
    requires i + 4 < |raw| == |cur|
  {
    cur[i] == Xor(raw[i], w) && cur[i + 2] == Xor(raw[i + 2], w) && cur[i + 4] == Xor(raw[i + 4], w)
  }

  predicate AbsorbedBlock(raw: seq<Half>, n: nat, cur: seq<Half>, b: nat)
    requires Shape(raw, n) && |cur| == |raw| && b < n
  {
    && Tripled(raw, cur, 8 * b + 3, Kw2(raw, n, b))
    && Tripled(raw, cur, 8 * b + 2, Kw4(raw, n, b))
    && (b + 1 < n ==> cur[8 * b + 8] == raw[8 * b + 8] && cur[8 * b + 9] == raw[8 * b + 9])
  }

  /** kw2 and kw4 have been absorbed. */
  predicate Absorbed(raw: seq<Half>, n: nat, cur: seq<Half>)
    requires Shape(raw, n) && |cur| == |raw|
  {
    && cur[0] == Xor(raw[0], Kw4(raw, n, 0))
    && cur[8 * n] == Xor(raw[8 * n], Kw2(raw, n, n - 1))
    && (forall b :: 0 <= b < n ==> AbsorbedBlock(raw, n, cur, b))
  }

  /** The keys of block b added at the end of the rounds, from absorbed keys `cur`. */
  predicate EndKeys(cur: seq<Half>, n: nat, ek: seq<Half>, b: nat)
    requires Shape(cur, n) && |ek| == |cur| && b < n
  {
    var i := 8 * b;
    && ek[i + 2] == (if b == 0 then cur[3] else Xor(FLInvLin(cur[i - 1], cur[i + 1]), cur[i + 3]))
    && ek[i + 3] == Xor(cur[i + 2], cur[i + 4])
    && ek[i + 4] == Xor(cur[i + 3], cur[i + 5])
    && ek[i + 5] == Xor(cur[i + 4], cur[i + 6])
    && ek[i + 6] == Xor(cur[i + 5], cur[i + 7])
    && ek[i + 7] == (if b + 1 == n then cur[i + 6] else Xor(cur[i + 6], FLInvLin(cur[i + 10], cur[i + 8])))
    && (b + 1 < n ==> ek[i + 8] == cur[i + 8] && ek[i + 9] == cur[i + 9])
  }

  /** The last step of setup on the round keys of block b. */
  predicate Undone(ek: seq<Half>, sk: seq<Half>, b: nat)
    requires |ek| == |sk| && 8 * b + 9 < |ek|
  {
    var i := 8 * b;
    && sk[i + 2] == UndoP(ek[i + 2]) && sk[i + 3] == UndoP(ek[i + 3]) && sk[i + 4] == UndoP(ek[i + 4])
    && sk[i + 5] == UndoP(ek[i + 5]) && sk[i + 6] == UndoP(ek[i + 6]) && sk[i + 7] == UndoP(ek[i + 7])
    && sk[i + 8] == ek[i + 8] && sk[i + 9] == ek[i + 9]
  }

  lemma XorCommute(a: Half, b: Half)
    ensures Xor(a, b) == Xor(b, a)
  {
    hide Xor32;
    XorComm(a.l, b.l);
    XorComm(a.r, b.r);
  }

  /** Inside a block the absorbed keys cancel out again. */
  lemma AbsorbedCancels(raw: seq<Half>, n: nat, cur: seq<Half>, b: nat)
    requires Shape(raw, n) && |cur| == |raw| && b < n && AbsorbedBlock(raw, n, cur, b)
    ensures var i := 8 * b;
            && Xor(cur[i + 2], cur[i + 4]) == Xor(raw[i + 2], raw[i + 4])
            && Xor(cur[i + 3], cur[i + 5]) == Xor(raw[i + 3], raw[i + 5])
            && Xor(cur[i + 4], cur[i + 6]) == Xor(raw[i + 4], raw[i + 6])
            && Xor(cur[i + 5], cur[i + 7]) == Xor(raw[i + 5], raw[i + 7])
  {
    hide Xor, FLInvLin;
    var i, w, v := 8 * b, Kw2(raw, n, b), Kw4(raw, n, b);
    CommonMask(raw[i + 2], raw[i + 4], v);
    CommonMask(raw[i + 3], raw[i + 5], w);
    CommonMask(raw[i + 4], raw[i + 6], v);
    CommonMask(raw[i + 5], raw[i + 7], w);
  }

  /** Where a block begins, what is left of kw2 is exactly the mask on the second half. */
  lemma FirstKey(raw: seq<Half>, n: nat, cur: seq<Half>, b: nat)
    requires Shape(raw, n) && |cur| == |raw| && b < n && Absorbed(raw, n, cur)
    ensures (if b == 0 then cur[3] else Xor(FLInvLin(cur[8 * b - 1], cur[8 * b + 1]), cur[8 * b + 3])) ==
            Xor(MaskIn(raw, n, b), raw[8 * b + 3])
  {
    hide Xor, FLInvLin;
    assert AbsorbedBlock(raw, n, cur, b);
    if b == 0 {
      XorCommute(raw[3], raw[1]);
    } else {
      assert AbsorbedBlock(raw, n, cur, b - 1);
      var k, w := raw[8 * b + 1], Kw2(raw, n, b - 1);
      assert cur[8 * b - 1] == Xor(raw[8 * b - 1], w);
      FLInvLinXor(raw[8 * b - 1], w, k);
      CommonMask(FLInvLin(raw[8 * b - 1], k), raw[8 * b + 3], FLInvLin(w, k));
    }
  }

  /** Where a block ends, what is left of kw4 is exactly the mask on the first half. */
  lemma LastKey(raw: seq<Half>, n: nat, cur: seq<Half>, b: nat)
    requires Shape(raw, n) && |cur| == |raw| && b < n && Absorbed(raw, n, cur)
    ensures (if b + 1 == n then cur[8 * b + 6] else Xor(cur[8 * b + 6], FLInvLin(cur[8 * b + 10], cur[8 * b + 8]))) ==
            Xor(raw[8 * b + 6], MaskOut(raw, n, b))
  {
    hide Xor, FLInvLin;
    assert AbsorbedBlock(raw, n, cur, b);
    if b + 1 < n {
      assert AbsorbedBlock(raw, n, cur, b + 1);
      var k, v := raw[8 * b + 8], Kw4(raw, n, b + 1);
      assert cur[8 * b + 10] == Xor(raw[8 * b + 10], v);
      FLInvLinXor(raw[8 * b + 10], v, k);
      CommonMask(raw[8 * b + 6], FLInvLin(raw[8 * b + 10], k), FLInvLin(v, k));
    }
  }

  lemma SetupBlock(raw: seq<Half>, n: nat, cur: seq<Half>, ek: seq<Half>, sk: seq<Half>, b: nat)
    requires Shape(raw, n) && |cur| == |raw| == |ek| == |sk| && b < n
    requires Absorbed(raw, n, cur) && EndKeys(cur, n, ek, b) && Undone(ek, sk, b)
    ensures BlockKeys(raw, n, sk, b)
  {
    hide Xor, FLInvLin, UndoP, MaskIn, MaskOut;
    assert AbsorbedBlock(raw, n, cur, b);
    AbsorbedCancels(raw, n, cur, b);
    FirstKey(raw, n, cur, b);
    LastKey(raw, n, cur, b);
  }

  /** The three stages of setup produce the keys the fast cipher needs. */
  lemma SetupGivesFastKeys(raw: seq<Half>, n: nat, cur: seq<Half>, ek: seq<Half>, sk: seq<Half>)
    requires Shape(raw, n) && |cur| == |raw| == |ek| == |sk| && Absorbed(raw, n, cur)
    requires ek[0] == Xor(cur[0], cur[2]) && ek[8 * n] == Xor(cur[8 * n], cur[8 * n - 1])
    requires forall b :: 0 <= b < n ==> EndKeys(cur, n, ek, b)
    requires sk[0] == ek[0] && sk[8 * n] == ek[8 * n]
    requires forall b :: 0 <= b < n ==> Undone(ek, sk, b)
    ensures FastKeys(raw, n, sk)
  {
    hide Xor, FLInvLin, UndoP, EndKeys, Undone, BlockKeys;
    forall b | 0 <= b < n ensures BlockKeys(raw, n, sk, b) {
      assert EndKeys(cur, n, ek, b) && Undone(ek, sk, b);
      SetupBlock(raw, n, cur, ek, sk, b);
    }
    assert AbsorbedBlock(raw, n, cur, 0) && AbsorbedBlock(raw, n, cur, n - 1);
    CommonMask(raw[0], raw[2], Kw4(raw, n, 0));
    CommonMask(raw[8 * n], raw[8 * n - 1], Kw2(raw, n, n - 1));
  }

  // ----- the code -----

  /** Add w to three keys of the same parity. */
  method AddTriple(sub: array<Half>, i: nat, w: Half)
    requires i + 4 < sub.Length
    modifies sub
    ensures Tripled(old(sub[..]), sub[..], i, w)
    ensures forall j :: 0 <= j < sub.Length && j != i && j != i + 2 && j != i + 4 ==> sub[j] == old(sub[j])
  {
    hide Xor;
    sub[i] := Xor(sub[i], w);
    sub[i + 2] := Xor(sub[i + 2], w);
    sub[i + 4] := Xor(sub[i + 4], w);
  }

  /** The keys of block c for rounds that read the first half; for those that read the
      second half; and the FL keys after the block. */
  predicate FirstSame(raw: seq<Half>, cur: seq<Half>, c: nat)
    requires 8 * c + 9 < |raw| == |cur|
  {
    cur[8 * c + 2] == raw[8 * c + 2] && cur[8 * c + 4] == raw[8 * c + 4] && cur[8 * c + 6] == raw[8 * c + 6]
  }

  predicate SecondSame(raw: seq<Half>, cur: seq<Half>, c: nat)
    requires 8 * c + 9 < |raw| == |cur|
  {
    cur[8 * c + 3] == raw[8 * c + 3] && cur[8 * c + 5] == raw[8 * c + 5] && cur[8 * c + 7] == raw[8 * c + 7]
  }

  predicate LayerSame(raw: seq<Half>, cur: seq<Half>, c: nat)
    requires 8 * c + 9 < |raw| == |cur|
  {
    cur[8 * c + 8] == raw[8 * c + 8] && cur[8 * c + 9] == raw[8 * c + 9]
  }

  predicate FirstAdded(raw: seq<Half>, n: nat, cur: seq<Half>, c: nat)
    requires Shape(raw, n) && |cur| == |raw| && c < n
  {
    Tripled(raw, cur, 8 * c + 2, Kw4(raw, n, c))
  }

  predicate SecondAdded(raw: seq<Half>, n: nat, cur: seq<Half>, c: nat)
    requires Shape(raw, n) && |cur| == |raw| && c < n
  {
    Tripled(raw, cur, 8 * c + 3, Kw2(raw, n, c))
  }

  /** kw2 has been absorbed by the blocks before b, and nothing else has changed. */
  predicate Kw2Before(raw: seq<Half>, n: nat, cur: seq<Half>, b: nat)
    requires Shape(raw, n) && |cur| == |raw| && b <= n
  {
    && cur[0] == raw[0]
    && (forall c :: 0 <= c < n ==> FirstSame(raw, cur, c) && LayerSame(raw, cur, c))
    && (forall c :: 0 <= c < b ==> SecondAdded(raw, n, cur, c))
    && (forall c :: b <= c < n ==> SecondSame(raw, cur, c))
  }

  lemma Kw2Step(raw: seq<Half>, n: nat, cur: seq<Half>, next: seq<Half>, b: nat)
    requires Shape(raw, n) && |next| == |cur| == |raw| && b < n && Kw2Before(raw, n, cur, b)
    requires Tripled(cur, next, 8 * b + 3, Kw2(raw, n, b))
    requires forall j :: 0 <= j < |cur| && j != 1 && j != 8 * b + 3 && j != 8 * b + 5 && j != 8 * b + 7 ==> next[j] == cur[j]
    ensures Kw2Before(raw, n, next, b + 1)
  {
    hide Xor, Kw2;
    forall c | 0 <= c < n ensures FirstSame(raw, next, c) && LayerSame(raw, next, c) {
      assert FirstSame(raw, cur, c) && LayerSame(raw, cur, c);
    }
    forall c | 0 <= c < b + 1 ensures SecondAdded(raw, n, next, c) {
      if c < b {
        assert SecondAdded(raw, n, cur, c);
      } else {
        assert SecondSame(raw, cur, c);
      }
    }
    forall c | b + 1 <= c < n ensures SecondSame(raw, next, c) {
      assert SecondSame(raw, cur, c);
    }
  }

  /** The second-half round keys of block b absorb kw2, which then passes the next FLInv. */
  method AbsorbKw2Block(sub: array<Half>, ghost raw: seq<Half>, ghost n: nat, b: nat, last: bool)
    requires Shape(raw, n) && sub.Length == |raw| && b < n && (last <==> b + 1 == n)
    requires Kw2Before(raw, n, sub[..], b) && sub[1] == Kw2(raw, n, b)
    modifies sub
    ensures Kw2Before(raw, n, sub[..], b + 1)
    ensures sub[1] == Kw2(raw, n, if last then b else b + 1)
  {
    hide Xor, FLInvLin, Kw2Before;
    assert LayerSame(raw, sub[..], b) by { LayerOf(raw, n, sub[..], b); }
    ghost var cur := sub[..];
    AddTriple(sub, 8 * b + 3, sub[1]);
    if !last {
      sub[1] := FLInvLin(sub[1], sub[8 * b + 9]);
    }
    Kw2Step(raw, n, cur, sub[..], b);
  }

  lemma LayerOf(raw: seq<Half>, n: nat, cur: seq<Half>, b: nat)
    requires Shape(raw, n) && |cur| == |raw| && b < n && Kw2Before(raw, n, cur, b)
    ensures LayerSame(raw, cur, b)
  {
  }

  /** kw2 is absorbed everywhere, kw4 by the blocks from b on. */
  predicate Kw4From(raw: seq<Half>, n: nat, cur: seq<Half>, b: nat)
    requires Shape(raw, n) && |cur| == |raw| && b <= n
  {
    && cur[0] == raw[0]
    && cur[8 * n] == Xor(raw[8 * n], Kw2(raw, n, n - 1))
    && (forall c :: 0 <= c < n ==> SecondAdded(raw, n, cur, c))
    && (forall c :: 0 <= c < n - 1 ==> LayerSame(raw, cur, c))
    && (forall c :: b <= c < n ==> FirstAdded(raw, n, cur, c))
    && (forall c :: 0 <= c < b ==> FirstSame(raw, cur, c))
  }

  lemma Kw4Start(raw: seq<Half>, n: nat, cur: seq<Half>, next: seq<Half>)
    requires Shape(raw, n) && |next| == |cur| == |raw| && Kw2Before(raw, n, cur, n)
    requires next == cur[8 * n := Xor(cur[8 * n], Kw2(raw, n, n - 1))]
    ensures Kw4From(raw, n, next, n) && next[8 * n + 1] == raw[8 * n + 1]
  {
    hide Xor, Kw2;
    assert LayerSame(raw, cur, n - 1);
    forall c | 0 <= c < n ensures SecondAdded(raw, n, next, c) && FirstSame(raw, next, c) {
      assert SecondAdded(raw, n, cur, c) && FirstSame(raw, cur, c);
    }
    forall c | 0 <= c < n - 1 ensures LayerSame(raw, next, c) {
      assert LayerSame(raw, cur, c);
    }
  }

  lemma Kw4Step(raw: seq<Half>, n: nat, cur: seq<Half>, next: seq<Half>, b: nat)
    requires Shape(raw, n) && |next| == |cur| == |raw| && b < n && Kw4From(raw, n, cur, b + 1)
    requires Tripled(cur, next, 8 * b + 2, Kw4(raw, n, b))
    requires forall j :: 0 <= j < |cur| && j != 8 * b + 2 && j != 8 * b + 4 && j != 8 * b + 6 ==> next[j] == cur[j]
    ensures Kw4From(raw, n, next, b)
  {
    hide Xor, Kw2, Kw4;
    forall c | 0 <= c < n ensures SecondAdded(raw, n, next, c) {
      assert SecondAdded(raw, n, cur, c);
    }
    forall c | 0 <= c < n - 1 ensures LayerSame(raw, next, c) {
      assert LayerSame(raw, cur, c);
    }
    forall c | b <= c < n ensures FirstAdded(raw, n, next, c) {
      if c > b {
        assert FirstAdded(raw, n, cur, c);
      } else {
        assert FirstSame(raw, cur, c);
      }
    }
    forall c | 0 <= c < b ensures FirstSame(raw, next, c) {
      assert FirstSame(raw, cur, c);
    }
  }

  lemma Kw4Layer(raw: seq<Half>, n: nat, cur: seq<Half>, b: nat)
    requires Shape(raw, n) && |cur| == |raw| && b < n && Kw4From(raw, n, cur, b) && b > 0
    ensures cur[8 * b] == raw[8 * b]
  {
    assert LayerSame(raw, cur, b - 1);
  }

  /** The first-half round keys of block b absorb kw4, which then passes the FL before it. */
  method AbsorbKw4Block(sub: array<Half>, ghost raw: seq<Half>, ghost n: nat, b: nat, kw4: Half) returns (next: Half)
    requires Shape(raw, n) && sub.Length == |raw| && b < n
    requires Kw4From(raw, n, sub[..], b + 1) && kw4 == Kw4(raw, n, b)
    modifies sub
    ensures Kw4From(raw, n, sub[..], b)
    ensures next == Kw4(raw, n, if b == 0 then 0 else b - 1)
  {
    hide Xor, FLInvLin, Kw4From;
    ghost var cur := sub[..];
    AddTriple(sub, 8 * b + 2, kw4);
    Kw4Step(raw, n, cur, sub[..], b);
    if b == 0 {
      return kw4;
    }
    Kw4Layer(raw, n, sub[..], b);
    assert sub[8 * b] == raw[8 * b];
    return FLInvLin(kw4, sub[8 * b]);
  }

  lemma AbsorbedInTheEnd(raw: seq<Half>, n: nat, cur: seq<Half>, next: seq<Half>)
    requires Shape(raw, n) && |next| == |cur| == |raw| && Kw4From(raw, n, cur, 0)
    requires next == cur[0 := Xor(cur[0], Kw4(raw, n, 0))]
    ensures Absorbed(raw, n, next)
  {
    hide Xor, Kw2, Kw4;
    forall b | 0 <= b < n ensures AbsorbedBlock(raw, n, next, b) {
      assert SecondAdded(raw, n, cur, b) && FirstAdded(raw, n, cur, b);
      assert b + 1 < n ==> LayerSame(raw, cur, b);
    }
  }

  /** Absorb kw2 and kw4 into the other subkeys. */
  method Absorb(sub: array<Half>, max: nat)
    requires (max == 24 || max == 32) && sub.Length == max + 2
    modifies sub
    ensures Shape(old(sub[..]), max / 8) && Absorbed(old(sub[..]), max / 8, sub[..])
  {
    hide Xor, FLInvLin, Kw2, Kw4, Kw2Before, Kw4From, Absorbed;
    ghost var raw, n := sub[..], max / 8;
    Kw2Init(raw, n);
    AbsorbKw2Block(sub, raw, n, 0, false);
    AbsorbKw2Block(sub, raw, n, 1, false);
    AbsorbKw2Block(sub, raw, n, 2, max == 24);
    if max != 24 {
      AbsorbKw2Block(sub, raw, n, 3, true);
    }
    ghost var cur := sub[..];
    sub[max] := Xor(sub[max], sub[1]);
    Kw4Start(raw, n, cur, sub[..]);
    var kw4 := sub[max + 1];
    Kw4Init(raw, n);
    if max != 24 {
      kw4 := AbsorbKw4Block(sub, raw, n, 3, kw4);
    }
    kw4 := AbsorbKw4Block(sub, raw, n, 2, kw4);
    kw4 := AbsorbKw4Block(sub, raw, n, 1, kw4);
    kw4 := AbsorbKw4Block(sub, raw, n, 0, kw4);
    cur := sub[..];
    sub[0] := Xor(sub[0], kw4);
    AbsorbedInTheEnd(raw, n, cur, sub[..]);
  }

  lemma Kw2Init(raw: seq<Half>, n: nat)
    requires Shape(raw, n)
    ensures Kw2Before(raw, n, raw, 0) && Kw2(raw, n, 0) == raw[1]
  {
  }

  lemma Kw4Init(raw: seq<Half>, n: nat)
    requires Shape(raw, n)
    ensures Kw4(raw, n, n - 1) == raw[8 * n + 1]
  {
  }

  predicate EndKeysBefore(cur: seq<Half>, n: nat, ek: seq<Half>, b: nat)
    requires Shape(cur, n) && |ek| == |cur| && b <= n
  {
    && ek[0] == Xor(cur[0], cur[2])
    && forall c :: 0 <= c < b ==> EndKeys(cur, n, ek, c)
  }

  lemma EndKeysStep(cur: seq<Half>, n: nat, ek: seq<Half>, next: seq<Half>, b: nat)
    requires Shape(cur, n) && |next| == |ek| == |cur| && b < n
    requires EndKeysBefore(cur, n, ek, b) && EndKeys(cur, n, next, b)
    requires forall j :: 0 <= j < 8 * b + 2 ==> next[j] == ek[j]
    ensures EndKeysBefore(cur, n, next, b + 1)
  {
    hide Xor, FLInvLin;
    forall c | 0 <= c < b + 1 ensures EndKeys(cur, n, next, c) {
      if c < b {
        assert EndKeys(cur, n, ek, c);
      }
    }
  }

  /** The four round keys inside a block. */
  method StoreInner(sub: array<Half>, subkey: array<Half>, i: nat)
    requires sub != subkey && i + 7 < sub.Length <= subkey.Length
    modifies subkey
    ensures forall j :: i + 3 <= j < i + 7 ==> subkey[j] == Xor(sub[j - 1], sub[j + 1])
    ensures forall j :: 0 <= j < subkey.Length && !(i + 3 <= j < i + 7) ==> subkey[j] == old(subkey[j])
  {
    hide Xor;
    subkey[i + 3] := Xor(sub[i + 2], sub[i + 4]);
    subkey[i + 4] := Xor(sub[i + 3], sub[i + 5]);
    subkey[i + 5] := Xor(sub[i + 4], sub[i + 6]);
    subkey[i + 6] := Xor(sub[i + 5], sub[i + 7]);
  }

  function FirstEndKey(cur: seq<Half>, n: nat, b: nat): Half
    requires Shape(cur, n) && b < n
  {
    if b == 0 then cur[3] else Xor(FLInvLin(cur[8 * b - 1], cur[8 * b + 1]), cur[8 * b + 3])
  }

  function LastEndKey(cur: seq<Half>, n: nat, b: nat): Half
    requires Shape(cur, n) && b < n
  {
    if b + 1 == n then cur[8 * b + 6] else Xor(cur[8 * b + 6], FLInvLin(cur[8 * b + 10], cur[8 * b + 8]))
  }

  /** The FL keys after block b, unless it is the last. */
  method StoreLayer(sub: array<Half>, subkey: array<Half>, b: nat, n: nat)
    requires sub != subkey && Shape(sub[..], n) && subkey.Length >= sub.Length && b < n
    modifies subkey
    ensures b + 1 < n ==> subkey[8 * b + 8] == sub[8 * b + 8] && subkey[8 * b + 9] == sub[8 * b + 9]
    ensures forall j :: 0 <= j < 8 * b + 8 ==> subkey[j] == old(subkey[j])
  {
    if b + 1 < n {
      subkey[8 * b + 8] := sub[8 * b + 8];
      subkey[8 * b + 9] := sub[8 * b + 9];
    }
  }

  /** The keys of block b, moved to the end of their rounds. */
  method StoreBlock(sub: array<Half>, subkey: array<Half>, b: nat, n: nat)
    requires sub != subkey && Shape(sub[..], n) && subkey.Length >= sub.Length && b < n
    modifies subkey
    ensures EndKeys(sub[..], n, subkey[..sub.Length], b)
    ensures forall j :: 0 <= j < 8 * b + 2 ==> subkey[j] == old(subkey[j])
  {
    hide Xor, FLInvLin;
    ghost var cur := sub[..];
    var i := 8 * b;
    var first := if b == 0 then sub[3] else Xor(FLInvLin(sub[i - 1], sub[i + 1]), sub[i + 3]);
    var last := if b + 1 == n then sub[i + 6] else Xor(sub[i + 6], FLInvLin(sub[i + 10], sub[i + 8]));
    assert first == FirstEndKey(cur, n, b) && last == LastEndKey(cur, n, b);
    hide FirstEndKey, LastEndKey;
    subkey[i + 2] := first;
    subkey[i + 7] := last;
    StoreInner(sub, subkey, i);
    StoreLayer(sub, subkey, b, n);
    EndKeysIntro(sub[..], n, subkey[..sub.Length], b);
  }

  lemma EndKeysIntro(cur: seq<Half>, n: nat, ek: seq<Half>, b: nat)
    requires Shape(cur, n) && |ek| == |cur| && b < n
    requires ek[8 * b + 2] == FirstEndKey(cur, n, b) && ek[8 * b + 7] == LastEndKey(cur, n, b)
    requires forall j :: 8 * b + 3 <= j < 8 * b + 7 ==> ek[j] == Xor(cur[j - 1], cur[j + 1])
    requires b + 1 < n ==> ek[8 * b + 8] == cur[8 * b + 8] && ek[8 * b + 9] == cur[8 * b + 9]
    ensures EndKeys(cur, n, ek, b)
  {
    hide Xor, FLInvLin;
  }

  method StoreNext(sub: array<Half>, subkey: array<Half>, b: nat, n: nat)
    requires sub != subkey && Shape(sub[..], n) && subkey.Length >= sub.Length && b < n
    requires EndKeysBefore(sub[..], n, subkey[..sub.Length], b)
    modifies subkey
    ensures EndKeysBefore(sub[..], n, subkey[..sub.Length], b + 1)
  {
    hide Xor, FLInvLin, EndKeys, EndKeysBefore;
    ghost var ek := subkey[..sub.Length];
    StoreBlock(sub, subkey, b, n);
    EndKeysStep(sub[..], n, ek, subkey[..sub.Length], b);
  }

  /** Key XOR moves to the end of the F function. */
  method StoreEndKeys(sub: array<Half>, subkey: array<Half>, max: nat)
    requires (max == 24 || max == 32) && sub != subkey && sub.Length == max + 2 && subkey.Length >= sub.Length
    modifies subkey
    ensures EndKeysBefore(sub[..], max / 8, subkey[..max + 2], max / 8)
    ensures subkey[max] == Xor(sub[max], sub[max - 1])
  {
    hide Xor, EndKeys;
    var n := max / 8;
    subkey[0] := Xor(sub[0], sub[2]);
    StoreNext(sub, subkey, 0, n);
    StoreNext(sub, subkey, 1, n);
    StoreNext(sub, subkey, 2, n);
    if max == 32 {
      StoreNext(sub, subkey, 3, n);
    }
    ghost var ek := subkey[..max + 2];
    subkey[max] := Xor(sub[max], sub[max - 1]);
    Kw3Last(sub[..], n, ek, subkey[..max + 2]);
  }

  lemma Kw3Last(cur: seq<Half>, n: nat, ek: seq<Half>, next: seq<Half>)
    requires Shape(cur, n) && |ek| == |cur| && EndKeysBefore(cur, n, ek, n)
    requires |next| == |ek| && forall j :: 0 <= j < 8 * n ==> next[j] == ek[j]
    ensures EndKeysBefore(cur, n, next, n)
  {
    hide Xor, FLInvLin;
    forall c | 0 <= c < n ensures EndKeys(cur, n, next, c) {
      assert EndKeys(cur, n, ek, c);
    }
  }

  predicate UndoneBefore(ek: seq<Half>, sk: seq<Half>, b: nat)
    requires |ek| == |sk| && 8 * b + 2 <= |ek|
  {
    && (forall c :: 0 <= c < b ==> Undone(ek, sk, c))
    && (forall j :: 8 * b + 2 <= j < |ek| ==> sk[j] == ek[j])
    && sk[0] == ek[0] && (8 * b < |ek| ==> sk[8 * b] == ek[8 * b])
  }

  /** Undo the last half of P in six round keys. */
  method UndoBlock(subkey: array<Half>, i: nat)
    requires i + 6 <= subkey.Length
    modifies subkey
    ensures forall j :: i <= j < i + 6 ==> subkey[j] == UndoP(old(subkey[j]))
    ensures forall j :: 0 <= j < subkey.Length && !(i <= j < i + 6) ==> subkey[j] == old(subkey[j])
  {
    hide UndoP;
    subkey[i] := UndoP(subkey[i]);
    subkey[i + 1] := UndoP(subkey[i + 1]);
    subkey[i + 2] := UndoP(subkey[i + 2]);
    subkey[i + 3] := UndoP(subkey[i + 3]);
    subkey[i + 4] := UndoP(subkey[i + 4]);
    subkey[i + 5] := UndoP(subkey[i + 5]);
  }

  lemma UndoStep(ek: seq<Half>, sk: seq<Half>, next: seq<Half>, b: nat)
    requires |ek| == |sk| == |next| && 8 * b + 10 <= |ek| && UndoneBefore(ek, sk, b)
    requires forall j :: 8 * b + 2 <= j < 8 * b + 8 ==> next[j] == UndoP(sk[j])
    requires forall j :: 0 <= j < |sk| && !(8 * b + 2 <= j < 8 * b + 8) ==> next[j] == sk[j]
    ensures UndoneBefore(ek, next, b + 1)
  {
    hide UndoP;
    forall c | 0 <= c < b + 1 ensures Undone(ek, next, c) {
      if c < b {
        assert Undone(ek, sk, c);
      }
    }
  }

  method UndoAll(subkey: array<Half>, max: nat)
    requires max >= 8 && max % 8 == 0 && max + 2 <= subkey.Length
    modifies subkey
    ensures UndoneBefore(old(subkey[..max + 2]), subkey[..max + 2], max / 8)
  {
    hide UndoP, Undone;
    ghost var ek := subkey[..max + 2];
    var b := 0;
    while 8 * b + 2 < max
      invariant 8 * b <= max && UndoneBefore(ek, subkey[..max + 2], b)
      decreases max - 8 * b
    {
      ghost var sk := subkey[..max + 2];
      UndoBlock(subkey, 8 * b + 2);
      UndoStep(ek, sk, subkey[..max + 2], b);
      b := b + 1;
    }
  }

  /** camellia_setup_tail: from raw subkeys to the keys of the fast cipher. */
  method SetupTail(subkey: array<Half>, sub: array<Half>, max: nat)
    requires (max == 24 || max == 32) && sub != subkey && sub.Length == max + 2 && subkey.Length >= max + 2
    modifies subkey, sub
    ensures var raw, n := old(sub[..]), max / 8;
            && Shape(raw, n) && Shape(subkey[..max + 2], n)
            && FastKeys(raw, n, subkey[..max + 2])
  {
    hide Xor, Absorbed, EndKeys, Undone, FastKeys;
    ghost var raw := sub[..];
    Absorb(sub, max);
    StoreEndKeys(sub, subkey, max);
    ghost var ek := subkey[..max + 2];
    UndoAll(subkey, max);
    SetupGivesFastKeys(raw, max / 8, sub[..], ek, subkey[..max + 2]);
  }

  // ----- the rounds -----

  /** CAMELLIA_ROUNDSM on the block buffer: half x goes through the round, half y receives. */
  method Round(t: Tables, io: array<Half>, x: nat, k: Half)
    requires io.Length == 2 && x < 2
    modifies io
    ensures io[x] == old(io[x]) && io[1 - x] == RoundSm(t, old(io[x]), k, old(io[1 - x]))
  {
    var il := Xor32(SLeft(t, io[x].l), k.l);
    var ir := Xor32(Xor32(SRight(t, io[x].r), il), k.r);
    var y := io[1 - x];
    io[1 - x] := Half(Xor32(y.l, ir), Xor32(Xor32(y.r, Ror8(il)), ir));
  }

  /** CAMELLIA_FLS. */
  method Fls(io: array<Half>, k: Half, l: Half)
    requires io.Length == 2
    modifies io
    ensures io[0] == FL(old(io[0]), k) && io[1] == FLInv(old(io[1]), l)
  {
    hide Xor32, And32, Or32, Rol1;
    var lr := Xor32(io[0].r, Rol1(And32(io[0].l, k.l)));
    var rl := Xor32(io[1].l, Or32(io[1].r, l.r));
    io[0] := Half(Xor32(io[0].l, Or32(lr, k.r)), lr);
    io[1] := Half(rl, Xor32(io[1].r, Rol1(And32(rl, l.l))));
  }

  method Rounds(t: Tables, subkey: array<Half>, io: array<Half>, i: nat, ghost sk: seq<Half>)
    requires io.Length == 2 && io != subkey && i + 6 <= |sk| <= subkey.Length && sk == subkey[..|sk|]
    modifies io
    ensures State(io[0], io[1]) == FastRounds(t, sk, i, old(State(io[0], io[1])))
  {
    hide RoundSm;
    Round(t, io, 0, subkey[i]);
    Round(t, io, 1, subkey[i + 1]);
    Round(t, io, 0, subkey[i + 2]);
    Round(t, io, 1, subkey[i + 3]);
    Round(t, io, 0, subkey[i + 4]);
    Round(t, io, 1, subkey[i + 5]);
  }

  method RoundsBack(t: Tables, subkey: array<Half>, io: array<Half>, i: nat, ghost sk: seq<Half>)
    requires io.Length == 2 && io != subkey && i + 6 <= |sk| <= subkey.Length && sk == subkey[..|sk|]
    modifies io
    ensures State(io[0], io[1]) == BackRounds(t, sk, i, old(State(io[0], io[1])))
  {
    hide RoundSm;
    Round(t, io, 0, subkey[i + 5]);
    Round(t, io, 1, subkey[i + 4]);
    Round(t, io, 0, subkey[i + 3]);
    Round(t, io, 1, subkey[i + 2]);
    Round(t, io, 0, subkey[i + 1]);
    Round(t, io, 1, subkey[i]);
  }

  /** One block and the FL layer after it. */
  method BlockAndLayer(t: Tables, subkey: array<Half>, io: array<Half>, n: nat, b: nat, ghost sk: seq<Half>)
    requires io.Length == 2 && io != subkey && Shape(sk, n) && |sk| <= subkey.Length && sk == subkey[..|sk|] && b + 1 < n
    modifies io
    ensures FastFrom(t, sk, n, b + 1, State(io[0], io[1])) == FastFrom(t, sk, n, b, old(State(io[0], io[1])))
  {
    hide FastRounds, FL, FLInv;
    Rounds(t, subkey, io, 8 * b + 2, sk);
    Fls(io, subkey[8 * b + 8], subkey[8 * b + 9]);
  }

  /** All the blocks of camellia_do_encrypt. */
  method AllRounds(t: Tables, subkey: array<Half>, io: array<Half>, max: nat, ghost sk: seq<Half>)
    requires (max == 24 || max == 32) && io.Length == 2 && io != subkey && subkey.Length >= max + 2 && sk == subkey[..max + 2]
    modifies io
    ensures State(io[0], io[1]) == FastFrom(t, sk, max / 8, 0, old(State(io[0], io[1])))
  {
    hide FastFrom, FastRounds;
    var n := max / 8;
    BlockAndLayer(t, subkey, io, n, 0, sk);
    BlockAndLayer(t, subkey, io, n, 1, sk);
    if max == 32 {
      BlockAndLayer(t, subkey, io, n, 2, sk);
    }
    LastBlock(t, sk, n, State(io[0], io[1]));
    Rounds(t, subkey, io, max - 6, sk);
  }

  /** camellia_do_encrypt. */
  method DoEncrypt(t: Tables, subkey: array<Half>, io: array<Half>, max: nat)
    requires (max == 24 || max == 32) && io.Length == 2 && io != subkey && subkey.Length >= max + 2
    modifies io
    ensures Shape(subkey[..max + 2], max / 8)
    ensures State(io[1], io[0]) == FastEncrypt(t, subkey[..max + 2], max / 8, old(State(io[0], io[1])))
  {
    hide FastFrom, Xor;
    io[0] := Xor(io[0], subkey[0]);
    AllRounds(t, subkey, io, max, subkey[..max + 2]);
    io[1] := Xor(io[1], subkey[max]);
  }

  lemma LastBlock(t: Tables, sk: seq<Half>, n: nat, s: State)
    requires Shape(sk, n)
    ensures FastFrom(t, sk, n, n - 1, s) == FastRounds(t, sk, 8 * n - 6, s)
    ensures BackTo(t, sk, n, n - 1, s) == BackRounds(t, sk, 8 * n - 6, s)
  {
    hide FastRounds, BackRounds, FL, FLInv;
    assert 8 * (n - 1) + 2 == 8 * n - 6;
  }

  /** The FL layer before block b + 1, undone, and block b. */
  method LayerAndBlock(t: Tables, subkey: array<Half>, io: array<Half>, n: nat, b: nat, ghost sk: seq<Half>, ghost c: State)
    requires io.Length == 2 && io != subkey && Shape(sk, n) && |sk| <= subkey.Length && sk == subkey[..|sk|] && b + 1 < n
    requires State(io[0], io[1]) == BackTo(t, sk, n, b + 1, c)
    modifies io
    ensures State(io[0], io[1]) == BackTo(t, sk, n, b, c)
  {
    hide BackRounds, FL, FLInv;
    Fls(io, subkey[8 * b + 9], subkey[8 * b + 8]);
    RoundsBack(t, subkey, io, 8 * b + 2, sk);
  }

  /** All the blocks of camellia_do_decrypt. */
  method AllRoundsBack(t: Tables, subkey: array<Half>, io: array<Half>, max: nat, ghost sk: seq<Half>)
    requires (max == 24 || max == 32) && io.Length == 2 && io != subkey && subkey.Length >= max + 2 && sk == subkey[..max + 2]
    modifies io
    ensures State(io[0], io[1]) == BackTo(t, sk, max / 8, 0, old(State(io[0], io[1])))
  {
    hide BackTo, BackRounds;
    var n := max / 8;
    ghost var c := State(io[0], io[1]);
    LastBlock(t, sk, n, c);
    RoundsBack(t, subkey, io, max - 6, sk);
    if max == 32 {
      LayerAndBlock(t, subkey, io, n, 2, sk, c);
    }
    LayerAndBlock(t, subkey, io, n, 1, sk, c);
    LayerAndBlock(t, subkey, io, n, 0, sk, c);
  }

  /** camellia_do_decrypt. */
  method DoDecrypt(t: Tables, subkey: array<Half>, io: array<Half>, max: nat)
    requires (max == 24 || max == 32) && io.Length == 2 && io != subkey && subkey.Length >= max + 2
    modifies io
    ensures Shape(subkey[..max + 2], max / 8)
    ensures State(io[1], io[0]) == FastDecrypt(t, subkey[..max + 2], max / 8, old(State(io[0], io[1])))
  {
    hide BackTo, Xor;
    io[0] := Xor(io[0], subkey[max]);
    AllRoundsBack(t, subkey, io, max, subkey[..max + 2]);
    io[1] := Xor(io[1], subkey[0]);
  }

  /** The whole way: raw subkeys through setup, a block through the fast rounds, and the
      result is the plain cipher of the raw subkeys. */
  method SetupAndEncrypt(t: Tables, sub: array<Half>, subkey: array<Half>, io: array<Half>, max: nat)
    requires (max == 24 || max == 32) && sub.Length == max + 2 && subkey.Length >= max + 2 && io.Length == 2
    requires sub != subkey && io != subkey && io != sub
    modifies sub, subkey, io
    ensures Shape(old(sub[..]), max / 8)
    ensures State(io[1], io[0]) == PlainEncrypt(t, old(sub[..]), max / 8, old(State(io[0], io[1])))
  {
    hide FastKeys, FastEncrypt, PlainEncrypt;
    ghost var raw, m := sub[..], State(io[0], io[1]);
    SetupTail(subkey, sub, max);
    FastIsPlain(t, raw, max / 8, subkey[..max + 2], m);
    DoEncrypt(t, subkey, io, max);
  }
}
