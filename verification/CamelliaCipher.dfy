/** Camellia as a whole: the plain cipher over raw subkeys, the fast cipher over the
    subkeys that camellia_setup_tail derives from them, their equality, and decryption.

    Subkeys are numbered as in the source.  0 and 1 are kw1 and kw2; in block b the six
    round keys are 8b+2 to 8b+7, and 8b+8 and 8b+9 are the FL and FLInv keys that follow
    it.  With n blocks (3 for 18 rounds, 4 for 24 rounds), 8n and 8n+1 are kw3 and kw4. */
module CamelliaCipher {
  import opened Words
  import opened Camellia

  predicate Shape(keys: seq<Half>, n: nat) {
    n >= 1 && |keys| == 8 * n + 2
  }

  /** The two halves of the cipher state. */
  datatype State = State(a: Half, b: Half)

  // ----- the plain cipher -----

  function PlainRounds(t: Tables, keys: seq<Half>, i: nat, s: State): State
    requires i + 6 <= |keys|
  {
    var b1 := Xor(s.b, F(t, s.a, keys[i]));
    var a1 := Xor(s.a, F(t, b1, keys[i + 1]));
    var b2 := Xor(b1, F(t, a1, keys[i + 2]));
    var a2 := Xor(a1, F(t, b2, keys[i + 3]));
    var b3 := Xor(b2, F(t, a2, keys[i + 4]));
    var a3 := Xor(a2, F(t, b3, keys[i + 5]));
    State(a3, b3)
  }

  /** The blocks from block b on, with the FL layers between them. */
  function PlainFrom(t: Tables, keys: seq<Half>, n: nat, b: nat, s: State): State
    requires Shape(keys, n) && b < n
    decreases n - b
  {
    var s1 := PlainRounds(t, keys, 8 * b + 2, s);
    if b + 1 == n then s1
    else PlainFrom(t, keys, n, b + 1, State(FL(s1.a, keys[8 * b + 8]), FLInv(s1.b, keys[8 * b + 9])))
  }

  /** Section 2.3 of RFC 3713. */
  function PlainEncrypt(t: Tables, keys: seq<Half>, n: nat, m: State): State
    requires Shape(keys, n)
  {
    var s := PlainFrom(t, keys, n, 0, State(Xor(m.a, keys[0]), Xor(m.b, keys[1])));
    State(Xor(s.b, keys[8 * n]), Xor(s.a, keys[8 * n + 1]))
  }

  // ----- the fast cipher -----

  /** ROUNDS(i - 2) of camellia_do_encrypt. */
  function FastRounds(t: Tables, sk: seq<Half>, i: nat, s: State): State
    requires i + 6 <= |sk|
  {
    var b1 := RoundSm(t, s.a, sk[i], s.b);
    var a1 := RoundSm(t, b1, sk[i + 1], s.a);
    var b2 := RoundSm(t, a1, sk[i + 2], b1);
    var a2 := RoundSm(t, b2, sk[i + 3], a1);
    var b3 := RoundSm(t, a2, sk[i + 4], b2);
    var a3 := RoundSm(t, b3, sk[i + 5], a2);
    State(a3, b3)
  }

  function FastFrom(t: Tables, sk: seq<Half>, n: nat, b: nat, s: State): State
    requires Shape(sk, n) && b < n
    decreases n - b
  {
    var s1 := FastRounds(t, sk, 8 * b + 2, s);
    if b + 1 == n then s1
    else FastFrom(t, sk, n, b + 1, State(FL(s1.a, sk[8 * b + 8]), FLInv(s1.b, sk[8 * b + 9])))
  }

  /** camellia_do_encrypt, with the halves exchanged as its caller does. */
  function FastEncrypt(t: Tables, sk: seq<Half>, n: nat, m: State): State
    requires Shape(sk, n)
  {
    var s := FastFrom(t, sk, n, 0, State(Xor(m.a, sk[0]), m.b));
    State(Xor(s.b, sk[8 * n]), s.a)
  }

  // ----- what the fast keys must be -----

  /** The mask on the second half when block b begins: kw2, or the last key of the previous
      block moved across FLInv. */
  function MaskIn(keys: seq<Half>, n: nat, b: nat): Half
    requires Shape(keys, n) && b < n
  {
    if b == 0 then keys[1] else FLInvLin(keys[8 * b - 1], keys[8 * b + 1])
  }

  /** The mask on the first half when block b ends: kw4, or the first key of the next block
      moved back across FL. */
  function MaskOut(keys: seq<Half>, n: nat, b: nat): Half
    requires Shape(keys, n) && b < n
  {
    if b + 1 == n then keys[8 * n + 1] else FLInvLin(keys[8 * b + 10], keys[8 * b + 8])
  }

  /** The keys of block b are added at the end of each round, so that each half always
      carries the key of the next round it enters. */
  predicate BlockKeys(keys: seq<Half>, n: nat, sk: seq<Half>, b: nat)
    requires Shape(keys, n) && Shape(sk, n) && b < n
  {
    var i := 8 * b;
    && sk[i + 2] == UndoP(Xor(MaskIn(keys, n, b), keys[i + 3]))
    && sk[i + 3] == UndoP(Xor(keys[i + 2], keys[i + 4]))
    && sk[i + 4] == UndoP(Xor(keys[i + 3], keys[i + 5]))
    && sk[i + 5] == UndoP(Xor(keys[i + 4], keys[i + 6]))
    && sk[i + 6] == UndoP(Xor(keys[i + 5], keys[i + 7]))
    && sk[i + 7] == UndoP(Xor(keys[i + 6], MaskOut(keys, n, b)))
    && (b + 1 < n ==> sk[i + 8] == keys[i + 8] && sk[i + 9] == keys[i + 9])
  }

  predicate FastKeys(keys: seq<Half>, n: nat, sk: seq<Half>)
    requires Shape(keys, n) && Shape(sk, n)
  {
    && sk[0] == Xor(keys[0], keys[2])
    && sk[8 * n] == Xor(keys[8 * n], keys[8 * n - 1])
    && (forall b :: 0 <= b < n ==> BlockKeys(keys, n, sk, b))
  }

  // ----- the fast cipher equals the plain one -----

  /** One round: the input half carries its key, the other half changes its mask from m to n. */
  lemma FastRound(t: Tables, x: Half, k: Half, y: Half, m: Half, n: Half)
    ensures RoundSm(t, Xor(x, k), UndoP(Xor(m, n)), Xor(y, m)) == Xor(Xor(y, F(t, x, k)), n)
  {
    hide Xor, F, RoundSm, UndoP;
    RoundSmIsF(t, Xor(x, k), Xor(m, n), Xor(y, m));
    FOfMasked(t, x, k);
    MaskStep(y, m, F(t, x, k), n);
  }

  /** What a block of fast rounds must compute from a masked state. */
  predicate BlockAgrees(t: Tables, keys: seq<Half>, n: nat, sk: seq<Half>, b: nat, s: State)
    requires Shape(keys, n) && Shape(sk, n) && b < n
  {
    var p := PlainRounds(t, keys, 8 * b + 2, s);
    FastRounds(t, sk, 8 * b + 2, State(Xor(s.a, keys[8 * b + 2]), Xor(s.b, MaskIn(keys, n, b)))) ==
    State(Xor(p.a, MaskOut(keys, n, b)), Xor(p.b, keys[8 * b + 7]))
  }

  lemma FastBlock(t: Tables, keys: seq<Half>, n: nat, sk: seq<Half>, b: nat, s: State)
    requires Shape(keys, n) && Shape(sk, n) && b < n && BlockKeys(keys, n, sk, b)
    ensures BlockAgrees(t, keys, n, sk, b, s)
  {
    hide Xor, F, RoundSm, UndoP, MaskIn, MaskOut;
    var i := 8 * b;
    var k1, k2, k3, k4, k5, k6 := keys[i + 2], keys[i + 3], keys[i + 4], keys[i + 5], keys[i + 6], keys[i + 7];
    var b1 := Xor(s.b, F(t, s.a, k1));
    var a1 := Xor(s.a, F(t, b1, k2));
    var b2 := Xor(b1, F(t, a1, k3));
    var a2 := Xor(a1, F(t, b2, k4));
    var b3 := Xor(b2, F(t, a2, k5));
    FastRound(t, s.a, k1, s.b, MaskIn(keys, n, b), k2);
    FastRound(t, b1, k2, s.a, k1, k3);
    FastRound(t, a1, k3, b1, k2, k4);
    FastRound(t, b2, k4, a1, k3, k5);
    FastRound(t, a2, k5, b2, k4, k6);
    FastRound(t, b3, k6, a2, k5, MaskOut(keys, n, b));
  }

  predicate BlocksAgree(t: Tables, keys: seq<Half>, n: nat, sk: seq<Half>, b: nat, s: State)
    requires Shape(keys, n) && Shape(sk, n) && b < n
  {
    var p := PlainFrom(t, keys, n, b, s);
    FastFrom(t, sk, n, b, State(Xor(s.a, keys[8 * b + 2]), Xor(s.b, MaskIn(keys, n, b)))) ==
    State(Xor(p.a, keys[8 * n + 1]), Xor(p.b, keys[8 * n - 1]))
  }

  lemma {:induction false} FastBlocks(t: Tables, keys: seq<Half>, n: nat, sk: seq<Half>, b: nat, s: State)
    requires Shape(keys, n) && Shape(sk, n) && b < n && FastKeys(keys, n, sk)
    ensures BlocksAgree(t, keys, n, sk, b, s)
    decreases n - b
  {
    hide Xor, FL, FLInv, FLInvLin, PlainRounds, FastRounds, UndoP;
    var i := 8 * b;
    assert BlockKeys(keys, n, sk, b);
    FastBlock(t, keys, n, sk, b, s);
    if b + 1 < n {
      var p := PlainRounds(t, keys, i + 2, s);
      FLAffine(p.a, keys[i + 10], keys[i + 8]);
      FLInvAffine(p.b, keys[i + 7], keys[i + 9]);
      FastBlocks(t, keys, n, sk, b + 1, State(FL(p.a, keys[i + 8]), FLInv(p.b, keys[i + 9])));
    }
  }

  /** For every block, every set of raw subkeys, arbitrary tables and any number of blocks
      of rounds, the fast cipher computes the plain one. */
  lemma FastIsPlain(t: Tables, keys: seq<Half>, n: nat, sk: seq<Half>, m: State)
    requires Shape(keys, n) && Shape(sk, n) && FastKeys(keys, n, sk)
    ensures FastEncrypt(t, sk, n, m) == PlainEncrypt(t, keys, n, m)
  {
    hide Xor, PlainFrom, FastFrom, BlockKeys;
    var s := State(Xor(m.a, keys[0]), Xor(m.b, keys[1]));
    FastBlocks(t, keys, n, sk, 0, s);
    var p := PlainFrom(t, keys, n, 0, s);
    XorChain(m.a, keys[0], keys[2]);
    Unmask(m.b, keys[1]);
    CommonMask(p.b, keys[8 * n], keys[8 * n - 1]);
  }

  lemma XorChain(a: Half, b: Half, c: Half)
    ensures Xor(a, Xor(b, c)) == Xor(Xor(a, b), c)
  {
    hide Xor32;
    XorAssoc(a.l, b.l, c.l);
    XorAssoc(a.r, b.r, c.r);
  }

  // ----- decryption -----

  /** The halves exchanged. */
  function Swap(s: State): State {
    State(s.b, s.a)
  }

  /** ROUNDS(i - 2) of camellia_do_decrypt. */
  function BackRounds(t: Tables, sk: seq<Half>, i: nat, s: State): State
    requires i + 6 <= |sk|
  {
    var b1 := RoundSm(t, s.a, sk[i + 5], s.b);
    var a1 := RoundSm(t, b1, sk[i + 4], s.a);
    var b2 := RoundSm(t, a1, sk[i + 3], b1);
    var a2 := RoundSm(t, b2, sk[i + 2], a1);
    var b3 := RoundSm(t, a2, sk[i + 1], b2);
    var a3 := RoundSm(t, b3, sk[i], a2);
    State(a3, b3)
  }

  /** The blocks from the last one down to block b. */
  function BackTo(t: Tables, sk: seq<Half>, n: nat, b: nat, s: State): State
    requires Shape(sk, n) && b < n
    decreases n - b
  {
    if b + 1 == n then BackRounds(t, sk, 8 * b + 2, s)
    else
      var s1 := BackTo(t, sk, n, b + 1, s);
      BackRounds(t, sk, 8 * b + 2, State(FL(s1.a, sk[8 * b + 9]), FLInv(s1.b, sk[8 * b + 8])))
  }

  /** camellia_do_decrypt, with the halves exchanged as its caller does. */
  function FastDecrypt(t: Tables, sk: seq<Half>, n: nat, c: State): State
    requires Shape(sk, n)
  {
    var s := BackTo(t, sk, n, 0, State(Xor(c.a, sk[8 * n]), c.b));
    State(Xor(s.b, sk[0]), s.a)
  }

  /** A round is its own inverse. */
  lemma RoundTwice(t: Tables, x: Half, k: Half, y: Half)
    ensures RoundSm(t, x, k, RoundSm(t, x, k, y)) == y
  {
    hide Xor32, SLeft, SRight, Ror8;
    var il := Xor32(SLeft(t, x.l), k.l);
    var ir, r := Xor32(Xor32(SRight(t, x.r), il), k.r), Ror8(il);
    XorSelf(ir, y.l);
    XorAssoc(Xor32(Xor32(y.r, r), ir), r, ir);
    XorComm(r, ir);
    XorAssoc(Xor32(Xor32(y.r, r), ir), ir, r);
    XorSelf(ir, Xor32(y.r, r));
    XorSelf(r, y.r);
  }

  lemma BackBlock(t: Tables, sk: seq<Half>, i: nat, s: State)
    requires i + 6 <= |sk|
    ensures BackRounds(t, sk, i, Swap(FastRounds(t, sk, i, s))) == Swap(s)
  {
    hide RoundSm;
    var b1 := RoundSm(t, s.a, sk[i], s.b);
    var a1 := RoundSm(t, b1, sk[i + 1], s.a);
    var b2 := RoundSm(t, a1, sk[i + 2], b1);
    var a2 := RoundSm(t, b2, sk[i + 3], a1);
    var b3 := RoundSm(t, a2, sk[i + 4], b2);
    RoundTwice(t, s.a, sk[i], s.b);
    RoundTwice(t, b1, sk[i + 1], s.a);
    RoundTwice(t, a1, sk[i + 2], b1);
    RoundTwice(t, b2, sk[i + 3], a1);
    RoundTwice(t, a2, sk[i + 4], b2);
    RoundTwice(t, b3, sk[i + 5], a2);
  }

  lemma {:induction false} BackBlocks(t: Tables, sk: seq<Half>, n: nat, b: nat, s: State)
    requires Shape(sk, n) && b < n
    ensures BackTo(t, sk, n, b, Swap(FastFrom(t, sk, n, b, s))) == Swap(s)
    decreases n - b
  {
    hide FastRounds, BackRounds, FL, FLInv;
    BackBlock(t, sk, 8 * b + 2, s);
    if b + 1 < n {
      var s1 := FastRounds(t, sk, 8 * b + 2, s);
      BackBlocks(t, sk, n, b + 1, State(FL(s1.a, sk[8 * b + 8]), FLInv(s1.b, sk[8 * b + 9])));
      FLInvOfFL(s1.a, sk[8 * b + 8]);
      FLOfFLInv(s1.b, sk[8 * b + 9]);
    }
  }

  /** Decryption undoes encryption for every block, every key table and arbitrary tables. */
  lemma DecryptInverts(t: Tables, sk: seq<Half>, n: nat, m: State)
    requires Shape(sk, n)
    ensures FastDecrypt(t, sk, n, FastEncrypt(t, sk, n, m)) == m
  {
    hide Xor, FastFrom, BackTo;
    var s0 := State(Xor(m.a, sk[0]), m.b);
    BackBlocks(t, sk, n, 0, s0);
    Unmask(m.a, sk[0]);
    Unmask(FastFrom(t, sk, n, 0, s0).b, sk[8 * n]);
  }
}
