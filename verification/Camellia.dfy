/** 32-bit words and the few laws of their bit operations that the cipher proofs use. */
module Words {

  function Xor32(a: bv32, b: bv32): bv32 {
    a ^ b
  }

  function And32(a: bv32, b: bv32): bv32 {
    a & b
  }

  function Or32(a: bv32, b: bv32): bv32 {
    a | b
  }

  function Not32(a: bv32): bv32 {
    !a
  }

  function Rol1(x: bv32): bv32 {
    (x << 1) | (x >> 31)
  }

  function Rol8(x: bv32): bv32 {
    (x << 8) | (x >> 24)
  }

  function Ror8(x: bv32): bv32 {
    (x >> 8) | (x << 24)
  }

  lemma XorComm(a: bv32, b: bv32)
    ensures Xor32(a, b) == Xor32(b, a)
  {
  }

  lemma XorAssocBits(a: bv32, b: bv32, c: bv32)
    ensures (a ^ b) ^ c == a ^ (b ^ c)
  {
  }

  lemma XorAssoc(a: bv32, b: bv32, c: bv32)
    ensures Xor32(Xor32(a, b), c) == Xor32(a, Xor32(b, c))
  {
    XorAssocBits(a, b, c);
    assert Xor32(a, b) == a ^ b && Xor32(b, c) == b ^ c;
    assert Xor32(a ^ b, c) == (a ^ b) ^ c;
    assert Xor32(a, b ^ c) == a ^ (b ^ c);
  }

  lemma XorSelf(a: bv32, b: bv32)
    ensures Xor32(Xor32(b, a), a) == b
  {
  }

  lemma XorZero(a: bv32)
    ensures Xor32(a, 0) == a
  {
  }

  lemma RolXor(x: bv32, y: bv32)
    ensures Rol1(Xor32(x, y)) == Xor32(Rol1(x), Rol1(y))
  {
  }

  lemma RorXor(x: bv32, y: bv32)
    ensures Ror8(Xor32(x, y)) == Xor32(Ror8(x), Ror8(y))
  {
  }

  lemma RorRol(x: bv32)
    ensures Ror8(Rol8(x)) == x
  {
  }

  lemma AndXorBits(x: bv32, y: bv32, k: bv32)
    ensures (x ^ y) & k == (x & k) ^ (y & k)
  {
  }

  lemma AndXor(x: bv32, y: bv32, k: bv32)
    ensures And32(Xor32(x, y), k) == Xor32(And32(x, k), And32(y, k))
  {
    AndXorBits(x, y, k);
    assert Xor32(x, y) == x ^ y;
    assert And32(x ^ y, k) == (x ^ y) & k;
    assert Xor32(x & k, y & k) == (x & k) ^ (y & k);
  }

  lemma OrAsXor(x: bv32, k: bv32)
    ensures Or32(x, k) == Xor32(And32(x, Not32(k)), k)
  {
  }

  lemma OrIsAffine(x: bv32, y: bv32, k: bv32)
    ensures Or32(Xor32(x, y), k) == Xor32(Or32(x, k), And32(y, Not32(k)))
  {
    hide Xor32, And32, Or32, Not32;
    var n := Not32(k);
    OrAsXor(Xor32(x, y), k);
    OrAsXor(x, k);
    AndXor(x, y, n);
    XorAssoc(And32(x, n), And32(y, n), k);
    XorComm(And32(y, n), k);
    XorAssoc(And32(x, n), k, And32(y, n));
  }

  /** Exchange the middle two of four. */
  lemma XorSwap(a: bv32, b: bv32, c: bv32, d: bv32)
    ensures Xor32(Xor32(a, b), Xor32(c, d)) == Xor32(Xor32(a, c), Xor32(b, d))
  {
    hide Xor32;
    XorAssoc(a, b, Xor32(c, d));
    XorAssoc(b, c, d);
    XorComm(b, c);
    XorAssoc(c, b, d);
    XorAssoc(a, c, Xor32(b, d));
  }

  /** A mask common to both operands drops out. */
  lemma XorCommon(a: bv32, b: bv32, m: bv32)
    ensures Xor32(Xor32(a, m), Xor32(b, m)) == Xor32(a, b)
  {
    hide Xor32;
    XorSwap(a, m, b, m);
    XorSelf(m, 0);
    XorComm(0, m);
    XorZero(m);
    XorZero(Xor32(a, b));
  }

  /** A key that turns mask m into mask n. */
  lemma XorMask(d: bv32, m: bv32, f: bv32, n: bv32)
    ensures Xor32(Xor32(Xor32(d, m), f), Xor32(m, n)) == Xor32(Xor32(d, f), n)
  {
    hide Xor32;
    XorAssoc(d, m, f);
    XorComm(m, f);
    XorAssoc(d, f, m);
    XorComm(m, n);
    XorAssoc(Xor32(Xor32(d, f), m), n, m);
    XorCommon(Xor32(d, f), n, m);
  }

  /** How a key added in the middle of P comes out at its end. */
  lemma MiddleKey(u: bv32, d: bv32, k: bv32, dw: bv32, y: bv32)
    ensures Xor32(y, Xor32(Xor32(u, Xor32(d, dw)), Xor32(k, dw))) == Xor32(Xor32(y, Xor32(u, d)), k)
  {
    hide Xor32;
    XorAssoc(u, d, dw);
    XorCommon(Xor32(u, d), k, dw);
    XorAssoc(y, Xor32(u, d), k);
  }
}

/** Camellia (kernel/crypto/camellia.c): the plain cipher of section 2.3 of RFC 3713, the
    key transformation done by camellia_setup_tail, and the rounds that use the transformed
    keys.  The S-box tables are arbitrary. */
module Camellia {
  import opened Words

  // ----- halves -----

  /** camellia_sp1110 and its siblings. */
  datatype Tables = Tables(sp1110: bv8 -> bv32, sp0222: bv8 -> bv32, sp3033: bv8 -> bv32, sp4404: bv8 -> bv32)

  /** Half a block, or a subkey: left and right 32 bits. */
  datatype Half = Half(l: bv32, r: bv32)

  const ZERO := Half(0, 0)

  function Xor(a: Half, b: Half): Half {
    Half(Xor32(a.l, b.l), Xor32(a.r, b.r))
  }

  function Byte(x: bv32, shift: nat): bv8
    requires shift in {0, 8, 16, 24}
  {
    ((x >> shift) & 0xff) as bv8
  }

  /** The table look-ups for one word. */
  function Lookup(t: Tables, a: bv8, b: bv8, c: bv8, d: bv8): bv32 {
    Xor32(Xor32(Xor32(t.sp1110(a), t.sp0222(b)), t.sp3033(c)), t.sp4404(d))
  }

  function SLeft(t: Tables, x: bv32): bv32 {
    Lookup(t, Byte(x, 24), Byte(x, 16), Byte(x, 8), Byte(x, 0))
  }

  function SRight(t: Tables, x: bv32): bv32 {
    Lookup(t, Byte(x, 0), Byte(x, 24), Byte(x, 16), Byte(x, 8))
  }

  /** CAMELLIA_F. */
  function F(t: Tables, x: Half, k: Half): Half {
    var i := Xor(x, k);
    var u, d := SRight(t, i.r), SLeft(t, i.l);
    Half(Xor32(u, d), Xor32(Ror8(d), Xor32(u, d)))
  }

  function FL(x: Half, k: Half): Half {
    var r := Xor32(x.r, Rol1(And32(x.l, k.l)));
    Half(Xor32(x.l, Or32(r, k.r)), r)
  }

  function FLInv(y: Half, k: Half): Half {
    var l := Xor32(y.l, Or32(y.r, k.r));
    Half(l, Xor32(y.r, Rol1(And32(l, k.l))))
  }

  /** FLInv without its constant part; key setup uses it to move keys across FL and FLInv. */
  function FLInvLin(y: Half, k: Half): Half {
    var l := Xor32(y.l, And32(y.r, Not32(k.r)));
    Half(l, Xor32(y.r, Rol1(And32(l, k.l))))
  }

  /** CAMELLIA_ROUNDSM: a round on a half that already holds its key, adding key k in the
      middle of the P function. */
  function RoundSm(t: Tables, x: Half, k: Half, y: Half): Half {
    var il := Xor32(SLeft(t, x.l), k.l);
    var ir := Xor32(Xor32(SRight(t, x.r), il), k.r);
    Half(Xor32(y.l, ir), Xor32(Xor32(y.r, Ror8(il)), ir))
  }

  /** What camellia_setup_tail does last to every round key. */
  function UndoP(k: Half): Half {
    var dw := Rol8(Xor32(k.l, k.r));
    Half(dw, Xor32(k.l, dw))
  }

  /** A key that turns mask m into mask n, added to a masked half during a round. */
  lemma MaskStep(d: Half, m: Half, f: Half, n: Half)
    ensures Xor(Xor(Xor(d, m), f), Xor(m, n)) == Xor(Xor(d, f), n)
  {
    hide Xor32;
    XorMask(d.l, m.l, f.l, n.l);
    XorMask(d.r, m.r, f.r, n.r);
  }

  lemma Unmask(d: Half, m: Half)
    ensures Xor(Xor(d, m), m) == d && Xor(d, ZERO) == d
  {
    hide Xor32;
    XorSelf(m.l, d.l);
    XorSelf(m.r, d.r);
    XorZero(d.l);
    XorZero(d.r);
  }

  lemma CommonMask(a: Half, b: Half, m: Half)
    ensures Xor(Xor(a, m), Xor(b, m)) == Xor(a, b)
  {
    hide Xor32;
    XorCommon(a.l, b.l, m.l);
    XorCommon(a.r, b.r, m.r);
  }

  lemma FLInvOfFL(x: Half, k: Half)
    ensures FLInv(FL(x, k), k) == x
  {
    hide Xor32, And32, Or32, Rol1;
    var r := Xor32(x.r, Rol1(And32(x.l, k.l)));
    XorSelf(Or32(r, k.r), x.l);
    XorSelf(Rol1(And32(x.l, k.l)), x.r);
  }

  lemma FLOfFLInv(y: Half, k: Half)
    ensures FL(FLInv(y, k), k) == y
  {
    hide Xor32, And32, Or32, Rol1;
    var l := Xor32(y.l, Or32(y.r, k.r));
    XorSelf(Rol1(And32(l, k.l)), y.r);
    XorSelf(Or32(y.r, k.r), y.l);
  }

  /** A difference y at the input of FLInv is FLInvLin(y, k) at its output. */
  lemma FLInvAffine(x: Half, y: Half, k: Half)
    ensures FLInv(Xor(x, y), k) == Xor(FLInv(x, k), FLInvLin(y, k))
  {
    hide Xor32, And32, Or32, Not32, Rol1;
    var lx, ly := Xor32(x.l, Or32(x.r, k.r)), Xor32(y.l, And32(y.r, Not32(k.r)));
    OrIsAffine(x.r, y.r, k.r);
    XorSwap(x.l, y.l, Or32(x.r, k.r), And32(y.r, Not32(k.r)));
    AndXor(lx, ly, k.l);
    RolXor(And32(lx, k.l), And32(ly, k.l));
    XorSwap(x.r, y.r, Rol1(And32(lx, k.l)), Rol1(And32(ly, k.l)));
  }

  /** A difference FLInvLin(y, k) at the input of FL is y at its output. */
  lemma FLAffine(x: Half, y: Half, k: Half)
    ensures FL(Xor(x, FLInvLin(y, k)), k) == Xor(FL(x, k), y)
  {
    hide Xor32, And32, Or32, Not32, Rol1;
    var z := FLInvLin(y, k);
    var zl := And32(z.l, k.l);
    AndXor(x.l, z.l, k.l);
    RolXor(And32(x.l, k.l), zl);
    XorSwap(x.r, z.r, Rol1(And32(x.l, k.l)), Rol1(zl));
    XorSelf(Rol1(zl), y.r);
    var rx := Xor32(x.r, Rol1(And32(x.l, k.l)));
    assert FL(Xor(x, z), k).r == Xor32(rx, y.r);
    OrIsAffine(rx, y.r, k.r);
    XorSwap(x.l, z.l, Or32(rx, k.r), And32(y.r, Not32(k.r)));
    XorSelf(And32(y.r, Not32(k.r)), y.l);
  }

  /** FLInvLin is linear. */
  lemma FLInvLinXor(x: Half, y: Half, k: Half)
    ensures FLInvLin(Xor(x, y), k) == Xor(FLInvLin(x, k), FLInvLin(y, k))
  {
    hide Xor32, And32, Or32, Not32, Rol1;
    var n := Not32(k.r);
    var lx, ly := Xor32(x.l, And32(x.r, n)), Xor32(y.l, And32(y.r, n));
    AndXor(x.r, y.r, n);
    XorSwap(x.l, y.l, And32(x.r, n), And32(y.r, n));
    AndXor(lx, ly, k.l);
    RolXor(And32(lx, k.l), And32(ly, k.l));
    XorSwap(x.r, y.r, Rol1(And32(lx, k.l)), Rol1(And32(ly, k.l)));
  }

  lemma MiddleKeyRight(u: bv32, d: bv32, kl: bv32, kr: bv32, y: bv32)
    ensures var dw := Rol8(Xor32(kl, kr));
            var il := Xor32(d, dw);
            Xor32(Xor32(y, Ror8(il)), Xor32(Xor32(u, il), Xor32(kl, dw))) ==
            Xor32(Xor32(y, Xor32(Ror8(d), Xor32(u, d))), kr)
  {
    hide Xor32, Rol8, Ror8;
    var dw, k := Rol8(Xor32(kl, kr)), Xor32(kl, kr);
    RorXor(d, dw);
    RorRol(k);
    MiddleKey(u, d, kl, dw, Xor32(y, Xor32(Ror8(d), k)));
    // y ^ (ror d ^ k) ^ (u ^ d) ^ kl
    XorAssoc(y, Ror8(d), k);
    XorAssoc(Xor32(y, Ror8(d)), k, Xor32(u, d));
    XorComm(k, Xor32(u, d));
    XorAssoc(Xor32(y, Ror8(d)), Xor32(u, d), k);
    XorAssoc(Xor32(Xor32(y, Ror8(d)), Xor32(u, d)), k, kl);
    XorComm(kl, kr);
    XorSelf(kl, kr);
    XorAssoc(y, Ror8(d), Xor32(u, d));
  }

  /** A fast round is the round function followed by the key. */
  lemma RoundSmIsF(t: Tables, x: Half, k: Half, y: Half)
    ensures RoundSm(t, x, UndoP(k), y) == Xor(Xor(y, F(t, x, ZERO)), k)
  {
    hide Xor32, Rol8, Ror8, SLeft, SRight;
    Unmask(x, ZERO);
    var u, d, dw := SRight(t, x.r), SLeft(t, x.l), Rol8(Xor32(k.l, k.r));
    MiddleKey(u, d, k.l, dw, y.l);
    MiddleKeyRight(u, d, k.l, k.r, y.r);
  }

  lemma FOfMasked(t: Tables, x: Half, k: Half)
    ensures F(t, x, k) == F(t, Xor(x, k), ZERO)
  {
    hide Xor32, Rol8, Ror8, SLeft, SRight;
    Unmask(Xor(x, k), ZERO);
  }
}
