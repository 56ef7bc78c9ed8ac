/** CAST-256 (kernel/crypto/cast6.c).  g(i, j, x) stands for the round function of line j of quad
    round i applied to x: F1, F2 or F3 with the keys Kr[i][j] and Km[i][j] and any S-boxes. */
module Cast6 {
  import opened Words

  type RoundFn = (nat, nat, bv32) -> bv32

  datatype Block = Block(b0: bv32, b1: bv32, b2: bv32, b3: bv32)

  /** The forward quad round Q. */
  function Quad(g: RoundFn, i: nat, b: Block): Block {
    var b2 := Xor32(b.b2, g(i, 0, b.b3));
    var b1 := Xor32(b.b1, g(i, 1, b2));
    var b0 := Xor32(b.b0, g(i, 2, b1));
    Block(b0, b1, b2, Xor32(b.b3, g(i, 3, b0)))
  }

  /** The reverse quad round QBAR. */
  function QuadBar(g: RoundFn, i: nat, b: Block): Block {
    var b3 := Xor32(b.b3, g(i, 3, b.b0));
    var b0 := Xor32(b.b0, g(i, 2, b.b1));
    var b1 := Xor32(b.b1, g(i, 1, b.b2));
    Block(b0, b1, Xor32(b.b2, g(i, 0, b3)), b3)
  }

  /** Q and QBAR with the same keys undo each other. */
  lemma {:induction false} QuadsInvert(g: RoundFn, i: nat, b: Block)
    ensures QuadBar(g, i, Quad(g, i, b)) == b
    ensures Quad(g, i, QuadBar(g, i, b)) == b
  {
    hide Xor32;
    forall x, y ensures Xor32(Xor32(x, y), y) == x {
      XorSelf(y, x);
    }
  }

  /** Forward quad rounds with the given keys, one after the other. */
  function Quads(g: RoundFn, keys: seq<nat>, b: Block): Block {
    if keys == [] then b else Quads(g, keys[1..], Quad(g, keys[0], b))
  }

  function QuadBars(g: RoundFn, keys: seq<nat>, b: Block): Block {
    if keys == [] then b else QuadBars(g, keys[1..], QuadBar(g, keys[0], b))
  }

  function Reversed(keys: seq<nat>): seq<nat> {
    if keys == [] then [] else Reversed(keys[1..]) + [keys[0]]
  }

  lemma {:induction false} QuadsLast(g: RoundFn, keys: seq<nat>, k: nat, b: Block)
    ensures Quads(g, keys + [k], b) == Quad(g, k, Quads(g, keys, b))
    ensures QuadBars(g, keys + [k], b) == QuadBar(g, k, QuadBars(g, keys, b))
  {
    hide Quad, QuadBar;
    if keys != [] {
      assert (keys + [k])[1..] == keys[1..] + [k];
      QuadsLast(g, keys[1..], k, Quad(g, keys[0], b));
      QuadsLast(g, keys[1..], k, QuadBar(g, keys[0], b));
    } else {
      assert (keys + [k])[1..] == [];
    }
  }

  /** A run of quad rounds is undone by the reverse rounds with the keys in reverse order. */
  lemma {:induction false} RunsInvert(g: RoundFn, keys: seq<nat>, b: Block)
    ensures QuadBars(g, Reversed(keys), Quads(g, keys, b)) == b
    ensures Quads(g, Reversed(keys), QuadBars(g, keys, b)) == b
  {
    hide Quad, QuadBar;
    if keys != [] {
      var k, rest := keys[0], keys[1..];
      RunsInvert(g, rest, Quad(g, k, b));
      RunsInvert(g, rest, QuadBar(g, k, b));
      QuadsLast(g, Reversed(rest), k, Quads(g, keys, b));
      QuadsLast(g, Reversed(rest), k, QuadBars(g, keys, b));
      QuadsInvert(g, k, b);
    }
  }

  const FIRST_HALF: seq<nat> := [0, 1, 2, 3, 4, 5]
  const SECOND_HALF: seq<nat> := [6, 7, 8, 9, 10, 11]

  /** cast6_encrypt on the words of a block. */
  function Encrypt(g: RoundFn, b: Block): Block {
    QuadBars(g, SECOND_HALF, Quads(g, FIRST_HALF, b))
  }

  /** cast6_decrypt: the quad rounds are the same, the keys come in reverse order. */
  function Decrypt(g: RoundFn, b: Block): Block {
    QuadBars(g, [5, 4, 3, 2, 1, 0], Quads(g, [11, 10, 9, 8, 7, 6], b))
  }

  lemma HalvesReversed()
    ensures Reversed(FIRST_HALF) == [5, 4, 3, 2, 1, 0] && Reversed(SECOND_HALF) == [11, 10, 9, 8, 7, 6]
  {
    ReversedSix(0, 1, 2, 3, 4, 5);
    ReversedSix(6, 7, 8, 9, 10, 11);
  }

  lemma ReversedSix(a: nat, b: nat, c: nat, d: nat, e: nat, f: nat)
    ensures Reversed([a, b, c, d, e, f]) == [f, e, d, c, b, a]
  {
    assert [a, b, c, d, e, f][1..] == [b, c, d, e, f] && [b, c, d, e, f][1..] == [c, d, e, f];
    assert [c, d, e, f][1..] == [d, e, f] && [d, e, f][1..] == [e, f] && [e, f][1..] == [f] && [f][1..] == [];
    assert Reversed([f]) == [f] && Reversed([e, f]) == [f, e] && Reversed([d, e, f]) == [f, e, d];
    assert Reversed([c, d, e, f]) == [f, e, d, c] && Reversed([b, c, d, e, f]) == [f, e, d, c, b];
  }

  /** Decryption inverts encryption, and encryption decryption, for any keys and S-boxes. */
  lemma DecryptInverts(g: RoundFn, b: Block)
    ensures Decrypt(g, Encrypt(g, b)) == b
    ensures Encrypt(g, Decrypt(g, b)) == b
  {
    hide Quads, QuadBars, Reversed;
    HalvesReversed();
    RunsInvert(g, FIRST_HALF, b);
    RunsInvert(g, SECOND_HALF, Quads(g, FIRST_HALF, b));
    var c := Quads(g, [11, 10, 9, 8, 7, 6], b);
    RunsInvert(g, [5, 4, 3, 2, 1, 0], c);
    RunsInvert(g, [11, 10, 9, 8, 7, 6], b);
    ReversedSix(5, 4, 3, 2, 1, 0);
    ReversedSix(11, 10, 9, 8, 7, 6);
  }

  // ----- in place -----

  function Words4(a: array<bv32>): Block
    reads a
    requires a.Length == 4
  {
    Block(a[0], a[1], a[2], a[3])
  }

  /** Q. */
  method ApplyQuad(g: RoundFn, i: nat, block: array<bv32>)
    requires block.Length == 4
    modifies block
    ensures Words4(block) == Quad(g, i, old(Words4(block)))
  {
    hide Xor32;
    block[2] := Xor32(block[2], g(i, 0, block[3]));
    block[1] := Xor32(block[1], g(i, 1, block[2]));
    block[0] := Xor32(block[0], g(i, 2, block[1]));
    block[3] := Xor32(block[3], g(i, 3, block[0]));
  }

  /** QBAR. */
  method ApplyQuadBar(g: RoundFn, i: nat, block: array<bv32>)
    requires block.Length == 4
    modifies block
    ensures Words4(block) == QuadBar(g, i, old(Words4(block)))
  {
    hide Xor32;
    block[3] := Xor32(block[3], g(i, 3, block[0]));
    block[0] := Xor32(block[0], g(i, 2, block[1]));
    block[1] := Xor32(block[1], g(i, 1, block[2]));
    block[2] := Xor32(block[2], g(i, 0, block[3]));
  }

  /** Six forward rounds and six reverse rounds in place, with the keys in the given order: both
      ciphers have this form. */
  method TwelveRounds(g: RoundFn, forward: seq<nat>, back: seq<nat>, block: array<bv32>)
    requires block.Length == 4 && |forward| == 6 && |back| == 6
    modifies block
    ensures Words4(block) == QuadBars(g, back, Quads(g, forward, old(Words4(block))))
  {
    hide Quad, QuadBar;
    for i := 0 to 6
      invariant Quads(g, forward[i..], Words4(block)) == Quads(g, forward, old(Words4(block)))
    {
      ApplyQuad(g, forward[i], block);
      assert forward[i..][1..] == forward[i + 1..];
    }
    ghost var middle := Words4(block);
    for i := 0 to 6
      invariant QuadBars(g, back[i..], Words4(block)) == QuadBars(g, back, middle)
    {
      ApplyQuadBar(g, back[i], block);
      assert back[i..][1..] == back[i + 1..];
    }
  }

  /** cast6_encrypt. */
  method EncryptBlock(g: RoundFn, block: array<bv32>)
    requires block.Length == 4
    modifies block
    ensures Words4(block) == Encrypt(g, old(Words4(block)))
    ensures Decrypt(g, Words4(block)) == old(Words4(block))
  {
    DecryptInverts(g, Words4(block));
    TwelveRounds(g, FIRST_HALF, SECOND_HALF, block);
  }

  /** cast6_decrypt. */
  method DecryptBlock(g: RoundFn, block: array<bv32>)
    requires block.Length == 4
    modifies block
    ensures Words4(block) == Decrypt(g, old(Words4(block)))
  {
    TwelveRounds(g, [11, 10, 9, 8, 7, 6], [5, 4, 3, 2, 1, 0], block);
  }
}

/** Blowfish (kernel/crypto/blowfish.c); f stands for bf_F with any S-boxes. */
module Blowfish {
  import opened Words

  datatype Pair = Pair(l: bv32, r: bv32)

  /** ROUND twice, first on (yr, yl) and then on (yl, yr). */
  function TwoRounds(f: bv32 -> bv32, k0: bv32, k1: bv32, y: Pair): Pair {
    var l := Xor32(y.l, k0);
    var r := Xor32(Xor32(y.r, f(l)), k1);
    Pair(Xor32(l, f(r)), r)
  }

  /** 2n rounds with the keys P[0], P[1], ... */
  function Up(f: bv32 -> bv32, p: seq<bv32>, n: nat, y: Pair): Pair
    requires |p| == 18 && n <= 8
  {
    if n == 0 then y else TwoRounds(f, p[2 * n - 2], p[2 * n - 1], Up(f, p, n - 1, y))
  }

  /** 2n rounds with the keys P[17], P[16], ... */
  function Down(f: bv32 -> bv32, p: seq<bv32>, n: nat, y: Pair): Pair
    requires |p| == 18 && n <= 8
  {
    if n == 0 then y else TwoRounds(f, p[19 - 2 * n], p[18 - 2 * n], Down(f, p, n - 1, y))
  }

  /** encrypt_block. */
  function Encrypt(f: bv32 -> bv32, p: seq<bv32>, y: Pair): Pair
    requires |p| == 18
  {
    var z := Up(f, p, 8, y);
    Pair(Xor32(z.r, p[17]), Xor32(z.l, p[16]))
  }

  /** bf_decrypt. */
  function Decrypt(f: bv32 -> bv32, p: seq<bv32>, y: Pair): Pair
    requires |p| == 18
  {
    var z := Down(f, p, 8, y);
    Pair(Xor32(z.r, p[0]), Xor32(z.l, p[1]))
  }

  /** Two rounds down undo two rounds up, if the halves are swapped and the keys of the rounds
      around are left pending on both sides. */
  lemma TwoRoundsInvert(f: bv32 -> bv32, k0: bv32, k1: bv32, k2: bv32, k3: bv32, y: Pair)
    ensures var z := TwoRounds(f, k0, k1, y);
            TwoRounds(f, k3, k2, Pair(Xor32(z.r, k3), Xor32(z.l, k2))) == Pair(Xor32(y.r, k1), Xor32(y.l, k0))
  {
    hide Xor32;
    var l := Xor32(y.l, k0);
    var r := Xor32(Xor32(y.r, f(l)), k1);
    var z := Pair(Xor32(l, f(r)), r);
    XorSelf(k3, r);
    SwapLast(z.l, k2, f(r));
    XorSelf(f(r), l);
    SwapLast(Xor32(y.r, f(l)), k1, f(l));
    XorSelf(f(l), y.r);
    XorSelf(k2, Xor32(z.l, f(r)));
  }

  lemma SwapLast(a: bv32, b: bv32, c: bv32)
    ensures Xor32(Xor32(a, b), c) == Xor32(Xor32(a, c), b)
  {
    hide Xor32;
    XorAssoc(a, b, c);
    XorAssoc(a, c, b);
    XorComm(b, c);
  }

  /** After 2n rounds down the state is that of 16 - 2n rounds up, swapped and with keys pending. */
  lemma {:induction false} DownMeetsUp(f: bv32 -> bv32, p: seq<bv32>, n: nat, y: Pair)
    requires |p| == 18 && n <= 8
    ensures var z := Up(f, p, 8 - n, y);
            Down(f, p, n, Encrypt(f, p, y)) == Pair(Xor32(z.r, p[17 - 2 * n]), Xor32(z.l, p[16 - 2 * n]))
  {
    hide Xor32, TwoRounds;
    if n > 0 {
      DownMeetsUp(f, p, n - 1, y);
      TwoRoundsInvert(f, p[16 - 2 * n], p[17 - 2 * n], p[18 - 2 * n], p[19 - 2 * n], Up(f, p, 8 - n, y));
    }
  }

  /** Decryption inverts encryption for every key table and any S-boxes. */
  lemma DecryptInverts(f: bv32 -> bv32, p: seq<bv32>, y: Pair)
    requires |p| == 18
    ensures Decrypt(f, p, Encrypt(f, p, y)) == y
  {
    hide Xor32, Encrypt;
    DownMeetsUp(f, p, 8, y);
    assert Up(f, p, 0, y) == y;
    XorSelf(p[1], y.r);
    XorSelf(p[0], y.l);
  }

  /** The key table read from the end. */
  function Reversed(p: seq<bv32>): (r: seq<bv32>)
    requires |p| == 18
    ensures |r| == 18 && forall i :: 0 <= i < 18 ==> r[i] == p[17 - i]
  {
    seq(18, i requires 0 <= i < 18 => p[17 - i])
  }

  lemma {:induction false} DownIsUp(f: bv32 -> bv32, p: seq<bv32>, n: nat, y: Pair)
    requires |p| == 18 && n <= 8
    ensures Down(f, p, n, y) == Up(f, Reversed(p), n, y)
  {
    if n > 0 {
      DownIsUp(f, p, n - 1, y);
    }
  }

  /** Decryption is encryption with the key table reversed, so encryption inverts decryption too. */
  lemma DecryptIsReversed(f: bv32 -> bv32, p: seq<bv32>, y: Pair)
    requires |p| == 18
    ensures Decrypt(f, p, y) == Encrypt(f, Reversed(p), y)
    ensures Encrypt(f, p, Decrypt(f, p, y)) == y
  {
    hide TwoRounds;
    var q := Reversed(p);
    DownIsUp(f, p, 8, y);
    DecryptInverts(f, q, y);
    assert Reversed(q) == p;
    DownIsUp(f, q, 8, Encrypt(f, q, y));
  }
}
