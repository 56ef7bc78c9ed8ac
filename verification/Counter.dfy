/** The big-endian counter of kernel/crypto/algapi.c: crypto_inc, which works on 32-bit words from
    the end, and crypto_inc_byte, which finishes the first bytes. */
module Counter {

  newtype byte = x: int | 0 <= x < 256

  const WORD: nat := 0x1_0000_0000

  function Pow(n: nat): (p: nat)
    ensures p > 0
  {
    if n == 0 then 1 else 256 * Pow(n - 1)
  }

  /** The number that the bytes stand for, most significant first. */
  function Value(s: seq<byte>): (v: nat)
    ensures v < Pow(|s|)
  {
    if s == [] then 0 else 256 * Value(s[..|s| - 1]) + s[|s| - 1] as nat
  }

  /** A counter of fixed length is determined by its value. */
  lemma {:induction false} ValueInjective(s: seq<byte>, t: seq<byte>)
    requires |s| == |t| && Value(s) == Value(t)
    ensures s == t
  {
    if s != [] {
      var n := |s| - 1;
      assert s[n] == t[n] && Value(s[..n]) == Value(t[..n]);
      ValueInjective(s[..n], t[..n]);
      assert s == s[..n] + [s[n]] && t == t[..n] + [t[n]];
    }
  }

  function Zeros(n: nat): (z: seq<byte>)
    ensures |z| == n
  {
    seq(n, _ => 0)
  }

  /** The counter plus one, byte by byte with a carry. */
  function Next(s: seq<byte>): (t: seq<byte>)
    ensures |t| == |s|
  {
    if s == [] then []
    else
      var n := |s| - 1;
      if s[n] == 255 then Next(s[..n]) + [0] else s[..n] + [s[n] + 1]
  }

  lemma {:induction false} NextIsPlusOne(s: seq<byte>)
    ensures Value(Next(s)) == if Value(s) + 1 == Pow(|s|) then 0 else Value(s) + 1
    ensures Value(Next(s)) == (Value(s) + 1) % Pow(|s|)
  {
    if s != [] {
      var n := |s| - 1;
      NextIsPlusOne(s[..n]);
      assert Next(s)[..n] == if s[n] == 255 then Next(s[..n]) else s[..n];
    }
    SmallMod(Value(s), Pow(|s|));
  }

  lemma SmallMod(v: nat, p: nat)
    requires v < p
    ensures (v + 1) % p == if v + 1 == p then 0 else v + 1
  {
    if v + 1 < p {
    }
  }

  /** The carry out of the last |w| bytes decides whether the bytes before them change. */
  lemma {:induction false} NextConcat(p: seq<byte>, w: seq<byte>)
    ensures Next(p + w) == if Value(w) + 1 == Pow(|w|) then Next(p) + Zeros(|w|) else p + Next(w)
  {
    if w == [] {
      assert p + w == p;
    } else {
      var n := |w| - 1;
      assert (p + w)[..|p| + n] == p + w[..n];
      NextConcat(p, w[..n]);
      if w[n] == 255 && Value(w[..n]) + 1 == Pow(n) {
        assert Next(p) + Zeros(n) + [0] == Next(p) + Zeros(n + 1);
      } else if w[n] == 255 {
        assert p + Next(w[..n]) + [0] == p + Next(w);
      } else {
        assert p + w[..n] + [w[n] + 1] == p + Next(w);
      }
    }
  }

  // ----- 32-bit words -----

  /** be32_to_cpu of four bytes. */
  function FromBe(b0: byte, b1: byte, b2: byte, b3: byte): nat {
    ((b0 as nat * 256 + b1 as nat) * 256 + b2 as nat) * 256 + b3 as nat
  }

  /** cpu_to_be32. */
  function ToBe(c: nat): seq<byte>
    requires c < WORD
  {
    [(c / 0x100_0000) as byte, (c / 0x1_0000 % 256) as byte, (c / 256 % 256) as byte, (c % 256) as byte]
  }

  lemma FourValue(b0: byte, b1: byte, b2: byte, b3: byte)
    ensures Value([b0, b1, b2, b3]) == FromBe(b0, b1, b2, b3)
    ensures Pow(4) == WORD
  {
    assert [b0][..0] == [] && [b0, b1][..1] == [b0] && [b0, b1, b2][..2] == [b0, b1];
    assert Value([b0, b1]) == 256 * Value([b0]) + b1 as nat;
    assert Value([b0, b1, b2]) == 256 * Value([b0, b1]) + b2 as nat;
    assert [b0, b1, b2, b3][..3] == [b0, b1, b2];
    assert Pow(1) == 256 && Pow(2) == 65536 && Pow(3) == 0x100_0000;
  }

  lemma ToBeValue(c: nat)
    requires c < WORD
    ensures Value(ToBe(c)) == c
  {
    var t := ToBe(c);
    FourValue(t[0], t[1], t[2], t[3]);
    assert t == [t[0], t[1], t[2], t[3]];
    assert c / 0x1_0000 == c / 256 / 256 && c / 0x100_0000 == c / 256 / 256 / 256;
  }

  /** Incrementing a word modulo 2^32 is what the byte carry does inside it. */
  lemma WordIsNext(w: seq<byte>)
    requires |w| == 4
    ensures var c := (FromBe(w[0], w[1], w[2], w[3]) + 1) % WORD;
            ToBe(c) == Next(w) && (c == 0 <==> Value(w) + 1 == Pow(4))
  {
    assert w == [w[0], w[1], w[2], w[3]];
    FourValue(w[0], w[1], w[2], w[3]);
    NextIsPlusOne(w);
    var c := (FromBe(w[0], w[1], w[2], w[3]) + 1) % WORD;
    ToBeValue(c);
    ValueInjective(ToBe(c), Next(w));
  }

  // ----- in place -----

  /** crypto_inc_byte on the first `size` bytes. */
  method IncByte(a: array<byte>, size: nat)
    requires size <= a.Length
    modifies a
    ensures a[..] == Next(old(a[..size])) + old(a[size..])
  {
    var n := size;
    assert a[..] == a[..n] + a[n..];
    while n > 0
      invariant n <= size
      invariant a[..n] == old(a[..n])
      invariant Next(old(a[..n])) + a[n..] == Next(old(a[..size])) + old(a[size..])
    {
      n := n - 1;
      ghost var before := a[..];
      assert before[..n + 1][..n] == old(a[..n]);
      var c: byte := if a[n] == 255 then 0 else a[n] + 1;
      a[n] := c;
      assert a[n..] == [c] + before[n + 1..];
      if c != 0 {
        assert a[..] == a[..n] + a[n..];
        assert Next(old(a[..n + 1])) == old(a[..n]) + [c];
        return;
      }
      assert Next(old(a[..n + 1])) == Next(old(a[..n])) + [c];
    }
  }

  /** One word before `tail`, with the bytes p before it. */
  lemma WordStep(p: seq<byte>, w: seq<byte>, tail: seq<byte>)
    requires |w| == 4
    ensures var c := (FromBe(w[0], w[1], w[2], w[3]) + 1) % WORD;
            Next(p + w) + tail == (if c == 0 then Next(p) else p) + (ToBe(c) + tail)
  {
    WordIsNext(w);
    NextConcat(p, w);
    NextConcat([], w);
    assert [] + w == w && Next([]) + Zeros(4) == Zeros(4);
  }

  method StoreWord(a: array<byte>, at: nat, c: nat)
    requires at + 4 <= a.Length && c < WORD
    modifies a
    ensures a[..at] == old(a[..at]) && a[at..] == ToBe(c) + old(a[at + 4..])
  {
    var word := ToBe(c);
    ghost var before := a[..];
    a[at], a[at + 1], a[at + 2], a[at + 3] := word[0], word[1], word[2], word[3];
    assert a[at + 4..] == before[at + 4..];
    assert a[at..] == [a[at], a[at + 1], a[at + 2], a[at + 3]] + a[at + 4..];
  }

  /** crypto_inc: big-endian addition of one modulo 256^n, for every length n. */
  method Inc(a: array<byte>)
    modifies a
    ensures a[..] == Next(old(a[..]))
    ensures Value(a[..]) == (old(Value(a[..])) + 1) % Pow(a.Length)
  {
    hide Next, Value, ToBe, FromBe, Pow;
    var size: nat := a.Length;
    ghost var start := a[..];
    NextIsPlusOne(start);
    assert start[..size] == start;
    while size >= 4
      invariant size <= a.Length && a[..size] == start[..size]
      invariant Next(start[..size]) + a[size..] == Next(start)
    {
      size := size - 4;
      ghost var w := start[size..size + 4];
      assert a[size..size + 4] == w && start[..size] + w == start[..size + 4];
      WordStep(start[..size], w, a[size + 4..]);
      var c := (FromBe(a[size], a[size + 1], a[size + 2], a[size + 3]) + 1) % WORD;
      assert a[..size] == start[..size];
      StoreWord(a, size, c);
      if c != 0 {
        assert a[..] == a[..size] + a[size..];
        return;
      }
    }
    IncByte(a, size);
  }
}
