/** Bytes, machine words and the two byte orders the programs use. */
module Bytes {
  type Byte = x: int | 0 <= x < 0x100
  type U32 = x: int | 0 <= x < 0x1_0000_0000
  type U64 = x: int | 0 <= x < 0x1_0000_0000_0000_0000

  const TWO_32: nat := 0x1_0000_0000
  const TWO_64: nat := 0x1_0000_0000_0000_0000

  datatype Option<+T> = None | Some(value: T)

  ghost function Pow256(n: nat): (p: nat)
    ensures p >= 1
  {
    if n == 0 then 1 else 256 * Pow256(n - 1)
  }

  /** `width` bytes of `x`, most significant byte first (htobe32, htobe64). */
  function Be(width: nat, x: nat): (b: seq<Byte>)
    ensures |b| == width
  {
    if width == 0 then [] else Be(width - 1, x / 256) + [x % 256]
  }

  /** The number whose big-endian bytes are `b` (be32toh, be64toh). */
  function FromBe(b: seq<Byte>): nat {
    if b == [] then 0 else 256 * FromBe(b[..|b| - 1]) + b[|b| - 1]
  }

  /** `width` bytes of `x`, least significant byte first: how the hosts store integers. */
  function Le(width: nat, x: nat): (b: seq<Byte>)
    ensures |b| == width
  {
    if width == 0 then [] else [x % 256] + Le(width - 1, x / 256)
  }

  function FromLe(b: seq<Byte>): nat {
    if b == [] then 0 else b[0] + 256 * FromLe(b[1..])
  }

  lemma {:induction false} BeRoundTrip(width: nat, x: nat)
    requires x < Pow256(width)
    ensures FromBe(Be(width, x)) == x
  {
    if width > 0 {
      BeRoundTrip(width - 1, x / 256);
      assert Be(width, x)[..width - 1] == Be(width - 1, x / 256);
    }
  }

  lemma {:induction false} BeInverse(b: seq<Byte>)
    ensures FromBe(b) < Pow256(|b|)
    ensures Be(|b|, FromBe(b)) == b
  {
    if b != [] {
      var front := b[..|b| - 1];
      BeInverse(front);
      assert FromBe(b) / 256 == FromBe(front) && FromBe(b) % 256 == b[|b| - 1];
      assert b == front + [b[|b| - 1]];
    }
  }

  lemma {:induction false} LeRoundTrip(width: nat, x: nat)
    requires x < Pow256(width)
    ensures FromLe(Le(width, x)) == x
  {
    if width > 0 {
      LeRoundTrip(width - 1, x / 256);
      assert Le(width, x)[1..] == Le(width - 1, x / 256);
    }
  }

  lemma {:induction false} LeInverse(b: seq<Byte>)
    ensures FromLe(b) < Pow256(|b|)
    ensures Le(|b|, FromLe(b)) == b
  {
    if b != [] {
      LeInverse(b[1..]);
      assert FromLe(b) / 256 == FromLe(b[1..]) && FromLe(b) % 256 == b[0];
    }
  }

  /** Where each byte of a number is: the most significant first, or the least. */
  lemma {:induction false} BeByte(width: nat, x: nat, i: nat)
    requires i < width
    ensures Be(width, x)[i] == x / Pow256(width - 1 - i) % 256
  {
    if i < width - 1 {
      BeByte(width - 1, x / 256, i);
      Shifted(x, width - 2 - i);
    }
  }

  lemma {:induction false} LeByte(width: nat, x: nat, i: nat)
    requires i < width
    ensures Le(width, x)[i] == x / Pow256(i) % 256
  {
    if i > 0 {
      LeByte(width - 1, x / 256, i - 1);
      Shifted(x, i - 1);
    }
  }

  lemma Scaled(b: nat, x: nat, y: nat)
    requires x <= y
    ensures b * x <= b * y
  {
  }

  lemma AtMost(b: nat, q: nat, r: nat)
    requires b > 0 && b * q < b * r + b
    ensures q <= r
  {
    if q > r { Scaled(b, r + 1, q); }
  }

  lemma Quotient(x: nat, b: nat, q: nat)
    requires b > 0 && b * q <= x < b * q + b
    ensures x / b == q
  {
    AtMost(b, q, x / b);
    AtMost(b, x / b, q);
  }

  lemma Shifted(x: nat, k: nat)
    ensures x / 256 / Pow256(k) == x / Pow256(k + 1)
  {
    var p := Pow256(k);
    var q := x / 256 / p;
    assert p * q <= x / 256 < p * q + p;
    assert 256 * (p * q) <= x < 256 * (p * q + p);
    Quotient(x, 256 * p, q);
  }

  /** The two orders of a 32-bit word, byte by byte. */
  lemma WordBytesAre(x: U32)
    ensures Le(4, x) == [x % 256, x / 256 % 256, x / 65536 % 256, x / 16777216 % 256]
    ensures Be(4, x) == [x / 16777216 % 256, x / 65536 % 256, x / 256 % 256, x % 256]
  {
    hide Be, Le;
    SmallPowers();
    LeByte(4, x, 0); LeByte(4, x, 1); LeByte(4, x, 2); LeByte(4, x, 3);
    BeByte(4, x, 0); BeByte(4, x, 1); BeByte(4, x, 2); BeByte(4, x, 3);
  }

  lemma SmallPowers()
    ensures Pow256(0) == 1 && Pow256(1) == 256 && Pow256(2) == 65536 && Pow256(3) == 16777216
  {
    assert Pow256(1) == 256 * Pow256(0);
    assert Pow256(2) == 256 * Pow256(1);
    assert Pow256(3) == 256 * Pow256(2);
  }

  lemma WordWidths()
    ensures Pow256(4) == TWO_32 && Pow256(8) == TWO_64
  {
    assert Pow256(4) == 256 * (256 * (256 * (256 * Pow256(0))));
    assert Pow256(8) == 256 * (256 * (256 * (256 * Pow256(4))));
  }

  /** Little-endian reading of the 32-bit word at byte offset `off`. */
  function WordAt(b: seq<Byte>, off: nat): (w: U32)
    requires off + 4 <= |b|
  {
    LeInverse(b[off..off + 4]);
    WordWidths();
    FromLe(b[off..off + 4])
  }

  /** A word of a part is a word of the whole. */
  lemma WordWithin(b: seq<Byte>, from: nat, to: nat, off: nat)
    requires from + off + 4 <= to <= |b|
    ensures b[from..to][off..off + 4] == b[from + off..from + off + 4]
    ensures WordAt(b[from..to], off) == WordAt(b, from + off)
  {
    var part, word := b[from..to], b[from + off..from + off + 4];
    forall i | 0 <= i < 4 ensures part[off..off + 4][i] == word[i] {
      assert part[off + i] == b[from + off + i];
    }
    assert part[off..off + 4] == word;
  }

  /** `b` with the bytes `d` stored at offset `off` (memcpy, strcpy, DMA). */
  function Put(b: seq<Byte>, off: nat, d: seq<Byte>): (r: seq<Byte>)
    requires off + |d| <= |b|
    ensures |r| == |b|
    ensures r[off..off + |d|] == d
    ensures r[..off] == b[..off] && r[off + |d|..] == b[off + |d|..]
  {
    b[..off] + d + b[off + |d|..]
  }

  /** The array of words `ws` as the hosts store it. */
  function Words(ws: seq<U32>): (b: seq<Byte>)
    ensures |b| == 4 * |ws|
  {
    if ws == [] then [] else Words(ws[..|ws| - 1]) + Le(4, ws[|ws| - 1])
  }

  /** Element `k` of an array of words, as the host stores it. */
  lemma {:induction false} WordBytes(ws: seq<U32>, k: nat)
    requires k < |ws|
    ensures Words(ws)[4 * k..4 * k + 4] == Le(4, ws[k])
  {
    var front := ws[..|ws| - 1];
    if k < |ws| - 1 {
      WordBytes(front, k);
      assert Words(ws)[4 * k..4 * k + 4] == Words(front)[4 * k..4 * k + 4];
    }
  }
}
