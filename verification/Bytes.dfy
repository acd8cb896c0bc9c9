/** Octets, and the arithmetic reading of the bit operations that the wire
    formats use. */
module Bytes {
  type Byte = b: int | 0 <= b < 256

  type Octets = seq<Byte>

  const TWO_TO_64: nat := 0x1_0000_0000_0000_0000

  function Min(a: int, b: int): int {
    if a <= b then a else b
  }

  /** Rounded-up quotient. */
  function CeilDiv(a: nat, b: nat): nat
    requires b > 0
  {
    (a + b - 1) / b
  }

  function Concat(parts: seq<Octets>): Octets {
    if parts == [] then [] else parts[0] + Concat(parts[1..])
  }

  lemma {:induction false} ConcatAppend(a: seq<Octets>, b: seq<Octets>)
    ensures Concat(a + b) == Concat(a) + Concat(b)
  {
    if a == [] {
      assert a + b == b;
    } else {
      assert (a + b)[0] == a[0] && (a + b)[1..] == a[1..] + b;
      ConcatAppend(a[1..], b);
    }
  }

  /** The unsigned value of a big-endian byte string. */
  function BigEndian(s: Octets): nat {
    if s == [] then 0 else BigEndian(s[..|s| - 1]) * 256 + s[|s| - 1]
  }

  /** The 16-bit value of two bytes, most significant first. */
  function Word(hi: int, lo: int): int {
    hi * 256 + lo
  }

  function Pow256(n: nat): (p: nat)
    ensures p > 0
  {
    if n == 0 then 1 else 256 * Pow256(n - 1)
  }

  /** `width` bytes of `n`, least significant first. */
  function LittleEndian(n: nat, width: nat): (s: Octets)
    ensures |s| == width
  {
    if width == 0 then [] else [n % 256] + LittleEndian(n / 256, width - 1)
  }

  function FromLittleEndian(s: Octets): nat {
    if s == [] then 0 else s[0] + 256 * FromLittleEndian(s[1..])
  }

  lemma {:induction false} LittleEndianRoundTrip(n: nat, width: nat)
    ensures FromLittleEndian(LittleEndian(n, width)) == n % Pow256(width)
  {
    if width == 0 {
    } else {
      var s := LittleEndian(n, width);
      assert s[1..] == LittleEndian(n / 256, width - 1);
      LittleEndianRoundTrip(n / 256, width - 1);
      ModSplit(n, Pow256(width - 1));
    }
  }

  lemma ModSplit(n: nat, p: nat)
    requires p > 0
    ensures n % 256 + 256 * (n / 256 % p) == n % (256 * p)
  {
    var q, r := n / 256, n % 256;
    var h, l := q / p, q % p;
    assert n == 256 * (p * h + l) + r;
    assert n == (256 * p) * h + (256 * l + r);
    assert 0 <= 256 * l + r < 256 * p;
    UniqueRemainder(n, 256 * p, h, 256 * l + r);
  }

  lemma UniqueRemainder(n: nat, d: nat, q: nat, r: nat)
    requires d > 0 && r < d && n == d * q + r
    ensures n % d == r && n / d == q
  {
    var k := q - n / d;
    assert d * k == n % d - r;
    if k >= 1 {
      MulAtLeast(d, k);
    } else if k <= -1 {
      MulAtLeast(d, -k);
    }
  }

  lemma MulAtLeast(d: nat, k: nat)
    requires k >= 1
    ensures d * k >= d
  {
  }

  lemma {:induction false} FromLittleEndianBound(s: Octets)
    ensures FromLittleEndian(s) < Pow256(|s|)
  {
    if s == [] {
    } else {
      FromLittleEndianBound(s[1..]);
    }
  }

  /** The masks and shifts of the packet header, as arithmetic on the byte. */
  lemma HeaderMasks(b: bv8)
    ensures (b & 0x80 != 0) <==> b as int >= 128
    ensures ((b & 0x60) >> 5) as int == (b as int) / 32 % 4
    ensures (b & 0x1F) as int == (b as int) % 32
  {
  }

  /** Joining two length bytes, as arithmetic. */
  lemma WordBits(hi: bv8, lo: bv8)
    ensures (((hi as bv16) << 8) | (lo as bv16)) as int == Word(hi as int, lo as int)
  {
  }

  /** The bytes of the first-packet header, for the length with the bytes `hi`
      and `lo`: what the masks and shifts of that length give, and what the
      arithmetic on it gives. */
  lemma LengthBits(hi: bv8, lo: bv8)
    ensures var len := ((hi as bv16) << 8) | (lo as bv16);
            && 0x20 | ((len >> 8) & 0x1F) == (0x20 | (hi & 0x1F)) as bv16
            && (len >> 8) & 0xFF == hi as bv16 && len & 0xFF == lo as bv16
    ensures ((0x20 | (hi & 0x1F)) as bv16) as int == 32 + (hi as int) % 32
  {
  }

  lemma LengthBytes(hi: Byte, lo: Byte)
    ensures var n := Word(hi, lo);
            n / 256 % 32 == hi % 32 && n / 256 % 256 == hi && n % 256 == lo
  {
  }

  /** One step of the big-endian accumulation, in 64 bits, on the value whose
      top byte is `top`: that byte is shifted out. */
  lemma ShiftInBits(top: bv8, rest: bv56, b: bv8)
    ensures var v := ((top as bv64) << 56) | (rest as bv64);
            ((v << 8) | (b as bv64)) as int == (v as int) * 256 % TWO_TO_64 + b as int
  {
    ShiftParts(top, rest, b);
    ShiftedOut(top as int, rest as int);
  }

  lemma ShiftParts(top: bv8, rest: bv56, b: bv8)
    ensures var v := ((top as bv64) << 56) | (rest as bv64);
            && (v << 8) | (b as bv64) == ((rest as bv64) << 8) | (b as bv64)
            && v as int == top as int * 0x100_0000_0000_0000 + rest as int
            && (((rest as bv64) << 8) | (b as bv64)) as int == rest as int * 256 + b as int
  {
  }

  lemma ShiftedOut(top: nat, rest: nat)
    requires top < 256 && rest < 0x100_0000_0000_0000
    ensures (top * 0x100_0000_0000_0000 + rest) * 256 % TWO_TO_64 == rest * 256
  {
  }
}
