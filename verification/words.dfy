/** Fixed-width unsigned integers, byte strings and network byte order. */
module Words {

  const TWO_32: int := 0x1_0000_0000
  const TWO_63: int := 0x8000_0000_0000_0000
  const TWO_64: int := 0x1_0000_0000_0000_0000

  type U8 = x: int | 0 <= x < 0x100
  type U16 = x: int | 0 <= x < 0x1_0000
  type U32 = x: int | 0 <= x < TWO_32
  type U64 = x: int | 0 <= x < TWO_64

  type Bytes = seq<U8>

  datatype Option<+T> = None | Some(value: T)

  /** Truncating conversions to an unsigned width. */
  function Wrap16(x: int): U16 { x % 0x1_0000 }

  function Wrap32(x: int): U32 { x % TWO_32 }

  function Wrap64(x: int): U64 { x % TWO_64 }

  lemma Wrap32Shift(x: int, q: int)
    ensures Wrap32(x + q * TWO_32) == Wrap32(x)
  {
    var p, r := x / TWO_32, x % TWO_32;
    assert x + q * TWO_32 == (p + q) * TWO_32 + r;
  }

  lemma Wrap32Add(a: int, b: int)
    ensures Wrap32(Wrap32(a) + b) == Wrap32(a + b)
    ensures Wrap32(a + Wrap32(b)) == Wrap32(a + b)
  {
    Wrap32Shift(Wrap32(a) + b, a / TWO_32);
    Wrap32Shift(a + Wrap32(b), b / TWO_32);
  }

  lemma Wrap32Self(a: U32)
    ensures Wrap32(a) == a
  {
  }

  lemma Wrap64Shift(x: int, q: int)
    ensures Wrap64(x + q * TWO_64) == Wrap64(x)
  {
    var p, r := x / TWO_64, x % TWO_64;
    assert x + q * TWO_64 == (p + q) * TWO_64 + r;
  }

  lemma Wrap64Add(a: int, b: int)
    ensures Wrap64(Wrap64(a) + b) == Wrap64(a + b)
    ensures Wrap64(a + Wrap64(b)) == Wrap64(a + b)
  {
    Wrap64Shift(Wrap64(a) + b, a / TWO_64);
    Wrap64Shift(a + Wrap64(b), b / TWO_64);
  }

  /** Two's-complement reading of a 64-bit word. */
  function Signed64(x: U64): int {
    if x < TWO_63 then x else x - TWO_64
  }

  function Pow256(n: nat): (p: nat)
    ensures p > 0
  {
    if n == 0 then 1 else 256 * Pow256(n - 1)
  }

  /** The `width` octets of `v`, most significant first. */
  function BigEndian(width: nat, v: nat): (b: Bytes)
    requires v < Pow256(width)
    ensures |b| == width
  {
    if width == 0 then [] else BigEndian(width - 1, v / 256) + [v % 256]
  }

  /** The number a big-endian octet string denotes. */
  function FromBigEndian(b: Bytes): nat {
    if |b| == 0 then 0 else 256 * FromBigEndian(b[..|b| - 1]) + b[|b| - 1]
  }

  lemma {:induction false} BigEndianRoundTrip(width: nat, v: nat)
    requires v < Pow256(width)
    ensures FromBigEndian(BigEndian(width, v)) == v
  {
    if width == 0 {
    } else {
      var b := BigEndian(width, v);
      assert b[..width - 1] == BigEndian(width - 1, v / 256);
      BigEndianRoundTrip(width - 1, v / 256);
    }
  }

  function Be16(v: U16): (b: Bytes)
    ensures |b| == 2
  {
    assert Pow256(2) == 0x1_0000;
    BigEndian(2, v)
  }

  function Be32(v: U32): (b: Bytes)
    ensures |b| == 4
  {
    assert Pow256(4) == TWO_32;
    BigEndian(4, v)
  }

  function Be64(v: U64): (b: Bytes)
    ensures |b| == 8
  {
    assert Pow256(8) == TWO_64;
    BigEndian(8, v)
  }

  lemma BeRoundTrip(a: U16, b: U32, c: U64)
    ensures FromBigEndian(Be16(a)) == a
    ensures FromBigEndian(Be32(b)) == b
    ensures FromBigEndian(Be64(c)) == c
  {
    assert Pow256(2) == 0x1_0000 && Pow256(4) == TWO_32 && Pow256(8) == TWO_64;
    BigEndianRoundTrip(2, a);
    BigEndianRoundTrip(4, b);
    BigEndianRoundTrip(8, c);
  }

  /** Network order: the most significant octet comes first. */
  lemma NetworkOrder(a: U16, b: U32)
    ensures Be16(a) == [a / 0x100, a % 0x100]
    ensures Be32(b) == [b / 0x100_0000, b / 0x1_0000 % 0x100, b / 0x100 % 0x100, b % 0x100]
  {
    assert Pow256(2) == 0x1_0000 && Pow256(4) == TWO_32 && Pow256(1) == 0x100;
    WireOrder(a);
    assert b / 0x1_0000 / 0x100 == b / 0x100_0000;
    assert b / 0x100 / 0x100 == b / 0x1_0000;
    var hi, lo := b / 0x1_0000, b % 0x1_0000;
    assert BigEndian(4, b) == BigEndian(3, b / 0x100) + [b % 0x100];
    assert BigEndian(3, b / 0x100) == BigEndian(2, b / 0x1_0000) + [b / 0x100 % 0x100];
    WireOrder(hi);
  }

  /** Two octets. */
  lemma WireOrder(a: nat)
    requires a < Pow256(2)
    ensures a < 0x1_0000 && BigEndian(2, a) == [a / 0x100, a % 0x100]
  {
    assert Pow256(2) == 0x1_0000;
    assert a / 0x100 / 0x100 == 0;
    assert BigEndian(1, a / 0x100) == BigEndian(0, 0) + [a / 0x100 % 0x100];
  }

  lemma ByteRoundTrip(a: U8)
    ensures FromBigEndian([a]) == a
  {
    assert [a][..0] == [];
  }

  function Sum(ws: seq<nat>): nat {
    if |ws| == 0 then 0 else ws[0] + Sum(ws[1..])
  }

  /** Concatenation of a list of byte strings. */
  function Flatten(parts: seq<Bytes>): Bytes {
    if |parts| == 0 then [] else parts[0] + Flatten(parts[1..])
  }

  lemma {:induction false} FlattenAppend(a: seq<Bytes>, b: seq<Bytes>)
    ensures Flatten(a + b) == Flatten(a) + Flatten(b)
  {
    if |a| == 0 {
      assert a + b == b;
    } else {
      assert (a + b)[0] == a[0] && (a + b)[1..] == a[1..] + b;
      FlattenAppend(a[1..], b);
    }
  }

  lemma FlattenSnoc(a: seq<Bytes>, x: Bytes)
    ensures Flatten(a + [x]) == Flatten(a) + x
  {
    FlattenAppend(a, [x]);
    assert Flatten([x]) == x + Flatten([]);
  }
}
