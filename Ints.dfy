/** Fixed-width integer helpers shared by the firmware model: the C integer
    types the firmware uses (uint8_t, int8_t, int16_t, int32_t, uint32_t) are
    modelled as mathematical integers with explicit wrap-around conversions,
    and multi-byte values travel over USB as little-endian byte strings. */
module Ints {

  datatype Option<T> = None | Some(value: T)

  const INT16_MIN: int := -32768
  const INT16_MAX: int := 32767
  const INT32_MAX: int := 0x7fff_ffff
  const INT32_MIN: int := -0x8000_0000
  const TWO_32: int := 0x1_0000_0000

  predicate IsByte(x: int) { 0 <= x < 256 }
  predicate IsInt8(x: int) { -128 <= x < 128 }
  predicate IsInt16(x: int) { INT16_MIN <= x <= INT16_MAX }
  predicate IsInt32(x: int) { INT32_MIN <= x <= INT32_MAX }
  predicate IsUint32(x: int) { 0 <= x < TWO_32 }

  predicate AllBytes(s: seq<int>) { forall i :: 0 <= i < |s| ==> IsByte(s[i]) }
  predicate AllInt16(s: seq<int>) { forall i :: 0 <= i < |s| ==> IsInt16(s[i]) }

  /** Conversion to uint8_t: keep the low eight bits. */
  function ToUint8(x: int): (r: int)
    ensures IsByte(r) && (x - r) % 256 == 0
    ensures IsByte(x) ==> r == x
  {
    x % 256
  }

  /** Conversion to int8_t (two's complement wrap-around). */
  function ToInt8(x: int): (r: int)
    ensures IsInt8(r) && (x - r) % 256 == 0
    ensures IsInt8(x) ==> r == x
  {
    var m := x % 256;
    if m >= 128 then m - 256 else m
  }

  /** Conversion to int16_t (two's complement wrap-around). */
  function ToInt16(x: int): (r: int)
    ensures IsInt16(r) && (x - r) % 65536 == 0
    ensures IsInt16(x) ==> r == x
  {
    var m := x % 65536;
    if m >= 32768 then m - 65536 else m
  }

  /** Conversion to int32_t (two's complement wrap-around). */
  function ToInt32(x: int): (r: int)
    ensures IsInt32(r) && (x - r) % TWO_32 == 0
    ensures IsInt32(x) ==> r == x
  {
    var m := x % TWO_32;
    if m > INT32_MAX then m - TWO_32 else m
  }

  /** Values congruent modulo 2^32 wrap to the same int32_t. */
  lemma ToInt32Congruent(a: int, b: int)
    requires (a - b) % TWO_32 == 0
    ensures ToInt32(a) == ToInt32(b)
  {
    var k := (a - b) / TWO_32;
    assert a == b + TWO_32 * k;
    assert a % TWO_32 == b % TWO_32;
  }

  /** Adding a multiple of 2^32 does not change the int32_t value. */
  lemma ToInt32Shift(b: int, k: int)
    ensures ToInt32(b + TWO_32 * k) == ToInt32(b)
  {
    ToInt32Congruent(b + TWO_32 * k, b);
  }

  /** C's `/` on signed integers truncates toward zero (Dafny's `/` is Euclidean). */
  function CDiv(a: int, b: int): (q: int)
    requires b > 0
    ensures a >= 0 ==> q == a / b
    ensures a < 0 ==> q == -((-a) / b)
  {
    if a >= 0 then a / b else -((-a) / b)
  }

  function Pow256(n: nat): (p: nat)
    ensures p >= 1
  {
    if n == 0 then 1 else 256 * Pow256(n - 1)
  }

  /** The n low-order bytes of v, least significant first. */
  function LeBytes(v: int, n: nat): (bs: seq<int>)
    ensures |bs| == n && AllBytes(bs)
    decreases n
  {
    if n == 0 then [] else [v % 256] + LeBytes(v / 256, n - 1)
  }

  /** The unsigned value of a little-endian byte string. */
  function FromLe(bs: seq<int>): int
  {
    if bs == [] then 0 else bs[0] + 256 * FromLe(bs[1..])
  }

  lemma {:induction false} FromLeBounds(bs: seq<int>)
    requires AllBytes(bs)
    ensures 0 <= FromLe(bs) < Pow256(|bs|)
  {
    if bs != [] {
      FromLeBounds(bs[1..]);
    }
  }

  /** Encoding a value that fits in n bytes and decoding it gives it back. */
  lemma {:induction false} FromLeBytes(v: int, n: nat)
    requires 0 <= v < Pow256(n)
    ensures FromLe(LeBytes(v, n)) == v
    decreases n
  {
    if n > 0 {
      var p := Pow256(n - 1);
      assert 256 * (v / 256) <= v < 256 * p;
      FromLeBytes(v / 256, n - 1);
    }
  }

  /** Decoding then re-encoding a byte string gives back the same bytes. */
  lemma {:induction false} LeBytesFromLe(bs: seq<int>)
    requires AllBytes(bs)
    ensures LeBytes(FromLe(bs), |bs|) == bs
  {
    if bs != [] {
      FromLeBounds(bs[1..]);
      var v := FromLe(bs);
      assert v % 256 == bs[0];
      assert v / 256 == FromLe(bs[1..]);
      LeBytesFromLe(bs[1..]);
    }
  }

  /** A little-endian signed 16-bit value, as `*(int16_t *) data` reads it. */
  function Int16Le(b0: int, b1: int): (v: int)
    requires IsByte(b0) && IsByte(b1)
    ensures IsInt16(v)
    ensures LeBytes(v, 2) == [b0, b1]
  {
    var u := b0 + 256 * b1;
    LeBytesFromLe([b0, b1]);
    assert FromLe([b0, b1]) == u by {
      assert [b0, b1][1..] == [b1];
      assert [b1][1..] == [];
      assert FromLe([b1]) == b1;
    }
    var v := ToInt16(u);
    LeBytes2Congruent(v, u);
    v
  }

  /** Values congruent modulo 2^16 have the same two-byte encoding. */
  lemma LeBytes2Congruent(a: int, b: int)
    requires (a - b) % 65536 == 0
    ensures LeBytes(a, 2) == LeBytes(b, 2)
  {
    var k := (a - b) / 65536;
    assert a == b + 65536 * k;
    assert a % 256 == b % 256;
    assert a / 256 == b / 256 + 256 * k;
    assert (a / 256) % 256 == (b / 256) % 256;
  }

  /** The little-endian value of a 3-byte and of a 4-byte string, written out. */
  lemma FromLeWords(b0: int, b1: int, b2: int, b3: int)
    ensures FromLe([b0, b1, b2]) == b0 + 256 * b1 + 65536 * b2
    ensures FromLe([b0, b1, b2, b3]) == b0 + 256 * b1 + 65536 * b2 + 0x100_0000 * b3
  {
    assert [b2][1..] == [] && [b3][1..] == [];
    assert FromLe([b2]) == b2 && FromLe([b3]) == b3;
    assert [b1, b2][1..] == [b2] && [b2, b3][1..] == [b3];
    assert FromLe([b1, b2]) == b1 + 256 * b2 && FromLe([b2, b3]) == b2 + 256 * b3;
    assert [b0, b1, b2][1..] == [b1, b2] && [b1, b2, b3][1..] == [b2, b3];
    assert FromLe([b1, b2, b3]) == b1 + 256 * b2 + 65536 * b3;
    assert [b0, b1, b2, b3][1..] == [b1, b2, b3];
  }

  /** The two-byte encoding, written out. */
  lemma LeBytesTwo(v: int)
    ensures LeBytes(v, 2) == [v % 256, (v / 256) % 256]
  {
    assert LeBytes(v / 256, 1) == [(v / 256) % 256] + LeBytes(v / 256 / 256, 0);
  }

  /** Decoding the two-byte encoding of an int16_t gives the value back. */
  lemma Int16LeRoundTrip(v: int)
    requires IsInt16(v)
    ensures var bs := LeBytes(v, 2); Int16Le(bs[0], bs[1]) == v
  {
    LeBytesTwo(v);
    var lo := v % 256;
    var hi := (v / 256) % 256;
    if v >= 0 {
      assert 0 <= v / 256 < 128;
      assert hi == v / 256;
      assert lo + 256 * hi == v;
    } else {
      var p := v + 65536;
      assert v == p - 256 * 256;
      assert lo == p % 256;
      assert v / 256 == p / 256 - 256;
      assert 128 <= p / 256 < 256;
      assert hi == p / 256;
      assert lo + 256 * hi == p;
    }
  }
}
