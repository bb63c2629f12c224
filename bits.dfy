/**
 * Java integer semantics that the wire codec and the stack hash depend on:
 * truncation to a byte or a short, signed re-reading of a short, and
 * 32-bit wrap-around of int arithmetic.
 */
module Bits {
  /** What `readUnsignedByte` can return. */
  type uint8 = x: int | 0 <= x < 0x100

  /** What `readShort` can return (a Java `short`). */
  type int16 = x: int | -0x8000 <= x < 0x8000

  /** A Java `int`. */
  type int32 = x: int | -0x8000_0000 <= x < 0x8000_0000

  /** The byte `writeByte(v)` puts on the wire: the low 8 bits of `v`. */
  function LowByte(v: int): (b: uint8)
    ensures (v - b) % 0x100 == 0
    ensures 0 <= v < 0x100 ==> b == v
  {
    v % 0x100
  }

  /** The first (high) byte `writeShort(v)` puts on the wire. */
  function ShortHigh(v: int): uint8
  {
    (v % 0x1_0000) / 0x100
  }

  /** The second (low) byte `writeShort(v)` puts on the wire. */
  function ShortLow(v: int): uint8
  {
    v % 0x100
  }

  /** `readShort`: two big-endian bytes read back as a signed 16-bit value. */
  function ReadShortValue(hi: uint8, lo: uint8): int16
  {
    var u := hi * 0x100 + lo;
    if u < 0x8000 then u else u - 0x1_0000
  }

  /** Java's narrowing cast `(short) v`. */
  function ToShort(v: int): (s: int16)
    ensures (v - s) % 0x1_0000 == 0
  {
    (v + 0x8000) % 0x1_0000 - 0x8000
  }

  /** Java's `int` arithmetic result for the mathematical value `v`. */
  function Wrap32(v: int): (w: int32)
    ensures (v - w) % 0x1_0000_0000 == 0
  {
    (v + 0x8000_0000) % 0x1_0000_0000 - 0x8000_0000
  }

  /** A value already in the `short` range is left alone by the cast. */
  lemma ToShortOfShort(v: int16)
    ensures ToShort(v) == v
  {
  }

  /** The low byte of `v` is the low byte of its low 16 bits. */
  lemma LowByteOfLowShort(v: int)
    ensures v % 0x100 == (v % 0x1_0000) % 0x100
  {
    var q, u := v / 0x1_0000, v % 0x1_0000;
    assert v == u + (q * 0x100) * 0x100;
  }

  /** Adding before or after reducing to 16 bits gives the same 16 bits. */
  lemma AddLowShort(v: int, d: int)
    ensures (v + d) % 0x1_0000 == (v % 0x1_0000 + d) % 0x1_0000
  {
    var q, u := v / 0x1_0000, v % 0x1_0000;
    assert v + d == (u + d) + q * 0x1_0000;
  }

  /** `writeShort` followed by `readShort` yields `(short) v`, for every int `v`. */
  lemma ShortRoundTrip(v: int)
    ensures ReadShortValue(ShortHigh(v), ShortLow(v)) == ToShort(v)
  {
    var u := v % 0x1_0000;
    LowByteOfLowShort(v);
    assert ShortHigh(v) * 0x100 + ShortLow(v) == u;
    AddLowShort(v, 0x8000);
  }

  /** Wrapping an intermediate result does not change the wrapped final result. */
  lemma Wrap32MulAdd(a: int, x: int, c: int)
    ensures Wrap32(a * Wrap32(x) + c) == Wrap32(a * x + c)
  {
    var w := Wrap32(x);
    var k := (x - w) / 0x1_0000_0000;
    assert x - w == k * 0x1_0000_0000;
    assert a * x + c + 0x8000_0000 == (a * w + c + 0x8000_0000) + (a * k) * 0x1_0000_0000;
  }
}
