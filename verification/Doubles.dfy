/** What the byte tests of the decoders mean: the numbers that IEEE 754 binary64 bytes stand for. */
module Doubles {
  import opened Common
  import opened Frames

  /** The biased exponent of an IEEE 754 binary64, little-endian. */
  function Exponent(d: seq<Byte>): int
    requires |d| == 8
  {
    var high: int, low: int := d[7], d[6];
    high % 128 * 16 + low / 16
  }

  /** Its 52-bit significand field. */
  function Significand(d: seq<Byte>): int
    requires |d| == 8
  {
    var f: int, e: int, u: int, c: int, b: int, a: int, z: int := d[6], d[5], d[4], d[3], d[2], d[1], d[0];
    ((((((f % 16) * 256 + e) * 256 + u) * 256 + c) * 256 + b) * 256 + a) * 256 + z
  }

  function Pow2(n: int): (r: real)
    ensures r > 0.0
    decreases if n < 0 then -n else n
  {
    if n == 0 then 1.0 else if n > 0 then 2.0 * Pow2(n - 1) else Pow2(n + 1) / 2.0
  }

  function Scaled(m: real, n: int): real {
    m * Pow2(n)
  }

  /** The magnitude of a finite double: subnormal without, normal with the implicit leading bit. */
  function Magnitude(d: seq<Byte>): real
    requires |d| == 8
  {
    if Exponent(d) == 0 then Scaled(Significand(d) as real, -1074)
    else Scaled(4503599627370496.0 + Significand(d) as real, Exponent(d) - 1075)
  }

  /** The number a finite double stands for. */
  function Value(d: seq<Byte>): real
    requires |d| == 8 && Exponent(d) != 2047
  {
    if d[7] >= 128 then -Magnitude(d) else Magnitude(d)
  }

  lemma FieldsOfBytes(d: seq<Byte>)
    requires |d| == 8
    ensures ExponentFull(d) <==> Exponent(d) == 2047
    ensures MantissaZero(d) <==> Significand(d) == 0
    ensures Zero(d) <==> Exponent(d) == 0 && Significand(d) == 0
    ensures 0 <= Exponent(d) && 0 <= Significand(d)
  {
    assert d[..6] == [d[0], d[1], d[2], d[3], d[4], d[5]];
  }

  lemma PositiveProduct(a: real, b: real)
    requires a >= 0.0 && b > 0.0
    ensures a * b >= 0.0 && (a * b == 0.0 <==> a == 0.0)
  {
  }

  lemma ScaledKeepsSign(m: real, n: int)
    requires m >= 0.0
    ensures Scaled(m, n) >= 0.0 && (Scaled(m, n) == 0.0 <==> m == 0.0)
  {
    PositiveProduct(m, Pow2(n));
  }

  lemma MagnitudeIsZeroOnlyOfZero(d: seq<Byte>)
    requires |d| == 8
    ensures Magnitude(d) >= 0.0 && (Magnitude(d) == 0.0 <==> Zero(d))
  {
    FieldsOfBytes(d);
    if Exponent(d) == 0 {
      ScaledKeepsSign(Significand(d) as real, -1074);
    } else {
      ScaledKeepsSign(4503599627370496.0 + Significand(d) as real, Exponent(d) - 1075);
    }
  }

  /**
   * The decoders' tests are those of IEEE 754: the full exponent marks the infinities and NaN, and of
   * the finite doubles exactly the negative numbers are below zero, negative zero not among them.
   */
  lemma TestsAreOfTheValue(d: seq<Byte>)
    requires |d| == 8
    ensures IsNaN(d) <==> Exponent(d) == 2047 && Significand(d) != 0
    ensures IsInf(d) <==> Exponent(d) == 2047 && Significand(d) == 0
    ensures Exponent(d) != 2047 ==> (BelowZero(d) <==> Value(d) < 0.0)
    ensures !ExponentFull(d) && !BelowZero(d) <==> Exponent(d) != 2047 && Value(d) >= 0.0
  {
    FieldsOfBytes(d);
    MagnitudeIsZeroOnlyOfZero(d);
  }

  /** What a relay acts on carries a finite position that is not negative. */
  lemma AcceptedPositionsAreFiniteAndNonnegative(data: seq<Byte>)
    requires GoHandle(data).Some?
    ensures var time := GoHandle(data).value.time; |time| == 8 && Exponent(time) != 2047 && Value(time) >= 0.0
  {
    AcceptedFramesAreCanonical(data);
    TestsAreOfTheValue(GoHandle(data).value.time);
  }
}
