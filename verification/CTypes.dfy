/** The C integer types the daemon computes with, and the conversions between them.
    Everything is a mathematical integer with an explicit range; narrowing and
    wrap-around are explicit function calls. */
module CTypes {

  const TWO32 := 0x1_0000_0000

  type byte = x: int | 0 <= x < 256
  type int16 = x: int | -32768 <= x < 32768
  type int32 = x: int | -0x8000_0000 <= x < 0x8000_0000

  /** Conversion to `unsigned char`. */
  function Wrap8(x: int): byte { x % 256 }

  /** Conversion to `signed short`. */
  function Wrap16(x: int): int16 {
    var m := x % 65536;
    if m < 32768 then m else m - 65536
  }

  /** Conversion of an index product to `unsigned int`. */
  function WrapU32(x: int): int { x % TWO32 }

  /** C division: truncates toward zero. */
  function Quot(x: int, d: int): int
    requires d > 0
  {
    if x >= 0 then x / d else -((-x) / d)
  }

  function Abs(x: int): nat { if x < 0 then -x else x }

  /** q is p / d rounded toward zero, said without dividing. */
  predicate Truncated(p: int, d: int, q: int) {
    && d * Abs(q) <= Abs(p) < d * Abs(q) + d
    && (q > 0 ==> p > 0) && (q < 0 ==> p < 0)
  }

  lemma QuotTruncates(x: int, d: int)
    requires d > 0
    ensures Truncated(x, d, Quot(x, d))
  {
    var m := Abs(x);
    assert m == d * (m / d) + m % d;
  }

  lemma TruncatedOnce(p: int, d: int, q: int)
    requires d > 0 && Truncated(p, d, q)
    ensures q == Quot(p, d)
  {
    DivUnique(Abs(p), d, Abs(q));
  }

  /** x is the 16-bit value of y: in range, and the same up to multiples of 65536. */
  predicate Narrowed(y: int, x: int) { -32768 <= x < 32768 && (x - y) % 65536 == 0 }

  lemma NarrowedIff(y: int, x: int)
    ensures Narrowed(y, x) <==> x == Wrap16(y)
  {
    if Narrowed(y, x) {
      var q := (x - y) / 65536;
      assert x == y + 65536 * q;
      assert x % 65536 == y % 65536;
    }
  }

  function Min(a: int, b: int): int { if a < b then a else b }

  /** A `signed short` stored little-endian in two bytes. */
  function Short(lo: byte, hi: byte): int16 { Wrap16(lo + 256 * hi) }
  function LowByte(s: int16): byte { s % 256 }
  function HighByte(s: int16): byte { (s / 256) % 256 }

  lemma ShortRoundTrip(s: int16)
    ensures Short(LowByte(s), HighByte(s)) == s
  {
    assert s == 256 * (s / 256) + s % 256;
  }

  // ---- floor division ----

  /** q is the floor of x / d exactly when it sits in the right interval. */
  lemma DivUnique(x: int, d: int, q: int)
    requires d > 0
    requires d * q <= x < d * q + d
    ensures x / d == q
  {
    var e := x / d;
    assert x == d * e + x % d;
    if e < q {
      MulMono(d, e + 1, q);
    } else if e > q {
      MulMono(d, q + 1, e);
    }
  }

  lemma MulMono(d: int, a: int, b: int)
    requires d >= 0 && a <= b
    ensures d * a <= d * b
  {
    assert d * (b - a) >= 0;
  }

  lemma DivMono(x: int, y: int, d: int)
    requires d > 0 && x <= y
    ensures x / d <= y / d
  {
    var a, b := x / d, y / d;
    assert x == d * a + x % d && y == d * b + y % d;
    if b < a { MulMono(d, b + 1, a); }
  }

  /** floor(floor(2x/d)/2) == floor(x/d) */
  lemma DivHalf(x: int, d: int)
    requires d > 0
    ensures (2 * x / d) / 2 == x / d
  {
    var q := x / d;
    var m := x % d;
    assert x == d * q + m;
    var h := 2 * x / d;
    if 2 * m < d {
      assert d * (2 * q) <= 2 * x < d * (2 * q) + d;
      DivUnique(2 * x, d, 2 * q);
    } else {
      assert d * (2 * q + 1) == 2 * (d * q) + d;
      DivUnique(2 * x, d, 2 * q + 1);
    }
  }

  lemma DivSelf(x: int, d: int)
    requires d > 0
    ensures x * d / d == x
  {
    DivUnique(x * d, d, x);
  }
}
