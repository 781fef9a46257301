/** Integers on the wire: 32 bits, in the byte order both ends share. */
module Wire {
  import opened CTypes

  /** ESD_NAME_MAX: names travel in fields of this many bytes. */
  const NAME_MAX := 128

  function EncodeInt(x: int32): (r: seq<byte>)
    ensures |r| == 4
  {
    var u := if x < 0 then x + TWO32 else x;
    [u % 256, u / 256 % 256, u / 65536 % 256, u / 16777216 % 256]
  }

  /** Four bytes as an unsigned word, lowest first. */
  function Word(a: int, b: int, c: int, d: int): int { a + 256 * b + 65536 * c + 16777216 * d }

  function DecodeInt(b: seq<byte>): int32
    requires |b| == 4
  {
    var u := Word(b[0], b[1], b[2], b[3]);
    if u < 0x8000_0000 then u else u - TWO32
  }

  /** The bytes are the number's digits in base 256, lowest first, up to 2^32. */
  lemma EncodeMeans(x: int32)
    ensures var b := EncodeInt(x);
            Word(b[0], b[1], b[2], b[3]) == if x < 0 then x + TWO32 else x
  {
    var u: int := if x < 0 then x + TWO32 else x;
    var v := u / 256;
    var w := v / 256;
    assert u / 65536 == w && u / 16777216 == w / 256;
    assert w / 256 % 256 == w / 256;
    assert u == u % 256 + 256 * (v % 256) + 65536 * (w % 256) + 16777216 * (w / 256);
  }

  lemma IntRoundTrip(x: int32)
    ensures DecodeInt(EncodeInt(x)) == x
  {
    hide EncodeInt;
    EncodeMeans(x);
  }

  /** The bytes of a word, recovered by division. */
  lemma WordDigits(a: int, b: int, c: int, d: int)
    requires 0 <= a < 256 && 0 <= b < 256 && 0 <= c < 256 && 0 <= d < 256
    ensures var u := Word(a, b, c, d);
            0 <= u < TWO32 && u % 256 == a && u / 256 % 256 == b && u / 65536 % 256 == c && u / 16777216 % 256 == d
  {
    var u := Word(a, b, c, d);
    DivUnique(u, 256, b + 256 * c + 65536 * d);
    DivUnique(b + 256 * c + 65536 * d, 256, c + 256 * d);
    DivUnique(u, 65536, c + 256 * d);
    DivUnique(c + 256 * d, 256, d);
    DivUnique(u, 16777216, d);
    DivUnique(d, 256, 0);
  }

  lemma WordRoundTrip(b: seq<byte>)
    requires |b| == 4
    ensures EncodeInt(DecodeInt(b)) == b
  {
    hide Word;
    WordDigits(b[0], b[1], b[2], b[3]);
    assert b == [b[0], b[1], b[2], b[3]];
  }
}
