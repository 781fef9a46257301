/** What converting sound between formats means, said without the code's own
    arithmetic, and the laws the conversions obey. */
module TranslateMeaning {
  import opened CTypes
  import opened Formats
  import opened MixSpec
  import opened Players
  import opened Translate

  // ---- what is stored ----

  /** x is what channel ch of frame i holds: a byte, or a signed 16-bit number with
      its low byte first. */
  predicate Holds(f: Format, src: seq<byte>, i: nat, ch: nat, x: int) {
    var p := Offset(f, i, ch);
    && p + f.Width() <= |src|
    && if f.Is8() then x == src[p] else Narrowed(src[p] as int + 256 * src[p + 1] as int, x)
  }

  lemma LoadHolds(s: SourceKind, src: seq<byte>, i: nat, ch: nat, x: int)
    requires ch < 2 && i < Frames(KindFormat(s), |src|)
    ensures var k := if Single(s) then i else 2 * i + ch;
            && (k + 1) * (if Narrow(s) then 1 else 2) <= |src|
            && (Holds(KindFormat(s), src, i, ch, x) <==> x == Load(s, src, k))
  {
    hide Narrowed, Wrap16;
    var f := KindFormat(s);
    FrameInside(f, |src|, i);
    var p := Offset(f, i, ch);
    if !f.Is8() { NarrowedIff(src[p] as int + 256 * src[p + 1] as int, x); }
  }

  /** The four kinds of source are the four formats a buffer can have. */
  lemma KindIsFormat(f: Format)
    requires f.Mixable()
    ensures KindFormat(SourceOf(f)).bits == f.bits && KindFormat(SourceOf(f)).chan == f.chan
    ensures Kind(f) == SourceOf(f)
  {
  }

  // ---- one sample to one sample ----

  /** v is the byte equal to y up to multiples of 256. */
  predicate Byte(y: int, v: int) { 0 <= v < 256 && (v - y) % 256 == 0 }

  lemma ByteIff(y: int, v: int)
    ensures Byte(y, v) <==> v == Wrap8(y)
  {
    if Byte(y, v) {
      assert v == y + 256 * ((v - y) / 256);
      assert v % 256 == y % 256;
    }
  }

  /** x becomes v: unchanged in the same width, around 127 in steps of 256 otherwise. */
  ghost predicate Converted(from8: bool, to8: bool, x: int, v: int) {
    if from8 == to8 then v == x
    else if to8 then exists q :: Truncated(x, 256, q) && Byte(q + 127, v)
    else Narrowed((x - 127) * 256, v)
  }

  lemma QuotIff(x: int, d: int, q: int)
    requires d > 0
    ensures Truncated(x, d, q) <==> q == Quot(x, d)
  {
    QuotTruncates(x, d);
    if Truncated(x, d, q) { TruncatedOnce(x, d, q); }
  }

  lemma ConvertedIff(from8: bool, to8: bool, x: int, v: int)
    ensures Converted(from8, to8, x, v) <==> v == Convert(from8, to8, x)
  {
    hide Truncated, Byte, Narrowed, Quot, Wrap8, Wrap16;
    QuotIff(x, 256, Quot(x, 256));
    ByteIff(Quot(x, 256) + 127, v);
    NarrowedIff((x - 127) * 256, v);
    if from8 != to8 && to8 && Converted(from8, to8, x, v) {
      var q :| Truncated(x, 256, q) && Byte(q + 127, v);
      QuotIff(x, 256, q);
    }
  }

  // ---- two channels to one ----

  /** l and r become v: their average, rounded toward zero, each brought to the other
      width first. */
  ghost predicate Blended(from8: bool, to8: bool, l: int, r: int, v: int) {
    if from8 == to8 then Truncated(l + r, 2, v)
    else if to8 then
      exists p, q, m :: Truncated(l, 256, p) && Truncated(r, 256, q) && Truncated(p + q + 254, 2, m) && Byte(m, v)
    else exists m :: Truncated((l + r - 254) * 256, 2, m) && Narrowed(m, v)
  }

  lemma BlendedIff(from8: bool, to8: bool, l: int, r: int, v: int)
    ensures Blended(from8, to8, l, r, v) <==> v == Blend(from8, to8, l, r)
  {
    hide Truncated, Byte, Narrowed, Quot, Wrap8, Wrap16;
    var p, q := Quot(l, 256), Quot(r, 256);
    var low, high := Quot(p + q + 254, 2), Quot((l + r - 254) * 256, 2);
    assert Drop(l) + Drop(r) == p + q + 254 && l - 127 + (r - 127) == l + r - 254;
    QuotIff(l + r, 2, v);
    QuotIff(l, 256, p);
    QuotIff(r, 256, q);
    QuotIff(p + q + 254, 2, low);
    ByteIff(low, v);
    QuotIff((l + r - 254) * 256, 2, high);
    NarrowedIff(high, v);
    if from8 != to8 && Blended(from8, to8, l, r, v) { BlendedOnly(to8, l, r, v); }
  }

  lemma BlendedOnly(to8: bool, l: int, r: int, v: int)
    requires Blended(!to8, to8, l, r, v)
    ensures v == Blend(!to8, to8, l, r)
  {
    hide Truncated, Byte, Narrowed, Quot, Wrap8, Wrap16;
    if to8 {
      var p, q, m :| Truncated(l, 256, p) && Truncated(r, 256, q) && Truncated(p + q + 254, 2, m) && Byte(m, v);
      QuotIff(l, 256, p);
      QuotIff(r, 256, q);
      QuotIff(p + q + 254, 2, m);
      ByteIff(m, v);
      assert Drop(l) + Drop(r) == p + q + 254;
    } else {
      var m :| Truncated((l + r - 254) * 256, 2, m) && Narrowed(m, v);
      QuotIff((l + r - 254) * 256, 2, m);
      NarrowedIff(m, v);
      assert l - 127 + (r - 127) == l + r - 254;
    }
  }

  // ---- a whole destination sample ----

  /** Destination sample k is v: source frame i is the one due, and v its channel, its
      only channel, or both channels blended. */
  ghost predicate Rendered(s: SourceKind, to8: bool, mono: bool, src: seq<byte>, from: int, to: int, k: nat, v: int,
                           i: nat, l: int, r: int) {
    var f, j, ch := KindFormat(s), k / Channels(mono), k % Channels(mono);
    && i * to <= j * from < (i + 1) * to
    && Holds(f, src, i, 0, l) && Holds(f, src, i, 1, r)
    && if mono && !Single(s) then Blended(Narrow(s), to8, l, r, v)
       else Converted(Narrow(s), to8, if ch == 0 then l else r, v)
  }

  /** Every loop and every shortcut stores exactly that. */
  lemma SampleIs(s: SourceKind, to8: bool, mono: bool, src: seq<byte>, from: int, to: int, n: nat, k: nat, v: int,
                 i: nat, l: int, r: int)
    requires Feeds(s, src, from, to, n) && k < n * Channels(mono)
    requires Rendered(s, to8, mono, src, from, to, k, v, i, l, r)
    ensures v == Sample(s, to8, mono, src, from, to, n, k)
  {
    hide Holds, Converted, Blended, Convert, Blend, Load, SourceFrame;
    var j := k / Channels(mono);
    SourceFrameIs(j, from, to, i);
    FeedsEvery(s, src, from, to, n, j);
    LoadHolds(s, src, i, 0, l);
    LoadHolds(s, src, i, 1, r);
    ConvertedIff(Narrow(s), to8, l, v);
    ConvertedIff(Narrow(s), to8, r, v);
    BlendedIff(Narrow(s), to8, l, r, v);
  }

  // ---- laws ----

  /** Widening a byte and narrowing it again gives it back. */
  lemma WidenNarrow(b: byte)
    ensures Convert(false, true, Convert(true, false, b)) == b
  {
    var x: int := Convert(true, false, b);
    if b == 255 {
      assert x == -32768;
    } else {
      assert x == (b as int - 127) * 256;
      QuotIff(x, 256, b as int - 127);
    }
  }

  /** Narrowing a 16-bit sample and widening it again loses less than 256, toward
      silence. */
  lemma NarrowWiden(x: int16)
    ensures var y := Convert(true, false, Convert(false, true, x));
            256 > Abs(x) - Abs(y) >= 0 && (y > 0 ==> x > 0) && (y < 0 ==> x < 0)
  {
    hide Wrap8, Wrap16, Quot;
    QuotTruncates(x, 256);
    StepBack(Quot(x, 256));
  }

  lemma StepBack(q: int)
    requires -128 <= q <= 127
    ensures Wrap16((Wrap8(q + 127) as int - 127) * 256) == 256 * q
  {
    if q == -128 {
      assert Wrap8(-1) == 255;
    } else {
      assert Wrap8(q + 127) == q + 127;
    }
  }

  /** The two channels may be exchanged, and equal channels blend to themselves. */
  lemma BlendLaws(from8: bool, to8: bool, l: int, r: int)
    ensures Blend(from8, to8, l, r) == Blend(from8, to8, r, l)
    ensures Blend(from8, to8, l, l) == Convert(from8, to8, l)
  {
  }

  /** In the same width a blend lies between its channels. */
  lemma BlendBetween(l: int, r: int)
    requires l <= r
    ensures l <= Blend(true, true, l, r) <= r && l <= Blend(false, false, l, r) <= r
  {
  }
}
