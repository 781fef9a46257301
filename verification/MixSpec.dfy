/** What mixing means, frame by frame: one definition that every mix loop of
    mix.c is proved against. */
module MixSpec {
  import opened CTypes
  import opened Formats

  /** The part of a player that mixing looks at; `data` is its valid data only. */
  datatype Source = Source(format: Format, rate: int, left: int, right: int, data: seq<byte>) {
    function FrameCount(): nat { Frames(format, |data|) }
    predicate Volumes() { 0 <= left <= VOLUME_BASE && 0 <= right <= VOLUME_BASE }
    /** Volumes whose product with any sample is an int. */
    predicate Scalable() { VolumeFits(left) && VolumeFits(right) }
  }

  /** `(b - 127) * 256` narrowed to a signed short. */
  function Widen(b: byte): int16 { var x: int := b; Wrap16((x - 127) * 256) }

  /** Sample i of a buffer, as the 16-bit value the mixer works with. Byte 255
      becomes -32768. */
  function RawSample(f: Format, data: seq<byte>, i: nat): int16
    requires (i + 1) * f.Width() <= |data|
  {
    if f.Is8() then Widen(data[i])
    else Short(data[2 * i], data[2 * i + 1])
  }

  /** Channel ch of frame i. */
  function FrameSample(f: Format, data: seq<byte>, i: nat, ch: nat): int16
    requires ch < 2 && i < Frames(f, |data|)
  {
    FrameInside(f, |data|, i);
    if f.IsMono() then RawSample(f, data, i) else RawSample(f, data, 2 * i + ch)
  }

  lemma FrameInside(f: Format, n: nat, i: nat)
    requires i < Frames(f, n)
    ensures f.IsMono() ==> (i + 1) * f.Width() <= n
    ensures !f.IsMono() ==> (2 * i + 2) * f.Width() <= n
  {
    MulMono(f.FrameSize(), i + 1, Frames(f, n));
  }

  /** Volume scaling: `sample * vol / ESD_VOLUME_BASE`. */
  function Scale(s: int, vol: int): int { Quot(s * vol, VOLUME_BASE) }

  predicate VolumeFits(vol: int) { -65535 <= vol <= 65536 }

  predicate IsInt32(x: int) { -0x8000_0000 <= x < 0x8000_0000 }

  /** Exactly these volumes can be multiplied with every sample in an int. */
  lemma VolumeFitsIff(vol: int)
    ensures VolumeFits(vol) <==> forall x: int16 :: IsInt32(x * vol)
  {
    if VolumeFits(vol) {
      forall x: int16
        ensures IsInt32(x * vol)
      {
        ProductFits(x, vol);
      }
    } else {
      var low: int16, high: int16 := -32768, 32767;
      assert !IsInt32(low * vol) || !IsInt32(high * vol);
    }
  }

  lemma ProductFits(x: int, vol: int)
    requires -32768 <= x < 32768 && VolumeFits(vol)
    ensures IsInt32(x * vol)
  {
    var m: nat := if x >= 0 then x else -x;
    MulMono(m, -65535, vol);
    MulMono(m, vol, 65536);
    assert x * vol == if x >= 0 then m * vol else -(m * vol);
  }

  /** Volume scaling as C does it, in an int that must not overflow. */
  function ScaleInt(x: int16, vol: int): (r: int)
    requires VolumeFits(vol)
    ensures r == Scale(x, vol)
  {
    ProductFits(x, vol);
    var product: int32 := x * vol;
    Quot(product, VOLUME_BASE)
  }

  /** It is the product divided by 256 and rounded toward zero. */
  lemma ScaleTruncates(x: int, vol: int)
    ensures Truncated(x * vol, 256, Scale(x, vol))
  {
    QuotTruncates(x * vol, 256);
  }

  // ---- what the bytes of a buffer mean ----

  /** Where channel ch of frame i begins: channels interleaved, 1 or 2 bytes each. */
  function Offset(f: Format, i: nat, ch: nat): nat {
    (if f.IsMono() then i else 2 * i + ch) * f.Width()
  }

  /** x is channel ch of frame i: an unsigned byte around 127 scaled to 16 bits, or
      a signed 16-bit number with its low byte first. */
  predicate Means(f: Format, data: seq<byte>, i: nat, ch: nat, x: int) {
    var p := Offset(f, i, ch);
    && p + f.Width() <= |data|
    && if f.Is8() then Narrowed((data[p] as int - 127) * 256, x)
       else Narrowed(data[p] as int + 256 * data[p + 1] as int, x)
  }

  lemma SampleMeans(f: Format, data: seq<byte>, i: nat, ch: nat, x: int)
    requires ch < 2 && i < Frames(f, |data|)
    ensures Means(f, data, i, ch, x) <==> x == FrameSample(f, data, i, ch)
  {
    hide Narrowed, Wrap16;
    FrameInside(f, |data|, i);
    var p := Offset(f, i, ch);
    if f.Is8() {
      NarrowedIff((data[p] as int - 127) * 256, x);
    } else {
      NarrowedIff(data[p] as int + 256 * data[p + 1] as int, x);
    }
  }

  /** Byte 127 is silence, and each byte up to 254 is one step of 256 more. */
  lemma WidenSteps(b: byte)
    ensures Widen(127) == 0 && Widen(255) == -32768
    ensures b < 254 ==> Widen(b + 1) == Widen(b) + 256
  {
  }

  /** Frame i, channel ch, at standard volume. */
  function Plain(s: Source, i: nat, ch: nat): int16
    requires ch < 2 && i < s.FrameCount()
  {
    FrameSample(s.format, s.data, i, ch)
  }

  /** Frame i, channel ch, with volume control. An 8-bit mono source is scaled by
      both volumes in turn; a 16-bit mono source is not narrowed after scaling. */
  function Scaled(s: Source, i: nat, ch: nat): int
    requires ch < 2 && i < s.FrameCount()
  {
    var x := Plain(s, i, ch);
    if s.format.IsMono() then
      if s.format.Is8() then Wrap16(Scale(Wrap16(Scale(x, s.left)), s.right))
      else Scale(x, if ch == 0 then s.left else s.right)
    else Wrap16(Scale(x, if ch == 0 then s.left else s.right))
  }

  /** n output frames can be taken from s without leaving its valid data. */
  predicate Covers(s: Source, rate: int, n: nat)
    requires s.rate > 0 && rate > 0
  {
    n > 0 ==> SourceFrame(n - 1, s.rate, rate) < s.FrameCount()
  }

  lemma CoversEvery(s: Source, rate: int, n: nat, j: nat)
    requires s.rate > 0 && rate > 0 && Covers(s, rate, n) && j < n
    ensures SourceFrame(j, s.rate, rate) < s.FrameCount()
  {
    SourceFrameMono(j, n - 1, s.rate, rate);
  }

  /** What s contributes to sample k of the accumulator (frame k/2, channel k%2). */
  function Contribution(s: Source, rate: int, n: nat, k: nat): int
    requires s.rate > 0 && rate > 0 && Covers(s, rate, n) && k < 2 * n
  {
    CoversEvery(s, rate, n, k / 2);
    Scaled(s, SourceFrame(k / 2, s.rate, rate), k % 2)
  }

  /** The same at standard volume: what the _sv loops add. */
  function PlainContribution(s: Source, rate: int, n: nat, k: nat): int
    requires s.rate > 0 && rate > 0 && Covers(s, rate, n) && k < 2 * n
  {
    CoversEvery(s, rate, n, k / 2);
    Plain(s, SourceFrame(k / 2, s.rate, rate), k % 2)
  }

  lemma ScaleUnit(x: int)
    ensures Scale(x, VOLUME_BASE) == x
  {
    if x >= 0 { DivSelf(x, 256); } else { DivSelf(-x, 256); assert (-x) * 256 == -(x * 256); }
  }

  /** Scaling by a volume of at most 256 keeps a sample in range. */
  lemma ScaleShrinks(x: int, vol: int)
    requires -32768 <= x <= 32767 && 0 <= vol <= VOLUME_BASE
    ensures x >= 0 ==> 0 <= Scale(x, vol) <= x
    ensures x < 0 ==> x <= Scale(x, vol) <= 0
    ensures Wrap16(Scale(x, vol)) == Scale(x, vol)
  {
    hide Wrap16;
    var m: nat := if x >= 0 then x else -x;
    MulMono(m, vol, 256);
    DivMono(m * vol, m * 256, 256);
    DivSelf(m, 256);
    assert m * vol >= 0;
    assert x * vol == if x >= 0 then m * vol else -(m * vol);
    WrapSame(Scale(x, vol));
  }

  lemma WrapSame(x: int)
    requires -32768 <= x <= 32767
    ensures Wrap16(x) == x
  {
  }

  lemma ScaledInRange(s: Source, i: nat, ch: nat)
    requires ch < 2 && i < s.FrameCount() && s.Volumes()
    ensures -32768 <= Scaled(s, i, ch) <= 32767
  {
    var x := Plain(s, i, ch);
    ScaleShrinks(x, s.left);
    ScaleShrinks(x, s.right);
  }

  /** At volume 256 on both channels the general loops add what the _sv loops add. */
  lemma StandardVolume(s: Source, rate: int, n: nat, k: nat)
    requires s.rate > 0 && rate > 0 && Covers(s, rate, n) && k < 2 * n
    requires s.left == VOLUME_BASE && s.right == VOLUME_BASE
    ensures Contribution(s, rate, n, k) == PlainContribution(s, rate, n, k)
  {
    hide Scale, SourceFrame, FrameSample, Covers;
    CoversEvery(s, rate, n, k / 2);
    var x := Plain(s, SourceFrame(k / 2, s.rate, rate), k % 2);
    ScaleUnit(x);
    assert Wrap16(x) == x;
  }
}
