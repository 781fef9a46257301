/** The eight mix loops of mix.c, each adding one player into the 32-bit
    accumulator. */
module MixLoops {
  import opened CTypes
  import opened Formats
  import opened MixSpec
  import opened Players

  // ---- what a loop adds, sample by sample ----

  /** The values to be added to the first 2n accumulator slots. */
  ghost function Terms(s: Source, rate: int, n: nat): (t: seq<int>)
    requires s.rate > 0 && rate > 0 && Covers(s, rate, n)
    ensures |t| == 2 * n
  {
    seq(2 * n, k requires 0 <= k < 2 * n => Contribution(s, rate, n, k))
  }

  predicate Standard(s: Source) { s.left == VOLUME_BASE && s.right == VOLUME_BASE }

  /** `wr_dat * player->rate / esd_audio_rate`, an unsigned 32-bit product. */
  function Index(wr: nat, from: int, to: int): nat
    requires from > 0 && to > 0
  {
    WrapU32(wr * from) / to
  }

  /** The index products for n output frames stay below 2^32. */
  ghost predicate IndexFits(n: nat, from: int) { 2 * n * from <= TWO32 }

  lemma WrapExact(x: int)
    requires 0 <= x < TWO32
    ensures WrapU32(x) == x
  {
  }

  lemma IndexExact(wr: nat, from: int, to: int, n: nat)
    requires from > 0 && to > 0 && wr % 2 == 0 && wr < 2 * n
    requires IndexFits(n, from)
    ensures var rd := Index(wr, from, to);
            rd / 2 == SourceFrame(wr / 2, from, to) && rd - rd % 2 == 2 * SourceFrame(wr / 2, from, to)
  {
    var j := wr / 2;
    assert wr * from == 2 * j * from;
    assert 0 <= wr * from < TWO32 by {
      MulMono(from, wr + 1, 2 * n);
      assert from * (wr + 1) == wr * from + from;
      assert from * (2 * n) == 2 * n * from;
    }
    WrapExact(wr * from);
    IndexToFrame(j, from, to);
  }

  /** The frame computed from counter wr, and what is to be added for it. */
  lemma TermAt(s: Source, rate: int, n: nat, wr: nat, t: seq<int>)
    requires s.rate > 0 && rate > 0 && Covers(s, rate, n) && t == Terms(s, rate, n)
    requires wr % 2 == 0 && wr < 2 * n && IndexFits(n, s.rate)
    ensures var i := SourceFrame(wr / 2, s.rate, rate);
            i < s.FrameCount() && t[wr] == Scaled(s, i, 0) && t[wr + 1] == Scaled(s, i, 1)
    ensures Standard(s) ==>
            var i := SourceFrame(wr / 2, s.rate, rate);
            t[wr] == Plain(s, i, 0) && t[wr + 1] == Plain(s, i, 1)
  {
    CoversEvery(s, rate, n, wr / 2);
    assert (wr + 1) / 2 == wr / 2 && (wr + 1) % 2 == 1;
    if Standard(s) {
      StandardVolume(s, rate, n, wr);
      StandardVolume(s, rate, n, wr + 1);
    }
  }

  lemma Mono8At(s: Source, rate: int, n: nat, wr: nat, t: seq<int>)
    requires s.rate > 0 && rate > 0 && Covers(s, rate, n) && t == Terms(s, rate, n)
    requires wr % 2 == 0 && wr < 2 * n && IndexFits(n, s.rate)
    requires s.format.Mixable() && Kind(s.format) == Mono8
    ensures var i := Index(wr, s.rate, rate) / 2;
            0 <= i < |s.data|
    ensures var i := Index(wr, s.rate, rate) / 2;
            var x := Widen(s.data[i]);
            t[wr] == t[wr + 1] == Wrap16(Scale(Wrap16(Scale(x, s.left)), s.right))
            && (Standard(s) ==> t[wr] == t[wr + 1] == x)
  {
    IndexExact(wr, s.rate, rate, n);
    TermAt(s, rate, n, wr, t);
    FrameInside(s.format, |s.data|, Index(wr, s.rate, rate) / 2);
  }

  lemma Stereo8At(s: Source, rate: int, n: nat, wr: nat, t: seq<int>)
    requires s.rate > 0 && rate > 0 && Covers(s, rate, n) && t == Terms(s, rate, n)
    requires wr % 2 == 0 && wr < 2 * n && IndexFits(n, s.rate)
    requires s.format.Mixable() && Kind(s.format) == Stereo8
    ensures var rd := Index(wr, s.rate, rate);
            var i := rd - rd % 2;
            0 <= i && i + 1 < |s.data|
    ensures var rd := Index(wr, s.rate, rate);
            var i := rd - rd % 2;
            var x, y := Widen(s.data[i]), Widen(s.data[i + 1]);
            t[wr] == Wrap16(Scale(x, s.left)) && t[wr + 1] == Wrap16(Scale(y, s.right))
            && (Standard(s) ==> t[wr] == x && t[wr + 1] == y)
  {
    IndexExact(wr, s.rate, rate, n);
    TermAt(s, rate, n, wr, t);
    FrameInside(s.format, |s.data|, SourceFrame(wr / 2, s.rate, rate));
  }

  lemma Mono16At(s: Source, rate: int, n: nat, wr: nat, t: seq<int>)
    requires s.rate > 0 && rate > 0 && Covers(s, rate, n) && t == Terms(s, rate, n)
    requires wr % 2 == 0 && wr < 2 * n && IndexFits(n, s.rate)
    requires s.format.Mixable() && Kind(s.format) == Mono16
    ensures var i := Index(wr, s.rate, rate) / 2;
            0 <= 2 * i + 1 < |s.data|
    ensures var i := Index(wr, s.rate, rate) / 2;
            var x := Short(s.data[2 * i], s.data[2 * i + 1]);
            t[wr] == Scale(x, s.left) && t[wr + 1] == Scale(x, s.right)
            && (Standard(s) ==> t[wr] == t[wr + 1] == x)
  {
    IndexExact(wr, s.rate, rate, n);
    TermAt(s, rate, n, wr, t);
    FrameInside(s.format, |s.data|, Index(wr, s.rate, rate) / 2);
  }

  lemma Stereo16At(s: Source, rate: int, n: nat, wr: nat, t: seq<int>)
    requires s.rate > 0 && rate > 0 && Covers(s, rate, n) && t == Terms(s, rate, n)
    requires wr % 2 == 0 && wr < 2 * n && IndexFits(n, s.rate)
    requires s.format.Mixable() && Kind(s.format) == Stereo16
    ensures var rd := Index(wr, s.rate, rate);
            var i := rd - rd % 2;
            0 <= i && 2 * i + 3 < |s.data|
    ensures var rd := Index(wr, s.rate, rate);
            var i := rd - rd % 2;
            var x, y := Short(s.data[2 * i], s.data[2 * i + 1]), Short(s.data[2 * i + 2], s.data[2 * i + 3]);
            t[wr] == Wrap16(Scale(x, s.left)) && t[wr + 1] == Wrap16(Scale(y, s.right))
            && (Standard(s) ==> t[wr] == x && t[wr + 1] == y)
  {
    IndexExact(wr, s.rate, rate, n);
    TermAt(s, rate, n, wr, t);
    FrameInside(s.format, |s.data|, SourceFrame(wr / 2, s.rate, rate));
  }

  /** At equal rates, sample k of a stereo source goes to slot k. */
  lemma SameRateAt(s: Source, n: nat, k: nat, t: seq<int>)
    requires s.rate > 0 && Covers(s, s.rate, n) && t == Terms(s, s.rate, n)
    requires k < 2 * n && !s.format.IsMono()
    ensures (k + 1) * s.format.Width() <= |s.data|
    ensures var x := RawSample(s.format, s.data, k);
            t[k] == Wrap16(Scale(x, if k % 2 == 0 then s.left else s.right))
            && (Standard(s) ==> t[k] == x)
  {
    hide Wrap16, Scale, Widen, Short, SourceFrame, Frames;
    CoversEvery(s, s.rate, n, k / 2);
    SameRateFrame(k / 2, s.rate);
    FrameInside(s.format, |s.data|, k / 2);
    assert k == 2 * (k / 2) + k % 2;
    if Standard(s) { StandardVolume(s, s.rate, n, k); }
  }

  lemma Stereo8Same(s: Source, n: nat, k: nat, t: seq<int>)
    requires s.rate > 0 && Covers(s, s.rate, n) && t == Terms(s, s.rate, n)
    requires k < 2 * n && s.format.Mixable() && Kind(s.format) == Stereo8
    ensures k < |s.data|
    ensures var x := Widen(s.data[k]);
            t[k] == Wrap16(Scale(x, if k % 2 == 0 then s.left else s.right))
            && (Standard(s) ==> t[k] == x)
  {
    hide Terms, Covers, SourceFrame, Scale, Wrap16;
    SameRateAt(s, n, k, t);
  }

  lemma Stereo16Same(s: Source, n: nat, k: nat, t: seq<int>)
    requires s.rate > 0 && Covers(s, s.rate, n) && t == Terms(s, s.rate, n)
    requires k < 2 * n && s.format.Mixable() && Kind(s.format) == Stereo16
    ensures 2 * k + 1 < |s.data|
    ensures var x := Short(s.data[2 * k], s.data[2 * k + 1]);
            t[k] == Wrap16(Scale(x, if k % 2 == 0 then s.left else s.right))
            && (Standard(s) ==> t[k] == x)
  {
    hide Terms, Covers, SourceFrame, Scale, Wrap16;
    SameRateAt(s, n, k, t);
  }

  // ---- the accumulator ----

  ghost predicate Fits(before: seq<int>, t: seq<int>)
    requires |t| <= |before|
  {
    forall k :: 0 <= k < |t| ==> -0x8000_0000 <= before[k] + t[k] < 0x8000_0000
  }

  /** Slots below wr hold before + t, the rest are as before. */
  ghost predicate Added(mixed: array<int32>, before: seq<int>, t: seq<int>, wr: nat)
    reads mixed
    requires wr <= |t| <= mixed.Length == |before|
  {
    && (forall k :: 0 <= k < wr ==> mixed[k] == before[k] + t[k])
    && (forall k :: wr <= k < mixed.Length ==> mixed[k] == before[k])
  }

  /** `mixed_buffer[ wr_dat ] += value` */
  method AddSample(mixed: array<int32>, wr: nat, v: int, ghost t: seq<int>, ghost before: seq<int>)
    requires wr < |t| <= mixed.Length == |before| && v == t[wr]
    requires Added(mixed, before, t, wr) && Fits(before, t)
    modifies mixed
    ensures Added(mixed, before, t, wr + 1)
  {
    mixed[wr] := mixed[wr] + v;
  }

  /** `mixed_buffer[ wr_dat++ ] += l; mixed_buffer[ wr_dat++ ] += r` */
  method AddFrame(mixed: array<int32>, wr: nat, l: int, r: int, ghost t: seq<int>, ghost before: seq<int>)
    requires wr + 1 < |t| <= mixed.Length == |before| && l == t[wr] && r == t[wr + 1]
    requires Added(mixed, before, t, wr) && Fits(before, t)
    modifies mixed
    ensures Added(mixed, before, t, wr + 2)
  {
    mixed[wr] := mixed[wr] + l;
    mixed[wr + 1] := mixed[wr + 1] + r;
  }

  /** What a mix loop asks of its caller: 4 | length, an accumulator that long,
      index products below 2^32, volume products in an int, and valid data for
      every frame. */
  ghost predicate CanMix(p: Player, mixed: array<int32>, rate: int, length: nat)
    reads p, p.data
  {
    && p.Valid() && rate > 0
    && length % 4 == 0 && length / 2 <= mixed.Length
    && IndexFits(length / 4, p.rate) && p.View().Scalable()
    && Covers(p.View(), rate, length / 4)
  }

  // ---- standard volume (mix_*_to_stereo_32s_sv) ----

  method MixMono8Standard(p: Player, mixed: array<int32>, rate: int, length: nat) returns (r: nat)
    requires CanMix(p, mixed, rate, length) && Kind(p.format) == Mono8 && Standard(p.View())
    requires Fits(mixed[..], Terms(p.View(), rate, length / 4))
    modifies mixed
    ensures r == length
    ensures Added(mixed, old(mixed[..]), Terms(p.View(), rate, length / 4), length / 2)
  {
    hide Index, IndexFits, Terms, Covers, SourceFrame, Scale, Wrap16, Short, Widen, Fits, RawSample;
    ghost var s, n, before := p.View(), length / 4, mixed[..];
    ghost var t := Terms(s, rate, n);
    var wr := 0;
    while wr < length / 2
      invariant wr <= length / 2 && wr % 2 == 0 && p.View() == s
      invariant Added(mixed, before, t, wr)
    {
      Mono8At(s, rate, n, wr, t);
      var rd := Index(wr, p.rate, rate);
      rd := rd / 2;
      var sample := Widen(p.data[rd]);
      AddFrame(mixed, wr, sample, sample, t, before);
      wr := wr + 2;
    }
    r := wr * 2;
  }

  method MixStereo8Standard(p: Player, mixed: array<int32>, rate: int, length: nat) returns (r: nat)
    requires CanMix(p, mixed, rate, length) && Kind(p.format) == Stereo8 && Standard(p.View())
    requires Fits(mixed[..], Terms(p.View(), rate, length / 4))
    modifies mixed
    ensures r == length
    ensures Added(mixed, old(mixed[..]), Terms(p.View(), rate, length / 4), length / 2)
  {
    hide Index, IndexFits, Terms, Covers, SourceFrame, Scale, Wrap16, Short, Widen, Fits, RawSample;
    ghost var s, n, before := p.View(), length / 4, mixed[..];
    ghost var t := Terms(s, rate, n);
    var wr := 0;
    if p.rate == rate {
      while wr < length / 2
        invariant wr <= length / 2 && p.View() == s
        invariant Added(mixed, before, t, wr)
      {
        Stereo8Same(s, n, wr, t);
        var sample := Widen(p.data[wr]);
        AddSample(mixed, wr, sample, t, before);
        wr := wr + 1;
      }
    } else {
      while wr < length / 2
        invariant wr <= length / 2 && wr % 2 == 0 && p.View() == s
        invariant Added(mixed, before, t, wr)
      {
        Stereo8At(s, rate, n, wr, t);
        var rd := Index(wr, p.rate, rate);
        rd := rd - rd % 2;
        var l := Widen(p.data[rd]);
        var r := Widen(p.data[rd + 1]);
        AddFrame(mixed, wr, l, r, t, before);
        wr := wr + 2;
      }
    }
    r := wr * 2;
  }

  method MixMono16Standard(p: Player, mixed: array<int32>, rate: int, length: nat) returns (r: nat)
    requires CanMix(p, mixed, rate, length) && Kind(p.format) == Mono16 && Standard(p.View())
    requires Fits(mixed[..], Terms(p.View(), rate, length / 4))
    modifies mixed
    ensures r == length
    ensures Added(mixed, old(mixed[..]), Terms(p.View(), rate, length / 4), length / 2)
  {
    hide Index, IndexFits, Terms, Covers, SourceFrame, Scale, Wrap16, Short, Widen, Fits, RawSample;
    ghost var s, n, before := p.View(), length / 4, mixed[..];
    ghost var t := Terms(s, rate, n);
    var wr := 0;
    while wr < length / 2
      invariant wr <= length / 2 && wr % 2 == 0 && p.View() == s
      invariant Added(mixed, before, t, wr)
    {
      Mono16At(s, rate, n, wr, t);
      var rd := Index(wr, p.rate, rate);
      rd := rd / 2;
      var sample := Short(p.data[2 * rd], p.data[2 * rd + 1]);
      AddFrame(mixed, wr, sample, sample, t, before);
      wr := wr + 2;
    }
    r := wr * 2;
  }

  method MixStereo16Standard(p: Player, mixed: array<int32>, rate: int, length: nat) returns (r: nat)
    requires CanMix(p, mixed, rate, length) && Kind(p.format) == Stereo16 && Standard(p.View())
    requires Fits(mixed[..], Terms(p.View(), rate, length / 4))
    modifies mixed
    ensures r == length
    ensures Added(mixed, old(mixed[..]), Terms(p.View(), rate, length / 4), length / 2)
  {
    hide Index, IndexFits, Terms, Covers, SourceFrame, Scale, Wrap16, Short, Widen, Fits, RawSample;
    ghost var s, n, before := p.View(), length / 4, mixed[..];
    ghost var t := Terms(s, rate, n);
    var wr := 0;
    if p.rate == rate {
      while wr < length / 2
        invariant wr <= length / 2 && p.View() == s
        invariant Added(mixed, before, t, wr)
      {
        Stereo16Same(s, n, wr, t);
        var sample := Short(p.data[2 * wr], p.data[2 * wr + 1]);
        AddSample(mixed, wr, sample, t, before);
        wr := wr + 1;
      }
    } else {
      while wr < length / 2
        invariant wr <= length / 2 && wr % 2 == 0 && p.View() == s
        invariant Added(mixed, before, t, wr)
      {
        Stereo16At(s, rate, n, wr, t);
        var rd := Index(wr, p.rate, rate);
        rd := rd - rd % 2;
        var l := Short(p.data[2 * rd], p.data[2 * rd + 1]);
        var r := Short(p.data[2 * rd + 2], p.data[2 * rd + 3]);
        AddFrame(mixed, wr, l, r, t, before);
        wr := wr + 2;
      }
    }
    r := wr * 2;
  }

  // ---- volume control (mix_*_to_stereo_32s) ----

  /** Load, scale and add the frame at sample i. */
  method AddStereo8(p: Player, mixed: array<int32>, i: nat, wr: nat, ghost t: seq<int>, ghost before: seq<int>)
    requires p.Valid() && p.View().Scalable() && i + 1 < p.actual
    requires wr + 1 < |t| <= mixed.Length == |before| && Added(mixed, before, t, wr) && Fits(before, t)
    requires t[wr] == Wrap16(Scale(Widen(p.data[i]), p.left))
    requires t[wr + 1] == Wrap16(Scale(Widen(p.data[i + 1]), p.right))
    modifies mixed
    ensures Added(mixed, before, t, wr + 2)
  {
    hide Scale, ScaleInt, Wrap16, Short, Widen, Fits;
    var l := Wrap16(ScaleInt(Widen(p.data[i]), p.left));
    var r := Wrap16(ScaleInt(Widen(p.data[i + 1]), p.right));
    AddFrame(mixed, wr, l, r, t, before);
  }

  /** Load, scale and add the frame at sample i. */
  method AddStereo16(p: Player, mixed: array<int32>, i: nat, wr: nat, ghost t: seq<int>, ghost before: seq<int>)
    requires p.Valid() && p.View().Scalable() && 2 * i + 3 < p.actual
    requires wr + 1 < |t| <= mixed.Length == |before| && Added(mixed, before, t, wr) && Fits(before, t)
    requires t[wr] == Wrap16(Scale(Short(p.data[2 * i], p.data[2 * i + 1]), p.left))
    requires t[wr + 1] == Wrap16(Scale(Short(p.data[2 * i + 2], p.data[2 * i + 3]), p.right))
    modifies mixed
    ensures Added(mixed, before, t, wr + 2)
  {
    hide Scale, ScaleInt, Wrap16, Short, Widen, Fits;
    var l := Wrap16(ScaleInt(Short(p.data[2 * i], p.data[2 * i + 1]), p.left));
    var r := Wrap16(ScaleInt(Short(p.data[2 * i + 2], p.data[2 * i + 3]), p.right));
    AddFrame(mixed, wr, l, r, t, before);
  }

  method MixMono8Volume(p: Player, mixed: array<int32>, rate: int, length: nat) returns (r: nat)
    requires CanMix(p, mixed, rate, length) && Kind(p.format) == Mono8
    requires Fits(mixed[..], Terms(p.View(), rate, length / 4))
    modifies mixed
    ensures r == length
    ensures Added(mixed, old(mixed[..]), Terms(p.View(), rate, length / 4), length / 2)
  {
    hide Index, IndexFits, Terms, Covers, SourceFrame, Scale, ScaleInt, Wrap16, Short, Widen, Fits, RawSample;
    ghost var s, n, before := p.View(), length / 4, mixed[..];
    ghost var t := Terms(s, rate, n);
    var wr := 0;
    while wr < length / 2
      invariant wr <= length / 2 && wr % 2 == 0 && p.View() == s
      invariant Added(mixed, before, t, wr)
    {
      Mono8At(s, rate, n, wr, t);
      var rd := Index(wr, p.rate, rate);
      rd := rd / 2;
      var sample := Widen(p.data[rd]);
      sample := Wrap16(ScaleInt(sample, p.left));
      sample := Wrap16(ScaleInt(sample, p.right));
      AddFrame(mixed, wr, sample, sample, t, before);
      wr := wr + 2;
    }
    r := wr * 2;
  }

  /** The equal-rate loop. */
  method Stereo8SameRate(p: Player, mixed: array<int32>, rate: int, length: nat) returns (r: nat)
    requires CanMix(p, mixed, rate, length) && Kind(p.format) == Stereo8 && p.rate == rate
    requires Fits(mixed[..], Terms(p.View(), rate, length / 4))
    modifies mixed
    ensures r == length
    ensures Added(mixed, old(mixed[..]), Terms(p.View(), rate, length / 4), length / 2)
  {
    hide Index, IndexFits, Terms, Covers, SourceFrame, Scale, ScaleInt, Wrap16, Short, Widen, Fits, RawSample;
    ghost var s, n, before := p.View(), length / 4, mixed[..];
    ghost var t := Terms(s, rate, n);
    var wr := 0;
    while wr < length / 2
      invariant wr <= length / 2 && wr % 2 == 0 && p.View() == s
      invariant Added(mixed, before, t, wr)
    {
      Stereo8Same(s, n, wr, t);
      Stereo8Same(s, n, wr + 1, t);
      AddStereo8(p, mixed, wr, wr, t, before);
      wr := wr + 2;
    }
    r := wr * 2;
  }

  /** The resampling loop. */
  method Stereo8Resampled(p: Player, mixed: array<int32>, rate: int, length: nat) returns (r: nat)
    requires CanMix(p, mixed, rate, length) && Kind(p.format) == Stereo8
    requires Fits(mixed[..], Terms(p.View(), rate, length / 4))
    modifies mixed
    ensures r == length
    ensures Added(mixed, old(mixed[..]), Terms(p.View(), rate, length / 4), length / 2)
  {
    hide Index, IndexFits, Terms, Covers, SourceFrame, Scale, ScaleInt, Wrap16, Short, Widen, Fits, RawSample;
    ghost var s, n, before := p.View(), length / 4, mixed[..];
    ghost var t := Terms(s, rate, n);
    var wr := 0;
    while wr < length / 2
      invariant wr <= length / 2 && wr % 2 == 0 && p.View() == s
      invariant Added(mixed, before, t, wr)
    {
      Stereo8At(s, rate, n, wr, t);
      var rd := Index(wr, p.rate, rate);
      rd := rd - rd % 2;
      AddStereo8(p, mixed, rd, wr, t, before);
      wr := wr + 2;
    }
    r := wr * 2;
  }

  method MixStereo8Volume(p: Player, mixed: array<int32>, rate: int, length: nat) returns (r: nat)
    requires CanMix(p, mixed, rate, length) && Kind(p.format) == Stereo8
    requires Fits(mixed[..], Terms(p.View(), rate, length / 4))
    modifies mixed
    ensures r == length
    ensures Added(mixed, old(mixed[..]), Terms(p.View(), rate, length / 4), length / 2)
  {
    hide Terms, Fits, Added, CanMix;
    if p.rate == rate {
      r := Stereo8SameRate(p, mixed, rate, length);
    } else {
      r := Stereo8Resampled(p, mixed, rate, length);
    }
  }

  method MixMono16Volume(p: Player, mixed: array<int32>, rate: int, length: nat) returns (r: nat)
    requires CanMix(p, mixed, rate, length) && Kind(p.format) == Mono16
    requires Fits(mixed[..], Terms(p.View(), rate, length / 4))
    modifies mixed
    ensures r == length
    ensures Added(mixed, old(mixed[..]), Terms(p.View(), rate, length / 4), length / 2)
  {
    hide Index, IndexFits, Terms, Covers, SourceFrame, Scale, ScaleInt, Wrap16, Short, Widen, Fits, RawSample;
    ghost var s, n, before := p.View(), length / 4, mixed[..];
    ghost var t := Terms(s, rate, n);
    var wr := 0;
    while wr < length / 2
      invariant wr <= length / 2 && wr % 2 == 0 && p.View() == s
      invariant Added(mixed, before, t, wr)
    {
      Mono16At(s, rate, n, wr, t);
      var rd := Index(wr, p.rate, rate);
      rd := rd / 2;
      var sample := Short(p.data[2 * rd], p.data[2 * rd + 1]);
      AddFrame(mixed, wr, ScaleInt(sample, p.left), ScaleInt(sample, p.right), t, before);
      wr := wr + 2;
    }
    r := wr * 2;
  }

  /** The equal-rate loop. */
  method Stereo16SameRate(p: Player, mixed: array<int32>, rate: int, length: nat) returns (r: nat)
    requires CanMix(p, mixed, rate, length) && Kind(p.format) == Stereo16 && p.rate == rate
    requires Fits(mixed[..], Terms(p.View(), rate, length / 4))
    modifies mixed
    ensures r == length
    ensures Added(mixed, old(mixed[..]), Terms(p.View(), rate, length / 4), length / 2)
  {
    hide Index, IndexFits, Terms, Covers, SourceFrame, Scale, ScaleInt, Wrap16, Short, Widen, Fits, RawSample;
    ghost var s, n, before := p.View(), length / 4, mixed[..];
    ghost var t := Terms(s, rate, n);
    var wr := 0;
    while wr < length / 2
      invariant wr <= length / 2 && wr % 2 == 0 && p.View() == s
      invariant Added(mixed, before, t, wr)
    {
      Stereo16Same(s, n, wr, t);
      Stereo16Same(s, n, wr + 1, t);
      AddStereo16(p, mixed, wr, wr, t, before);
      wr := wr + 2;
    }
    r := wr * 2;
  }

  /** The resampling loop. */
  method Stereo16Resampled(p: Player, mixed: array<int32>, rate: int, length: nat) returns (r: nat)
    requires CanMix(p, mixed, rate, length) && Kind(p.format) == Stereo16
    requires Fits(mixed[..], Terms(p.View(), rate, length / 4))
    modifies mixed
    ensures r == length
    ensures Added(mixed, old(mixed[..]), Terms(p.View(), rate, length / 4), length / 2)
  {
    hide Index, IndexFits, Terms, Covers, SourceFrame, Scale, ScaleInt, Wrap16, Short, Widen, Fits, RawSample;
    ghost var s, n, before := p.View(), length / 4, mixed[..];
    ghost var t := Terms(s, rate, n);
    var wr := 0;
    while wr < length / 2
      invariant wr <= length / 2 && wr % 2 == 0 && p.View() == s
      invariant Added(mixed, before, t, wr)
    {
      Stereo16At(s, rate, n, wr, t);
      var rd := Index(wr, p.rate, rate);
      rd := rd - rd % 2;
      AddStereo16(p, mixed, rd, wr, t, before);
      wr := wr + 2;
    }
    r := wr * 2;
  }

  method MixStereo16Volume(p: Player, mixed: array<int32>, rate: int, length: nat) returns (r: nat)
    requires CanMix(p, mixed, rate, length) && Kind(p.format) == Stereo16
    requires Fits(mixed[..], Terms(p.View(), rate, length / 4))
    modifies mixed
    ensures r == length
    ensures Added(mixed, old(mixed[..]), Terms(p.View(), rate, length / 4), length / 2)
  {
    hide Terms, Fits, Added, CanMix;
    if p.rate == rate {
      r := Stereo16SameRate(p, mixed, rate, length);
    } else {
      r := Stereo16Resampled(p, mixed, rate, length);
    }
  }

  /** `player->mix_func( player, length )`: whichever function was chosen, the
      accumulator gains exactly the player's volume-scaled frames. */
  method MixPlayer(p: Player, mixed: array<int32>, rate: int, length: nat) returns (r: nat)
    requires CanMix(p, mixed, rate, length)
    requires Fits(mixed[..], Terms(p.View(), rate, length / 4))
    modifies mixed
    ensures r == length
    ensures Added(mixed, old(mixed[..]), Terms(p.View(), rate, length / 4), length / 2)
  {
    match p.mixFunc
    case Standard(Mono8) => r := MixMono8Standard(p, mixed, rate, length);
    case Standard(Stereo8) => r := MixStereo8Standard(p, mixed, rate, length);
    case Standard(Mono16) => r := MixMono16Standard(p, mixed, rate, length);
    case Standard(Stereo16) => r := MixStereo16Standard(p, mixed, rate, length);
    case Volume(Mono8) => r := MixMono8Volume(p, mixed, rate, length);
    case Volume(Stereo8) => r := MixStereo8Volume(p, mixed, rate, length);
    case Volume(Mono16) => r := MixMono16Volume(p, mixed, rate, length);
    case Volume(Stereo16) => r := MixStereo16Volume(p, mixed, rate, length);
  }
}
