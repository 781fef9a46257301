/** Copying sound between formats and rates: the four `mix_from_*` functions of
    mix.c and their sixteen loops, against one frame-level definition. */
module Translate {
  import opened CTypes
  import opened Formats
  import opened MixSpec
  import opened Players
  import opened MixLoops

  // ---- what a conversion means ----

  function KindFormat(s: SourceKind): Format {
    Format(if s.Mono8? || s.Stereo8? then BITS8 else BITS16, if s.Mono8? || s.Mono16? then MONO else STEREO, STREAM,
        PLAY)
  }

  /** `get_translate_func` (mix.c:83): everything that is not 16-bit is 8-bit,
      everything that is not mono is stereo. */
  function SourceOf(f: Format): SourceKind {
    if f.IsMono() then (if f.bits == BITS16 then Mono16 else Mono8)
    else (if f.bits == BITS16 then Stereo16 else Stereo8)
  }

  predicate Narrow(s: SourceKind) { s.Mono8? || s.Stereo8? }
  predicate Single(s: SourceKind) { s.Mono8? || s.Mono16? }

  /** Sample i of the source as the loops load it. */
  function Load(s: SourceKind, src: seq<byte>, i: nat): int
    requires (i + 1) * (if Narrow(s) then 1 else 2) <= |src|
  {
    if Narrow(s) then src[i] else Short(src[2 * i], src[2 * i + 1])
  }

  /** 16 bits to 8: `x / 256 + 127`. */
  function Drop(x: int): int { Quot(x, 256) + 127 }

  /** One sample to one sample. */
  function Convert(from8: bool, to8: bool, x: int): int {
    if from8 == to8 then x
    else if to8 then Wrap8(Drop(x))
    else Wrap16((x - 127) * 256)
  }

  /** Two channels to one. */
  function Blend(from8: bool, to8: bool, l: int, r: int): int {
    if from8 == to8 then Quot(l + r, 2)
    else if to8 then Wrap8(Quot(Drop(l) + Drop(r), 2))
    else Wrap16(Quot((l - 127 + (r - 127)) * 256, 2))
  }

  /** Channel ch of a destination frame made from source frame i. */
  function Value(s: SourceKind, to8: bool, mono: bool, src: seq<byte>, i: nat, ch: nat): int
    requires ch < 2 && i < Frames(KindFormat(s), |src|)
  {
    FrameInside(KindFormat(s), |src|, i);
    if Single(s) then Convert(Narrow(s), to8, Load(s, src, i))
    else if mono then Blend(Narrow(s), to8, Load(s, src, 2 * i), Load(s, src, 2 * i + 1))
    else Convert(Narrow(s), to8, Load(s, src, 2 * i + ch))
  }

  /** n destination frames can be made without leaving the source. */
  predicate Feeds(s: SourceKind, src: seq<byte>, from: int, to: int, n: nat) {
    from > 0 && to > 0 && (n > 0 ==> SourceFrame(n - 1, from, to) < Frames(KindFormat(s), |src|))
  }

  lemma FeedsEvery(s: SourceKind, src: seq<byte>, from: int, to: int, n: nat, j: nat)
    requires Feeds(s, src, from, to, n) && j < n
    ensures SourceFrame(j, from, to) < Frames(KindFormat(s), |src|)
  {
    SourceFrameMono(j, n - 1, from, to);
  }

  /** The destination's channels and the size of a destination frame. */
  function Channels(mono: bool): nat { if mono then 1 else 2 }
  function Width(to8: bool): nat { if to8 then 1 else 2 }

  /** Destination sample k: converted source frame floor(j * from / to), where j
      is the destination frame of sample k. */
  function Sample(s: SourceKind, to8: bool, mono: bool, src: seq<byte>, from: int, to: int, n: nat, k: nat): int
    requires Feeds(s, src, from, to, n) && k < n * Channels(mono)
  {
    var j := k / Channels(mono);
    FeedsEvery(s, src, from, to, n, j);
    Value(s, to8, mono, src, SourceFrame(j, from, to), k % Channels(mono))
  }

  ghost function Samples(s: SourceKind, to8: bool, mono: bool, src: seq<byte>, from: int, to: int,
                         n: nat): (t: seq<int>)
    requires Feeds(s, src, from, to, n)
    ensures |t| == n * Channels(mono)
  {
    seq(n * Channels(mono), k requires 0 <= k < n * Channels(mono) => Sample(s, to8, mono, src, from, to, n, k))
  }

  // ---- the destination buffer ----

  /** Sample k of the destination is v. */
  ghost predicate Stored(dest: array<byte>, to8: bool, k: nat, v: int)
    reads dest
    requires (k + 1) * Width(to8) <= dest.Length
  {
    if to8 then dest[k] == v else Short(dest[2 * k], dest[2 * k + 1]) == v
  }

  /** The first wr samples are those of t, the bytes after them as before. */
  ghost predicate Written(dest: array<byte>, before: seq<byte>, to8: bool, t: seq<int>, wr: nat)
    reads dest
    requires wr <= |t| && |t| * Width(to8) <= dest.Length == |before|
  {
    && (forall k :: 0 <= k < wr ==> Stored(dest, to8, k, t[k]))
    && (forall i :: wr * Width(to8) <= i < dest.Length ==> dest[i] == before[i])
  }

  method Put8(dest: array<byte>, wr: nat, v: byte, ghost t: seq<int>, ghost before: seq<byte>)
    requires wr < |t| <= dest.Length == |before| && v == t[wr] && Written(dest, before, true, t, wr)
    modifies dest
    ensures Written(dest, before, true, t, wr + 1)
  {
    dest[wr] := v;
  }

  method Put16(dest: array<byte>, wr: nat, v: int16, ghost t: seq<int>, ghost before: seq<byte>)
    requires wr < |t| && |t| * 2 <= dest.Length == |before| && v == t[wr] && Written(dest, before, false, t, wr)
    modifies dest
    ensures Written(dest, before, false, t, wr + 1)
  {
    hide Short;
    dest[2 * wr] := LowByte(v);
    dest[2 * wr + 1] := HighByte(v);
    ShortRoundTrip(v);
  }

  // ---- indices ----

  /** count index products stay below 2^32. */
  ghost predicate ProductsFit(count: nat, from: int) { count * from <= TWO32 }

  /** They do for buffers up to ESD_MAX_WRITE_SIZE and rates up to 48000. */
  lemma MaxWriteFits(count: nat, from: int)
    requires count <= MAX_WRITE_SIZE && 0 < from <= 48000
    ensures ProductsFit(count, from)
  {
    MulMono(from, count, MAX_WRITE_SIZE);
    MulMono(MAX_WRITE_SIZE, from, 48000);
  }

  lemma MonoIndex(wr: nat, count: nat, from: int, to: int)
    requires from > 0 && to > 0 && wr < count && ProductsFit(count, from)
    ensures Index(wr, from, to) == SourceFrame(wr, from, to)
  {
    assert 0 <= wr * from < TWO32 by {
      MulMono(from, wr + 1, count);
      assert from * (wr + 1) == wr * from + from;
    }
    WrapExact(wr * from);
  }

  /** What a mono-destination loop has to store for counter wr. */
  lemma MonoAt(s: SourceKind, to8: bool, src: seq<byte>, from: int, to: int, n: nat, wr: nat, t: seq<int>)
    requires Feeds(s, src, from, to, n) && t == Samples(s, to8, true, src, from, to, n)
    requires wr < n && ProductsFit(n, from)
    ensures var i := Index(wr, from, to);
            && i < Frames(KindFormat(s), |src|) && Inside(s, src, i)
            && t[wr] == Value(s, to8, true, src, i, 0)
  {
    MonoIndex(wr, n, from, to);
    FeedsEvery(s, src, from, to, n, wr);
    FrameInside(KindFormat(s), |src|, SourceFrame(wr, from, to));
  }

  /** Frame i of the source lies in the buffer. */
  predicate Inside(s: SourceKind, src: seq<byte>, i: int) {
    match s
    case Mono8 => 0 <= i < |src|
    case Mono16 => 0 <= i && 2 * i + 1 < |src|
    case Stereo8 => 0 <= i && 2 * i + 1 < |src|
    case Stereo16 => 0 <= i && 4 * i + 3 < |src|
  }

  /** What a stereo-destination loop has to store for counter wr. */
  lemma StereoAt(s: SourceKind, to8: bool, src: seq<byte>, from: int, to: int, n: nat, wr: nat, t: seq<int>)
    requires Feeds(s, src, from, to, n) && t == Samples(s, to8, false, src, from, to, n)
    requires wr % 2 == 0 && wr < 2 * n && ProductsFit(2 * n, from)
    ensures var rd := Index(wr, from, to);
            var i := rd / 2;
            && rd - rd % 2 == 2 * i
            && i < Frames(KindFormat(s), |src|) && Inside(s, src, i)
            && t[wr] == Value(s, to8, false, src, i, 0) && t[wr + 1] == Value(s, to8, false, src, i, 1)
  {
    assert IndexFits(n, from);
    IndexExact(wr, from, to, n);
    FeedsEvery(s, src, from, to, n, wr / 2);
    FrameInside(KindFormat(s), |src|, SourceFrame(wr / 2, from, to));
    assert (wr + 1) / 2 == wr / 2 && (wr + 1) % 2 == 1;
  }

  /** At equal rates and formats the loops would copy the bytes: what `memcpy` does. */
  lemma CopyAt(s: SourceKind, src: seq<byte>, rate: int, n: nat, k: nat, t: seq<int>)
    requires Feeds(s, src, rate, rate, n) && t == Samples(s, Narrow(s), Single(s), src, rate, rate, n)
    requires k < |t|
    ensures (k + 1) * Width(Narrow(s)) <= |src| && t[k] == Load(s, src, k)
  {
    var j := k / Channels(Single(s));
    SameRateFrame(j, rate);
    FeedsEvery(s, src, rate, rate, n, j);
    FrameInside(KindFormat(s), |src|, j);
    assert !Single(s) ==> k == 2 * j + k % 2;
  }

  /** `memcpy` of the whole destination. */
  method CopyAll(s: SourceKind, dest: array<byte>, length: nat, src: seq<byte>, rate: int, ghost n: nat)
    requires Feeds(s, src, rate, rate, n) && length == n * Channels(Single(s)) * Width(Narrow(s)) <= dest.Length
    modifies dest
    ensures Written(dest, old(dest[..]), Narrow(s), Samples(s, Narrow(s), Single(s), src, rate, rate, n),
                    n * Channels(Single(s)))
  {
    hide Samples, Feeds, Short;
    ghost var t, before := Samples(s, Narrow(s), Single(s), src, rate, rate, n), dest[..];
    if length > 0 { CopyAt(s, src, rate, n, |t| - 1, t); }
    forall i | 0 <= i < length { dest[i] := src[i]; }
    forall k | 0 <= k < |t|
      ensures Stored(dest, Narrow(s), k, t[k])
    {
      CopyAt(s, src, rate, n, k, t);
    }
  }

  lemma StartWriting(dest: array<byte>, to8: bool, t: seq<int>)
    requires |t| * Width(to8) <= dest.Length
    ensures Written(dest, dest[..], to8, t, 0)
  {
  }

  lemma BlendRange(narrow: bool, l: int, r: int)
    requires if narrow then 0 <= l < 256 && 0 <= r < 256 else -32768 <= l < 32768 && -32768 <= r < 32768
    ensures if narrow then 0 <= Quot(l + r, 2) < 256 else -32768 <= Quot(l + r, 2) < 32768
  {
  }

  // ---- the sixteen loops ----

  method Stereo16ToMono8(dest: array<byte>, length: nat, src: seq<byte>, from: int, to: int, ghost n: nat)
    returns (r: nat)
    requires from > 0 && to > 0 && Feeds(Stereo16, src, from, to, n) && ProductsFit(n * 1, from)
             && length == n * 1 <= dest.Length
    modifies dest
    ensures r == length
    ensures Written(dest, old(dest[..]), true, Samples(Stereo16, true, true, src, from, to, n), n * 1)
  {
    hide Samples, Feeds, ProductsFit, Index, Frames, Wrap16, Quot, Short, Written;
    ghost var t, before := Samples(Stereo16, true, true, src, from, to, n), dest[..];
    var wr := 0;
    StartWriting(dest, true, t);
    while wr < length
      invariant wr <= |t| && Written(dest, before, true, t, wr)
    {
      MonoAt(Stereo16, true, src, from, to, n, wr, t);
      var rd := Index(wr, from, to);
      rd := rd * 2;
      var l: int := Short(src[2 * rd], src[2 * rd + 1]);
      var r: int := Short(src[2 * rd + 2], src[2 * rd + 3]);
      l := Quot(l, 256) + 127;
      r := Quot(r, 256) + 127;
      Put8(dest, wr, Wrap8(Quot(l + r, 2)), t, before);
      wr := wr + 1;
    }
    r := wr * 1;
  }

  method Stereo16ToStereo8(dest: array<byte>, length: nat, src: seq<byte>, from: int, to: int, ghost n: nat)
    returns (r: nat)
    requires from > 0 && to > 0 && Feeds(Stereo16, src, from, to, n) && ProductsFit(n * 2, from)
             && length == n * 2 <= dest.Length
    modifies dest
    ensures r == length
    ensures Written(dest, old(dest[..]), true, Samples(Stereo16, true, false, src, from, to, n), n * 2)
  {
    hide Samples, Feeds, ProductsFit, Index, Frames, Wrap16, Quot, Short, Written;
    ghost var t, before := Samples(Stereo16, true, false, src, from, to, n), dest[..];
    var wr := 0;
    StartWriting(dest, true, t);
    while wr < length
      invariant wr <= |t| && wr % 2 == 0 && Written(dest, before, true, t, wr)
    {
      StereoAt(Stereo16, true, src, from, to, n, wr, t);
      var rd := Index(wr, from, to);
      rd := rd - rd % 2;
      var l: int := Short(src[2 * rd], src[2 * rd + 1]);
      var r: int := Short(src[2 * rd + 2], src[2 * rd + 3]);
      l := Quot(l, 256) + 127;
      r := Quot(r, 256) + 127;
      Put8(dest, wr, Wrap8(l), t, before);
      Put8(dest, wr + 1, Wrap8(r), t, before);
      wr := wr + 2;
    }
    r := wr * 1;
  }

  method Stereo16ToMono16(dest: array<byte>, length: nat, src: seq<byte>, from: int, to: int, ghost n: nat)
    returns (r: nat)
    requires from > 0 && to > 0 && Feeds(Stereo16, src, from, to, n) && ProductsFit(n * 1, from)
             && length == n * 2 <= dest.Length
    modifies dest
    ensures r == length
    ensures Written(dest, old(dest[..]), false, Samples(Stereo16, false, true, src, from, to, n), n * 1)
  {
    hide Samples, Feeds, ProductsFit, Index, Frames, Wrap16, Quot, Short, Written;
    ghost var t, before := Samples(Stereo16, false, true, src, from, to, n), dest[..];
    var wr := 0;
    StartWriting(dest, false, t);
    while wr < length / 2
      invariant wr <= |t| && Written(dest, before, false, t, wr)
    {
      MonoAt(Stereo16, false, src, from, to, n, wr, t);
      var rd := Index(wr, from, to);
      rd := rd * 2;
      var l: int := Short(src[2 * rd], src[2 * rd + 1]);
      var r: int := Short(src[2 * rd + 2], src[2 * rd + 3]);
      BlendRange(false, l, r);
      Put16(dest, wr, Quot(l + r, 2), t, before);
      wr := wr + 1;
    }
    r := wr * 2;
  }

  method Stereo16ToStereo16(dest: array<byte>, length: nat, src: seq<byte>, from: int, to: int, ghost n: nat)
    returns (r: nat)
    requires from > 0 && to > 0 && Feeds(Stereo16, src, from, to, n) && ProductsFit(n * 2, from)
             && length == n * 4 <= dest.Length
    modifies dest
    ensures r == length
    ensures Written(dest, old(dest[..]), false, Samples(Stereo16, false, false, src, from, to, n), n * 2)
  {
    hide Samples, Feeds, ProductsFit, Index, Frames, Wrap16, Quot, Short, Written;
    ghost var t, before := Samples(Stereo16, false, false, src, from, to, n), dest[..];
    var wr := 0;
    StartWriting(dest, false, t);
    while wr < length / 2
      invariant wr <= |t| && wr % 2 == 0 && Written(dest, before, false, t, wr)
    {
      StereoAt(Stereo16, false, src, from, to, n, wr, t);
      var rd := Index(wr, from, to);
      rd := rd - rd % 2;
      var l: int := Short(src[2 * rd], src[2 * rd + 1]);
      var r: int := Short(src[2 * rd + 2], src[2 * rd + 3]);
      Put16(dest, wr, l, t, before);
      Put16(dest, wr + 1, r, t, before);
      wr := wr + 2;
    }
    r := wr * 2;
  }

  method Stereo8ToMono8(dest: array<byte>, length: nat, src: seq<byte>, from: int, to: int, ghost n: nat)
    returns (r: nat)
    requires from > 0 && to > 0 && Feeds(Stereo8, src, from, to, n) && ProductsFit(n * 1, from)
             && length == n * 1 <= dest.Length
    modifies dest
    ensures r == length
    ensures Written(dest, old(dest[..]), true, Samples(Stereo8, true, true, src, from, to, n), n * 1)
  {
    hide Samples, Feeds, ProductsFit, Index, Frames, Wrap16, Quot, Short, Written;
    ghost var t, before := Samples(Stereo8, true, true, src, from, to, n), dest[..];
    var wr := 0;
    StartWriting(dest, true, t);
    while wr < length
      invariant wr <= |t| && Written(dest, before, true, t, wr)
    {
      MonoAt(Stereo8, true, src, from, to, n, wr, t);
      var rd := Index(wr, from, to);
      rd := rd * 2;
      var l: int := src[rd];
      var r: int := src[rd + 1];
      BlendRange(true, l, r);
      Put8(dest, wr, Quot(l + r, 2), t, before);
      wr := wr + 1;
    }
    r := wr * 1;
  }

  method Stereo8ToStereo8(dest: array<byte>, length: nat, src: seq<byte>, from: int, to: int, ghost n: nat)
    returns (r: nat)
    requires from > 0 && to > 0 && Feeds(Stereo8, src, from, to, n) && ProductsFit(n * 2, from)
             && length == n * 2 <= dest.Length
    modifies dest
    ensures r == length
    ensures Written(dest, old(dest[..]), true, Samples(Stereo8, true, false, src, from, to, n), n * 2)
  {
    hide Samples, Feeds, ProductsFit, Index, Frames, Wrap16, Quot, Short, Written;
    ghost var t, before := Samples(Stereo8, true, false, src, from, to, n), dest[..];
    var wr := 0;
    StartWriting(dest, true, t);
    while wr < length
      invariant wr <= |t| && wr % 2 == 0 && Written(dest, before, true, t, wr)
    {
      StereoAt(Stereo8, true, src, from, to, n, wr, t);
      var rd := Index(wr, from, to);
      rd := rd - rd % 2;
      var l: int := src[rd];
      var r: int := src[rd + 1];
      Put8(dest, wr, l, t, before);
      Put8(dest, wr + 1, r, t, before);
      wr := wr + 2;
    }
    r := wr * 1;
  }

  method Stereo8ToMono16(dest: array<byte>, length: nat, src: seq<byte>, from: int, to: int, ghost n: nat)
    returns (r: nat)
    requires from > 0 && to > 0 && Feeds(Stereo8, src, from, to, n) && ProductsFit(n * 1, from)
             && length == n * 2 <= dest.Length
    modifies dest
    ensures r == length
    ensures Written(dest, old(dest[..]), false, Samples(Stereo8, false, true, src, from, to, n), n * 1)
  {
    hide Samples, Feeds, ProductsFit, Index, Frames, Wrap16, Quot, Short, Written;
    ghost var t, before := Samples(Stereo8, false, true, src, from, to, n), dest[..];
    var wr := 0;
    StartWriting(dest, false, t);
    while wr < length / 2
      invariant wr <= |t| && Written(dest, before, false, t, wr)
    {
      MonoAt(Stereo8, false, src, from, to, n, wr, t);
      var rd := Index(wr, from, to);
      rd := rd * 2;
      var l: int := src[rd];
      var r: int := src[rd + 1];
      l := l - 127;
      r := r - 127;
      Put16(dest, wr, Wrap16(Quot((l + r) * 256, 2)), t, before);
      wr := wr + 1;
    }
    r := wr * 2;
  }

  method Stereo8ToStereo16(dest: array<byte>, length: nat, src: seq<byte>, from: int, to: int, ghost n: nat)
    returns (r: nat)
    requires from > 0 && to > 0 && Feeds(Stereo8, src, from, to, n) && ProductsFit(n * 2, from)
             && length == n * 4 <= dest.Length
    modifies dest
    ensures r == length
    ensures Written(dest, old(dest[..]), false, Samples(Stereo8, false, false, src, from, to, n), n * 2)
  {
    hide Samples, Feeds, ProductsFit, Index, Frames, Wrap16, Quot, Short, Written;
    ghost var t, before := Samples(Stereo8, false, false, src, from, to, n), dest[..];
    var wr := 0;
    StartWriting(dest, false, t);
    while wr < length / 2
      invariant wr <= |t| && wr % 2 == 0 && Written(dest, before, false, t, wr)
    {
      StereoAt(Stereo8, false, src, from, to, n, wr, t);
      var rd := Index(wr, from, to);
      rd := rd - rd % 2;
      var l: int := src[rd];
      var r: int := src[rd + 1];
      l := l - 127;
      r := r - 127;
      Put16(dest, wr, Wrap16(l * 256), t, before);
      Put16(dest, wr + 1, Wrap16(r * 256), t, before);
      wr := wr + 2;
    }
    r := wr * 2;
  }

  method Mono16ToMono8(dest: array<byte>, length: nat, src: seq<byte>, from: int, to: int, ghost n: nat)
    returns (r: nat)
    requires from > 0 && to > 0 && Feeds(Mono16, src, from, to, n) && ProductsFit(n * 1, from)
             && length == n * 1 <= dest.Length
    modifies dest
    ensures r == length
    ensures Written(dest, old(dest[..]), true, Samples(Mono16, true, true, src, from, to, n), n * 1)
  {
    hide Samples, Feeds, ProductsFit, Index, Frames, Wrap16, Quot, Short, Written;
    ghost var t, before := Samples(Mono16, true, true, src, from, to, n), dest[..];
    var wr := 0;
    StartWriting(dest, true, t);
    while wr < length
      invariant wr <= |t| && Written(dest, before, true, t, wr)
    {
      MonoAt(Mono16, true, src, from, to, n, wr, t);
      var rd := Index(wr, from, to);
      var l: int := Short(src[2 * rd], src[2 * rd + 1]);
      l := Quot(l, 256) + 127;
      Put8(dest, wr, Wrap8(l), t, before);
      wr := wr + 1;
    }
    r := wr * 1;
  }

  method Mono16ToStereo8(dest: array<byte>, length: nat, src: seq<byte>, from: int, to: int, ghost n: nat)
    returns (r: nat)
    requires from > 0 && to > 0 && Feeds(Mono16, src, from, to, n) && ProductsFit(n * 2, from)
             && length == n * 2 <= dest.Length
    modifies dest
    ensures r == length
    ensures Written(dest, old(dest[..]), true, Samples(Mono16, true, false, src, from, to, n), n * 2)
  {
    hide Samples, Feeds, ProductsFit, Index, Frames, Wrap16, Quot, Short, Written;
    ghost var t, before := Samples(Mono16, true, false, src, from, to, n), dest[..];
    var wr := 0;
    StartWriting(dest, true, t);
    while wr < length
      invariant wr <= |t| && wr % 2 == 0 && Written(dest, before, true, t, wr)
    {
      StereoAt(Mono16, true, src, from, to, n, wr, t);
      var rd := Index(wr, from, to);
      rd := rd / 2;
      var l: int := Short(src[2 * rd], src[2 * rd + 1]);
      l := Quot(l, 256) + 127;
      Put8(dest, wr, Wrap8(l), t, before);
      Put8(dest, wr + 1, Wrap8(l), t, before);
      wr := wr + 2;
    }
    r := wr * 1;
  }

  method Mono16ToMono16(dest: array<byte>, length: nat, src: seq<byte>, from: int, to: int, ghost n: nat)
    returns (r: nat)
    requires from > 0 && to > 0 && Feeds(Mono16, src, from, to, n) && ProductsFit(n * 1, from)
             && length == n * 2 <= dest.Length
    modifies dest
    ensures r == length
    ensures Written(dest, old(dest[..]), false, Samples(Mono16, false, true, src, from, to, n), n * 1)
  {
    hide Samples, Feeds, ProductsFit, Index, Frames, Wrap16, Quot, Short, Written;
    ghost var t, before := Samples(Mono16, false, true, src, from, to, n), dest[..];
    var wr := 0;
    StartWriting(dest, false, t);
    while wr < length / 2
      invariant wr <= |t| && Written(dest, before, false, t, wr)
    {
      MonoAt(Mono16, false, src, from, to, n, wr, t);
      var rd := Index(wr, from, to);
      var l: int := Short(src[2 * rd], src[2 * rd + 1]);
      Put16(dest, wr, l, t, before);
      wr := wr + 1;
    }
    r := wr * 2;
  }

  method Mono16ToStereo16(dest: array<byte>, length: nat, src: seq<byte>, from: int, to: int, ghost n: nat)
    returns (r: nat)
    requires from > 0 && to > 0 && Feeds(Mono16, src, from, to, n) && ProductsFit(n * 2, from)
             && length == n * 4 <= dest.Length
    modifies dest
    ensures r == length
    ensures Written(dest, old(dest[..]), false, Samples(Mono16, false, false, src, from, to, n), n * 2)
  {
    hide Samples, Feeds, ProductsFit, Index, Frames, Wrap16, Quot, Short, Written;
    ghost var t, before := Samples(Mono16, false, false, src, from, to, n), dest[..];
    var wr := 0;
    StartWriting(dest, false, t);
    while wr < length / 2
      invariant wr <= |t| && wr % 2 == 0 && Written(dest, before, false, t, wr)
    {
      StereoAt(Mono16, false, src, from, to, n, wr, t);
      var rd := Index(wr, from, to);
      rd := rd / 2;
      var l: int := Short(src[2 * rd], src[2 * rd + 1]);
      Put16(dest, wr, l, t, before);
      Put16(dest, wr + 1, l, t, before);
      wr := wr + 2;
    }
    r := wr * 2;
  }

  method Mono8ToMono8(dest: array<byte>, length: nat, src: seq<byte>, from: int, to: int, ghost n: nat) returns (r: nat)
    requires from > 0 && to > 0 && Feeds(Mono8, src, from, to, n) && ProductsFit(n * 1, from)
             && length == n * 1 <= dest.Length
    modifies dest
    ensures r == length
    ensures Written(dest, old(dest[..]), true, Samples(Mono8, true, true, src, from, to, n), n * 1)
  {
    hide Samples, Feeds, ProductsFit, Index, Frames, Wrap16, Quot, Short, Written;
    ghost var t, before := Samples(Mono8, true, true, src, from, to, n), dest[..];
    var wr := 0;
    StartWriting(dest, true, t);
    while wr < length
      invariant wr <= |t| && Written(dest, before, true, t, wr)
    {
      MonoAt(Mono8, true, src, from, to, n, wr, t);
      var rd := Index(wr, from, to);
      var l: int := src[rd];
      Put8(dest, wr, l, t, before);
      wr := wr + 1;
    }
    r := wr * 1;
  }

  method Mono8ToStereo8(dest: array<byte>, length: nat, src: seq<byte>, from: int, to: int, ghost n: nat)
    returns (r: nat)
    requires from > 0 && to > 0 && Feeds(Mono8, src, from, to, n) && ProductsFit(n * 2, from)
             && length == n * 2 <= dest.Length
    modifies dest
    ensures r == length
    ensures Written(dest, old(dest[..]), true, Samples(Mono8, true, false, src, from, to, n), n * 2)
  {
    hide Samples, Feeds, ProductsFit, Index, Frames, Wrap16, Quot, Short, Written;
    ghost var t, before := Samples(Mono8, true, false, src, from, to, n), dest[..];
    var wr := 0;
    StartWriting(dest, true, t);
    while wr < length
      invariant wr <= |t| && wr % 2 == 0 && Written(dest, before, true, t, wr)
    {
      StereoAt(Mono8, true, src, from, to, n, wr, t);
      var rd := Index(wr, from, to);
      rd := rd / 2;
      var l: int := src[rd];
      Put8(dest, wr, l, t, before);
      Put8(dest, wr + 1, l, t, before);
      wr := wr + 2;
    }
    r := wr * 1;
  }

  method Mono8ToMono16(dest: array<byte>, length: nat, src: seq<byte>, from: int, to: int, ghost n: nat)
    returns (r: nat)
    requires from > 0 && to > 0 && Feeds(Mono8, src, from, to, n) && ProductsFit(n * 1, from)
             && length == n * 2 <= dest.Length
    modifies dest
    ensures r == length
    ensures Written(dest, old(dest[..]), false, Samples(Mono8, false, true, src, from, to, n), n * 1)
  {
    hide Samples, Feeds, ProductsFit, Index, Frames, Wrap16, Quot, Short, Written;
    ghost var t, before := Samples(Mono8, false, true, src, from, to, n), dest[..];
    var wr := 0;
    StartWriting(dest, false, t);
    while wr < length / 2
      invariant wr <= |t| && Written(dest, before, false, t, wr)
    {
      MonoAt(Mono8, false, src, from, to, n, wr, t);
      var rd := Index(wr, from, to);
      var l: int := src[rd];
      l := l - 127;
      Put16(dest, wr, Wrap16(l * 256), t, before);
      wr := wr + 1;
    }
    r := wr * 2;
  }

  method Mono8ToStereo16(dest: array<byte>, length: nat, src: seq<byte>, from: int, to: int, ghost n: nat)
    returns (r: nat)
    requires from > 0 && to > 0 && Feeds(Mono8, src, from, to, n) && ProductsFit(n * 2, from)
             && length == n * 4 <= dest.Length
    modifies dest
    ensures r == length
    ensures Written(dest, old(dest[..]), false, Samples(Mono8, false, false, src, from, to, n), n * 2)
  {
    hide Samples, Feeds, ProductsFit, Index, Frames, Wrap16, Quot, Short, Written;
    ghost var t, before := Samples(Mono8, false, false, src, from, to, n), dest[..];
    var wr := 0;
    StartWriting(dest, false, t);
    while wr < length / 2
      invariant wr <= |t| && wr % 2 == 0 && Written(dest, before, false, t, wr)
    {
      StereoAt(Mono8, false, src, from, to, n, wr, t);
      var rd := Index(wr, from, to);
      rd := rd / 2;
      var l: int := src[rd];
      l := l - 127;
      Put16(dest, wr, Wrap16(l * 256), t, before);
      Put16(dest, wr + 1, Wrap16(l * 256), t, before);
      wr := wr + 2;
    }
    r := wr * 2;
  }

  // ---- the four functions ----

  /** A call the callers of `mix_from_*` make: whole destination frames of a
      known width, enough source, and index products that fit. */
  ghost predicate Callable(s: SourceKind, dest: array<byte>, length: nat, to: int, d: Format, src: seq<byte>,
                           from: int, n: nat) {
    && from > 0 && to > 0 && length <= dest.Length && length == n * Channels(d.IsMono()) * Width(d.Is8())
    && Feeds(s, src, from, to, n) && ProductsFit(n * Channels(d.IsMono()), from)
  }

  /** `mix_from_stereo_16s` */
  method FromStereo16(dest: array<byte>, length: nat, to: int, d: Format, src: seq<byte>, from: int, ghost n: nat)
    returns (r: nat)
    requires Callable(Stereo16, dest, length, to, d, src, from, n)
    modifies dest
    ensures r == if src == [] || (d.bits != BITS8 && d.bits != BITS16) then 0 else length
    ensures r > 0 ==> Written(dest, old(dest[..]), d.Is8(), Samples(Stereo16, d.Is8(), d.IsMono(), src, from, to, n),
                              n * Channels(d.IsMono()))
    ensures r == 0 ==> dest[..] == old(dest[..])
  {
    hide Feeds, Samples, ProductsFit, Short;
    r := 0;
    if |src| == 0 { return; }
    if d.bits == BITS8 {
      if d.IsMono() {
        r := Stereo16ToMono8(dest, length, src, from, to, n);
      } else {
        r := Stereo16ToStereo8(dest, length, src, from, to, n);
      }
    } else if d.bits == BITS16 {
      if d.IsMono() {
        r := Stereo16ToMono16(dest, length, src, from, to, n);
      } else {
        if to == from {
          CopyAll(Stereo16, dest, length, src, from, n);
          r := length;
        } else {
          r := Stereo16ToStereo16(dest, length, src, from, to, n);
        }
      }
    }
  }

  /** `mix_from_stereo_8u` */
  method FromStereo8(dest: array<byte>, length: nat, to: int, d: Format, src: seq<byte>, from: int, ghost n: nat)
    returns (r: nat)
    requires Callable(Stereo8, dest, length, to, d, src, from, n)
    modifies dest
    ensures r == if src == [] || (d.bits != BITS8 && d.bits != BITS16) then 0 else length
    ensures r > 0 ==> Written(dest, old(dest[..]), d.Is8(), Samples(Stereo8, d.Is8(), d.IsMono(), src, from, to, n),
                              n * Channels(d.IsMono()))
    ensures r == 0 ==> dest[..] == old(dest[..])
  {
    hide Feeds, Samples, ProductsFit, Short;
    r := 0;
    if |src| == 0 { return; }
    if d.bits == BITS8 {
      if d.IsMono() {
        r := Stereo8ToMono8(dest, length, src, from, to, n);
      } else {
        if to == from {
          CopyAll(Stereo8, dest, length, src, from, n);
          r := length;
        } else {
          r := Stereo8ToStereo8(dest, length, src, from, to, n);
        }
      }
    } else if d.bits == BITS16 {
      if d.IsMono() {
        r := Stereo8ToMono16(dest, length, src, from, to, n);
      } else {
        r := Stereo8ToStereo16(dest, length, src, from, to, n);
      }
    }
  }

  /** `mix_from_mono_16s` */
  method FromMono16(dest: array<byte>, length: nat, to: int, d: Format, src: seq<byte>, from: int, ghost n: nat)
    returns (r: nat)
    requires Callable(Mono16, dest, length, to, d, src, from, n)
    modifies dest
    ensures r == if src == [] || (d.bits != BITS8 && d.bits != BITS16) then 0 else length
    ensures r > 0 ==> Written(dest, old(dest[..]), d.Is8(), Samples(Mono16, d.Is8(), d.IsMono(), src, from, to, n),
                              n * Channels(d.IsMono()))
    ensures r == 0 ==> dest[..] == old(dest[..])
  {
    hide Feeds, Samples, ProductsFit, Short;
    r := 0;
    if |src| == 0 { return; }
    if d.bits == BITS8 {
      if d.IsMono() {
        r := Mono16ToMono8(dest, length, src, from, to, n);
      } else {
        r := Mono16ToStereo8(dest, length, src, from, to, n);
      }
    } else if d.bits == BITS16 {
      if d.IsMono() {
        if to == from {
          CopyAll(Mono16, dest, length, src, from, n);
          r := length;
        } else {
          r := Mono16ToMono16(dest, length, src, from, to, n);
        }
      } else {
        r := Mono16ToStereo16(dest, length, src, from, to, n);
      }
    }
  }

  /** `mix_from_mono_8u` */
  method FromMono8(dest: array<byte>, length: nat, to: int, d: Format, src: seq<byte>, from: int, ghost n: nat)
    returns (r: nat)
    requires Callable(Mono8, dest, length, to, d, src, from, n)
    modifies dest
    ensures r == if src == [] || (d.bits != BITS8 && d.bits != BITS16) then 0 else length
    ensures r > 0 ==> Written(dest, old(dest[..]), d.Is8(), Samples(Mono8, d.Is8(), d.IsMono(), src, from, to, n),
                              n * Channels(d.IsMono()))
    ensures r == 0 ==> dest[..] == old(dest[..])
  {
    hide Feeds, Samples, ProductsFit, Short;
    r := 0;
    if |src| == 0 { return; }
    if d.bits == BITS8 {
      if d.IsMono() {
        if to == from {
          CopyAll(Mono8, dest, length, src, from, n);
          r := length;
        } else {
          r := Mono8ToMono8(dest, length, src, from, to, n);
        }
      } else {
        r := Mono8ToStereo8(dest, length, src, from, to, n);
      }
    } else if d.bits == BITS16 {
      if d.IsMono() {
        r := Mono8ToMono16(dest, length, src, from, to, n);
      } else {
        r := Mono8ToStereo16(dest, length, src, from, to, n);
      }
    }
  }

  /** Whatever the formats and the rates: destination frame j is the converted
      source frame floor(j * from / to). */
  method TranslateBuffer(dest: array<byte>, length: nat, to: int, d: Format, src: seq<byte>, from: int, f: Format,
                         ghost n: nat)
    returns (r: nat)
    requires Callable(SourceOf(f), dest, length, to, d, src, from, n)
    modifies dest
    ensures r == if src == [] || (d.bits != BITS8 && d.bits != BITS16) then 0 else length
    ensures r > 0 ==> Written(dest, old(dest[..]), d.Is8(), Samples(SourceOf(f), d.Is8(), d.IsMono(), src, from, to, n),
                              n * Channels(d.IsMono()))
    ensures r == 0 ==> dest[..] == old(dest[..])
  {
    if f.IsMono() {
      if f.bits == BITS16 {
        r := FromMono16(dest, length, to, d, src, from, n);
      } else {
        r := FromMono8(dest, length, to, d, src, from, n);
      }
    } else {
      if f.bits == BITS16 {
        r := FromStereo16(dest, length, to, d, src, from, n);
      } else {
        r := FromStereo8(dest, length, to, d, src, from, n);
      }
    }
  }
}
