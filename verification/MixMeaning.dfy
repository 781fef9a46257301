/** What a round sounds like, said from the bytes in the players' buffers alone:
    a definition of its own that the mixer's is proved to agree with. */
module MixMeaning {
  import opened CTypes
  import opened Formats
  import opened MixSpec
  import opened RoundSpec

  // ---- one player ----

  /** Sample x of channel ch, at the volumes of s, is heard as v. An 8-bit mono
      sound goes through both volumes, any other through its channel's own. */
  ghost predicate Heard(s: Source, ch: nat, x: int, v: int) {
    if s.format.IsMono() && s.format.Is8() then
      exists y :: Truncated(x * s.left, 256, y) && Truncated(y * s.right, 256, v)
    else Truncated(x * (if ch == 0 then s.left else s.right), 256, v)
  }

  /** Output sample k is taken from frame i: the one that has begun by output frame
      k / 2 while the next has not. */
  predicate Due(s: Source, rate: int, k: nat, i: nat) {
    i * rate <= k / 2 * s.rate < (i + 1) * rate
  }

  ghost predicate Taken(s: Source, rate: int, k: nat, v: int, i: nat, x: int) {
    Due(s, rate, k, i) && Means(s.format, s.data, i, k % 2, x) && Heard(s, k % 2, x, v)
  }

  /** What s adds to output sample k. */
  ghost predicate Adds(s: Source, rate: int, k: nat, v: int) {
    if s.data == [] then v == 0 else exists i: nat, x: int :: Taken(s, rate, k, v, i, x)
  }

  lemma HeardIff(s: Source, ch: nat, x: int, v: int)
    requires s.Volumes() && ch < 2 && -32768 <= x <= 32767
    ensures Heard(s, ch, x, v) <==>
            v == if s.format.IsMono() && s.format.Is8() then Scale(Scale(x, s.left), s.right)
                 else Scale(x, if ch == 0 then s.left else s.right)
  {
    hide Truncated, Quot;
    var vol := if ch == 0 then s.left else s.right;
    ScaleIff(x, vol, v);
    ScaleIff(x, s.left, Scale(x, s.left));
    ScaleIff(Scale(x, s.left), s.right, v);
    if s.format.IsMono() && s.format.Is8() && Heard(s, ch, x, v) {
      var y :| Truncated(x * s.left, 256, y) && Truncated(y * s.right, 256, v);
      ScaleIff(x, s.left, y);
    }
  }

  lemma ScaleIff(x: int, vol: int, v: int)
    ensures Truncated(x * vol, 256, v) <==> v == Scale(x, vol)
  {
    ScaleTruncates(x, vol);
    if Truncated(x * vol, 256, v) { TruncatedOnce(x * vol, 256, v); }
  }

  /** Narrowing after scaling changes nothing at volumes up to 256. */
  lemma ScaledIs(s: Source, i: nat, ch: nat)
    requires ch < 2 && i < s.FrameCount() && s.Volumes()
    ensures var x := FrameSample(s.format, s.data, i, ch);
            Scaled(s, i, ch) == if s.format.IsMono() && s.format.Is8() then Scale(Scale(x, s.left), s.right)
                                else Scale(x, if ch == 0 then s.left else s.right)
  {
    hide Scale, Wrap16, FrameSample;
    var x: int := FrameSample(s.format, s.data, i, ch);
    ScaleShrinks(x, s.left);
    ScaleShrinks(x, s.right);
    ScaleShrinks(Scale(x, s.left), s.right);
  }

  /** The mixer's share of a player is what the player adds. */
  lemma AddsIff(s: Source, rate: int, n: nat, k: nat, v: int)
    requires CanShare(s, rate, n) && k < 2 * n
    ensures Adds(s, rate, k, v) <==> v == Share(s, rate, n, k)
  {
    if s.data != [] {
      hide Means, Heard, Scaled, FrameSample, SourceFrame;
      var i := SourceFrame(k / 2, s.rate, rate);
      CoversEvery(s, rate, n, k / 2);
      SourceFrameIs(k / 2, s.rate, rate, i);
      ShareAt(s, i, k % 2, v);
      if v == Share(s, rate, n, k) {
        assert Taken(s, rate, k, v, i, FrameSample(s.format, s.data, i, k % 2));
      }
      if Adds(s, rate, k, v) {
        var j: nat, x :| Taken(s, rate, k, v, j, x);
        SourceFrameIs(k / 2, s.rate, rate, j);
        SampleMeans(s.format, s.data, j, k % 2, x);
      }
    }
  }

  lemma ShareAt(s: Source, i: nat, ch: nat, v: int)
    requires ch < 2 && i < s.FrameCount() && s.Volumes()
    ensures var x := FrameSample(s.format, s.data, i, ch);
            Means(s.format, s.data, i, ch, x) && (Heard(s, ch, x, v) <==> v == Scaled(s, i, ch))
  {
    hide Means, Heard, Scaled, FrameSample;
    var x: int := FrameSample(s.format, s.data, i, ch);
    SampleMeans(s.format, s.data, i, ch, x);
    ScaledIs(s, i, ch);
    HeardIff(s, ch, x, v);
  }

  // ---- all players ----

  function Sum(vs: seq<int>): int { if |vs| == 0 then 0 else vs[0] + Sum(vs[1..]) }

  lemma {:induction false} SumSnoc(vs: seq<int>, v: int)
    ensures Sum(vs + [v]) == Sum(vs) + v
  {
    if |vs| == 0 {
      assert vs + [v] == [v] && [v][1..] == [];
      assert Sum([v]) == v + Sum([]);
    } else {
      assert (vs + [v])[1..] == vs[1..] + [v];
      SumSnoc(vs[1..], v);
    }
  }

  /** The total is the sum of what the players add, whoever says what that is. */
  lemma {:induction false} TotalMeans(ss: seq<Source>, rate: int, n: nat, k: nat, vs: seq<int>)
    requires Ready(ss, rate, n) && k < 2 * n && |vs| == |ss|
    requires forall i :: 0 <= i < |ss| ==> Adds(ss[i], rate, k, vs[i])
    ensures Total(ss, rate, n, k) == Sum(vs)
  {
    hide Adds, Share, CanShare;
    if |ss| > 0 {
      var m := |ss| - 1;
      TotalMeans(ss[..m], rate, n, k, vs[..m]);
      assert CanShare(ss[m], rate, n);
      AddsIff(ss[m], rate, n, k, vs[m]);
      SumSnoc(vs[..m], vs[m]);
      assert vs[..m] + [vs[m]] == vs;
    }
  }

  // ---- clipping ----

  /** The clamp is the nearest 16-bit value. */
  lemma ClipNearest(x: int, y: int)
    requires -32768 <= y <= 32767
    ensures -32768 <= Clip16(x) <= 32767 && Abs(Clip16(x) - x) <= Abs(y - x)
  {
  }

  /** The 8-bit output is 128 plus the clamped value over 256, toward zero. */
  lemma Clip8Means(x: int)
    ensures Truncated(Clip16(x), 256, Clip8(x) - 128) && 0 <= Clip8(x) <= 255
  {
    Clip8IsScaled(x);
    QuotTruncates(Clip16(x), 256);
  }

  // ---- what is left is where the next round goes on ----

  lemma ShiftCount(n: nat, z: int, q: nat)
    requires z > 0 && q * z <= n
    ensures n / z == q + (n - q * z) / z
  {
    var rest := n - q * z;
    var p := rest / z;
    assert rest == z * p + rest % z && z * (q + p) == q * z + z * p;
    DivUnique(n, z, q + p);
  }

  /** Frame i after dropping q frames is frame q + i. */
  lemma FrameShift(f: Format, data: seq<byte>, q: nat, i: nat, ch: nat)
    requires ch < 2 && q * f.FrameSize() <= |data| && i < Frames(f, |data| - q * f.FrameSize())
    ensures q + i < Frames(f, |data|)
    ensures FrameSample(f, data[q * f.FrameSize()..], i, ch) == FrameSample(f, data, q + i, ch)
  {
    hide Means, FrameSample, Frames;
    var z := f.FrameSize();
    var rest := data[q * z..];
    assert Frames(f, |data|) == q + Frames(f, |rest|) by { ShiftFrames(f, |data|, q); }
    var x := FrameSample(f, rest, i, ch);
    SampleMeans(f, rest, i, ch, x);
    MeansShift(f, data, q, i, ch, x);
    SampleMeans(f, data, q + i, ch, x);
  }

  lemma ShiftFrames(f: Format, n: nat, q: nat)
    requires q * f.FrameSize() <= n
    ensures Frames(f, n) == q + Frames(f, n - q * f.FrameSize())
  {
    ShiftCount(n, f.FrameSize(), q);
  }

  lemma MeansShift(f: Format, data: seq<byte>, q: nat, i: nat, ch: nat, x: int)
    requires q * f.FrameSize() <= |data| && Means(f, data[q * f.FrameSize()..], i, ch, x)
    ensures Means(f, data, q + i, ch, x)
  {
    hide Narrowed;
    assert Offset(f, q + i, ch) == q * f.FrameSize() + Offset(f, i, ch);
  }

  /** Playing on after n frames: at most one source frame is skipped in between. */
  lemma FrameDrift(n: nat, j: nat, from: int, to: int)
    requires from > 0 && to > 0
    ensures var a, b := SourceFrame(n, from, to), SourceFrame(j, from, to);
            && a + b <= SourceFrame(n + j, from, to) <= a + b + 1
            && (n * from % to == 0 ==> SourceFrame(n + j, from, to) == a + b)
  {
    assert (n + j) * from == n * from + j * from;
    SumDivided(n * from, j * from, to);
  }

  lemma SumDivided(u: nat, v: nat, d: int)
    requires d > 0
    ensures u / d + v / d <= (u + v) / d <= u / d + v / d + 1
    ensures u % d == 0 ==> (u + v) / d == u / d + v / d
  {
    var a, b := u / d, v / d;
    assert d * (a + b) == d * a + d * b;
    OneCarry(u + v, a + b, u % d + v % d, d);
  }

  lemma OneCarry(w: int, s: int, z: int, d: int)
    requires d > 0 && w == d * s + z && 0 <= z < 2 * d
    ensures w / d == if z < d then s else s + 1
  {
    if z < d {
      DivUnique(w, d, s);
    } else {
      assert d * (s + 1) == d * s + d;
      DivUnique(w, d, s + 1);
    }
  }

  /** A round of n frames and then one of m, when the first uses whole frames, add
      what one round of n + m would: nothing is skipped, repeated or shifted. */
  lemma RoundsJoin(s: Source, rate: int, n: nat, m: nat, k: nat)
    requires s.rate > 0 && rate > 0 && n * s.rate % rate == 0 && Covers(s, rate, n + m) && k < 2 * m
    ensures var t := s.(data := Leftover(s, rate, n));
            Covers(t, rate, m) && Contribution(t, rate, m, k) == Contribution(s, rate, n + m, 2 * n + k)
  {
    hide FrameSample, SourceFrame, Frames, Scale, Wrap16;
    var q, z := SourceFrame(n, s.rate, rate), s.format.FrameSize();
    var t := s.(data := Leftover(s, rate, n));
    CoversEvery(s, rate, n + m, n + m - 1);
    FrameDrift(n, m - 1, s.rate, rate);
    Dropped(s, q, rate, n);
    ShiftFrames(s.format, |s.data|, q);
    CoversEvery(t, rate, m, k / 2);
    FrameDrift(n, k / 2, s.rate, rate);
    FrameShift(s.format, s.data, q, SourceFrame(k / 2, s.rate, rate), k % 2);
    assert (2 * n + k) / 2 == n + k / 2 && (2 * n + k) % 2 == k % 2;
  }

  /** The first q whole frames are dropped. */
  lemma Dropped(s: Source, q: nat, rate: int, n: nat)
    requires s.rate > 0 && rate > 0 && q == SourceFrame(n, s.rate, rate) <= s.FrameCount()
    ensures q * s.format.FrameSize() <= |s.data| && Leftover(s, rate, n) == s.data[q * s.format.FrameSize()..]
  {
    var z := s.format.FrameSize();
    MulMono(z, q, |s.data| / z);
    assert |s.data| == z * (|s.data| / z) + |s.data| % z;
  }
}
