/** One round of mixing as a function of the players' data (mix.c:890-1009). */
module RoundSpec {
  import opened CTypes
  import opened Formats
  import opened MixSpec

  // ---- how much each player can supply ----

  /** Output frames that f frames at rate `from` stretch to: ceil(f * to / from). */
  function Stretched(f: nat, from: int, to: int): nat
    requires from > 0 && to > 0
  {
    (f * to + from - 1) / from
  }

  /** Output bytes a player can supply, at most length. */
  function Translated(s: Source, rate: int, length: nat): nat
    requires s.rate > 0 && rate > 0
  {
    Min(4 * Stretched(s.FrameCount(), s.rate, rate), length)
  }

  /** The bound behind every mix loop: n <= ceil(F*R/r) output frames read no
      source frame at or past F. */
  lemma StretchedReads(f: nat, from: int, to: int, n: nat)
    requires from > 0 && to > 0 && 0 < n <= Stretched(f, from, to)
    ensures SourceFrame(n - 1, from, to) < f
  {
    var x := f * to + from - 1;
    assert from * (x / from) <= x;
    MulMono(from, n, x / from);
    assert from * n == (n - 1) * from + from;
    var y := (n - 1) * from;
    assert y < f * to;
    var q := y / to;
    assert to * q <= y;
    if q >= f { MulMono(to, f, q); }
  }

  /** One frame more would be one too many. */
  lemma StretchedTight(f: nat, from: int, to: int)
    requires from > 0 && to > 0
    ensures SourceFrame(Stretched(f, from, to), from, to) >= f
  {
    var x := f * to + from - 1;
    var n := x / from;
    assert x == from * n + x % from;
    assert n * from >= f * to;
    DivMono(f * to, n * from, to);
    DivSelf(f, to);
  }

  /** A player covers n frames exactly when n is at most what it stretches to. */
  lemma CoversIff(s: Source, rate: int, n: nat)
    requires s.rate > 0 && rate > 0
    ensures Covers(s, rate, n) <==> n <= Stretched(s.FrameCount(), s.rate, rate)
  {
    var m := Stretched(s.FrameCount(), s.rate, rate);
    if 0 < n <= m {
      StretchedReads(s.FrameCount(), s.rate, rate, n);
    } else if n > m {
      StretchedTight(s.FrameCount(), s.rate, rate);
      SourceFrameMono(m, n - 1, s.rate, rate);
    }
  }

  // ---- the running minimum ----

  /** One step of the first loop: a running minimum in which 0 means "none yet". */
  function MinStep(min: nat, t: nat): nat {
    if min == 0 then t else if min > t then t else min
  }

  function MinFold(ts: seq<nat>): nat {
    if |ts| == 0 then 0 else MinStep(MinFold(ts[..|ts| - 1]), ts[|ts| - 1])
  }

  /** No player is asked for more than it can supply. */
  predicate Safe(ts: seq<nat>) { forall i :: 0 <= i < |ts| && ts[i] > 0 ==> MinFold(ts) <= ts[i] }

  predicate Positive(ts: seq<nat>) { forall i :: 0 <= i < |ts| ==> ts[i] > 0 }

  /** z is just past the last zero of ts. */
  predicate PastLastZero(ts: seq<nat>, z: nat) {
    z <= |ts| && Positive(ts[z..]) && (z > 0 ==> ts[z - 1] == 0)
  }

  /** On positive lengths the fold is the true minimum. */
  lemma {:induction false} MinFoldPositive(ts: seq<nat>)
    requires Positive(ts)
    ensures |ts| > 0 ==> MinFold(ts) in ts
    ensures forall i :: 0 <= i < |ts| ==> MinFold(ts) <= ts[i]
    ensures |ts| > 0 ==> MinFold(ts) > 0
  {
    if |ts| > 0 {
      MinFoldPositive(ts[..|ts| - 1]);
      assert ts[|ts| - 1] in ts;
      assert forall t :: t in ts[..|ts| - 1] ==> t in ts;
    }
  }

  /** In general it is the minimum of what follows the last zero. */
  lemma {:induction false} MinFoldSuffix(ts: seq<nat>, z: nat)
    requires PastLastZero(ts, z)
    ensures MinFold(ts) == MinFold(ts[z..])
  {
    var n := |ts|;
    if z == n {
      assert ts[z..] == [];
      if n > 0 { MinStepZero(MinFold(ts[..n - 1])); }
    } else {
      var front := ts[..n - 1];
      assert front[z..] == ts[z..][..n - 1 - z];
      assert ts[z..][n - 1 - z] == ts[n - 1];
      assert z > 0 ==> front[z - 1] == ts[z - 1];
      MinFoldSuffix(front, z);
    }
  }

  lemma MinStepZero(min: nat)
    ensures MinStep(min, 0) == 0
  {
  }

  /** Exactly when the fold is safe: every length before the last zero is zero or
      at least the minimum of what follows it. */
  lemma SafeIff(ts: seq<nat>, z: nat)
    requires PastLastZero(ts, z)
    ensures Safe(ts) <==> forall i :: 0 <= i < z && ts[i] > 0 ==> MinFold(ts[z..]) <= ts[i]
  {
    MinFoldSuffix(ts, z);
    MinFoldPositive(ts[z..]);
    forall i | z <= i < |ts|
      ensures MinFold(ts) <= ts[i]
    {
      assert ts[z..][i - z] == ts[i];
    }
  }

  /** A counted player without one whole frame can make the round too long for
      the players before it: 20 bytes are available but 4096 are mixed. */
  lemma ShortPlayerUnsafe()
    ensures MinFold([20, 0, 4096]) == 4096 && !Safe([20, 0, 4096])
  {
    var ts: seq<nat> := [20, 0, 4096];
    assert PastLastZero(ts, 2);
    MinFoldSuffix(ts, 2);
    assert ts[2..] == [4096];
    assert MinFold([4096]) == MinStep(MinFold([]), 4096) by { assert [4096][..0] == []; }
    assert ts[0] == 20;
  }

  /** When safe and not zero, the fold is the least positive length. */
  lemma SafeIsMinimum(ts: seq<nat>)
    requires Safe(ts) && MinFold(ts) > 0
    ensures MinFold(ts) in ts
  {
    var z := LastZero(ts);
    MinFoldSuffix(ts, z);
    MinFoldPositive(ts[z..]);
    if |ts[z..]| > 0 {
      var i :| 0 <= i < |ts[z..]| && ts[z..][i] == MinFold(ts[z..]);
      assert ts[z + i] == MinFold(ts);
    }
  }

  function LastZero(ts: seq<nat>): (z: nat)
    ensures PastLastZero(ts, z)
  {
    if |ts| == 0 then 0
    else if ts[|ts| - 1] == 0 then |ts|
    else
      var z := LastZero(ts[..|ts| - 1]);
      assert forall i :: z <= i < |ts| - 1 ==> ts[..|ts| - 1][z..][i - z] == ts[i];
      z
  }

  // ---- the sum ----

  /** A source with volumes in 0..256 that, if it has data, covers n frames. */
  predicate CanShare(s: Source, rate: int, n: nat) {
    rate > 0 && s.rate > 0 && s.Volumes() && (|s.data| > 0 ==> Covers(s, rate, n))
  }

  predicate Ready(ss: seq<Source>, rate: int, n: nat) {
    forall i :: 0 <= i < |ss| ==> CanShare(ss[i], rate, n)
  }

  function Share(s: Source, rate: int, n: nat, k: nat): (v: int)
    requires CanShare(s, rate, n) && k < 2 * n
    ensures -32768 <= v <= 32767
  {
    if |s.data| == 0 then 0
    else
      CoversEvery(s, rate, n, k / 2);
      ScaledInRange(s, SourceFrame(k / 2, s.rate, rate), k % 2);
      Contribution(s, rate, n, k)
  }

  /** The true sum over all sources of what they put in slot k. */
  function Total(ss: seq<Source>, rate: int, n: nat, k: nat): (v: int)
    requires Ready(ss, rate, n) && k < 2 * n
    ensures -32768 * |ss| <= v <= 32767 * |ss|
  {
    if |ss| == 0 then 0
    else Total(ss[..|ss| - 1], rate, n, k) + Share(ss[|ss| - 1], rate, n, k)
  }

  /** `clip_mix_to_output_16s` and `_8u` on one sample. */
  function Clip16(x: int): int { if x < -32768 then -32768 else if x > 32767 then 32767 else x }
  function Clip8(x: int): int { if x < -32768 then 0 else if x > 32767 then 255 else Quot(x, 256) + 128 }

  lemma Clip8IsScaled(x: int)
    ensures Clip8(x) == Quot(Clip16(x), 256) + 128 && 0 <= Clip8(x) <= 255
  {
  }

  /** What is left of a player's data after n output frames: the data minus a
      prefix of min(used, length) bytes, where used is floor(n*r/R) frames. */
  function Leftover(s: Source, rate: int, n: nat): seq<byte>
    requires s.rate > 0 && rate > 0
  {
    s.data[Min(SourceFrame(n, s.rate, rate) * s.format.FrameSize(), |s.data|)..]
  }

  // ---- the order of the players does not matter ----

  lemma {:induction false} TotalSplit(ss: seq<Source>, tt: seq<Source>, rate: int, n: nat, k: nat)
    requires Ready(ss, rate, n) && Ready(tt, rate, n) && Ready(ss + tt, rate, n) && k < 2 * n
    ensures Total(ss + tt, rate, n, k) == Total(ss, rate, n, k) + Total(tt, rate, n, k)
  {
    if |tt| == 0 {
      assert ss + tt == ss;
    } else {
      var front := tt[..|tt| - 1];
      assert (ss + tt)[..|ss + tt| - 1] == ss + front;
      TotalSplit(ss, front, rate, n, k);
    }
  }

  lemma TotalSingle(s: Source, rate: int, n: nat, k: nat)
    requires CanShare(s, rate, n) && k < 2 * n
    ensures Total([s], rate, n, k) == Share(s, rate, n, k)
  {
    assert [s][..0] == [];
  }

  /** Any reordering of the players gives the same sum in every slot. */
  lemma {:induction false} TotalPermutation(ss: seq<Source>, tt: seq<Source>, rate: int, n: nat, k: nat)
    requires Ready(ss, rate, n) && Ready(tt, rate, n) && k < 2 * n
    requires multiset(ss) == multiset(tt)
    ensures Total(ss, rate, n, k) == Total(tt, rate, n, k)
    decreases |ss|
  {
    if |ss| == 0 {
      assert |multiset(tt)| == 0;
    } else {
      var last := ss[|ss| - 1];
      assert last in multiset(tt);
      var i :| 0 <= i < |tt| && tt[i] == last;
      RemoveOne(ss, tt, i);
      TotalPermutation(ss[..|ss| - 1], tt[..i] + tt[i + 1..], rate, n, k);
      TotalWithout(tt, i, rate, n, k);
    }
  }

  lemma TotalWithout(tt: seq<Source>, i: nat, rate: int, n: nat, k: nat)
    requires Ready(tt, rate, n) && k < 2 * n && i < |tt|
    ensures Total(tt, rate, n, k) == Total(tt[..i] + tt[i + 1..], rate, n, k) + Share(tt[i], rate, n, k)
  {
    assert tt == tt[..i] + ([tt[i]] + tt[i + 1..]);
    TotalSplit(tt[..i], [tt[i]] + tt[i + 1..], rate, n, k);
    TotalSplit([tt[i]], tt[i + 1..], rate, n, k);
    TotalSplit(tt[..i], tt[i + 1..], rate, n, k);
    TotalSingle(tt[i], rate, n, k);
  }

  lemma RemoveOne<T>(ss: seq<T>, tt: seq<T>, i: nat)
    requires |ss| > 0 && i < |tt| && tt[i] == ss[|ss| - 1] && multiset(ss) == multiset(tt)
    ensures multiset(ss[..|ss| - 1]) == multiset(tt[..i] + tt[i + 1..])
  {
    var x := tt[i];
    assert ss == ss[..|ss| - 1] + [x];
    assert multiset(ss) == multiset(ss[..|ss| - 1]) + multiset{x};
    assert tt == tt[..i] + ([x] + tt[i + 1..]);
    assert multiset(tt) == multiset(tt[..i]) + (multiset{x} + multiset(tt[i + 1..]));
    var a, b := multiset(ss[..|ss| - 1]), multiset(tt[..i] + tt[i + 1..]);
    assert b == multiset(tt[..i]) + multiset(tt[i + 1..]);
    assert a + multiset{x} == b + multiset{x};
    assert a == a + multiset{x} - multiset{x} && b == b + multiset{x} - multiset{x};
  }

  /** The minimum of positive lengths does not depend on their order either. */
  lemma MinFoldPermutation(ts: seq<nat>, us: seq<nat>)
    requires Positive(ts) && multiset(ts) == multiset(us)
    ensures MinFold(ts) == MinFold(us)
  {
    assert |ts| == |multiset(ts)| == |multiset(us)| == |us|;
    forall i | 0 <= i < |us| ensures us[i] > 0 { assert us[i] in multiset(us); }
    MinFoldPositive(ts);
    MinFoldPositive(us);
    if |ts| > 0 {
      assert MinFold(ts) in multiset(us) && MinFold(us) in multiset(ts);
    }
  }
}
