/** One round of the mixer: read every player, find the common length, add every
    player into the accumulator, clip, and keep what was not used (mix.c:890-1009). */
module MixRound {
  import opened CTypes
  import opened Formats
  import opened MixSpec
  import opened Players
  import opened PlayerReads
  import opened RoundSpec
  import opened PlayerRuns
  import opened MixLoops

  // ---- the round as a function of the players' states ----

  ghost predicate Readable(sts: seq<PlayerState>, feeds: seq<Feed>) {
    |sts| == |feeds| && forall i :: 0 <= i < |sts| ==> Aligned(sts[i]) && FeedFits(sts[i], feeds[i])
  }

  /** The players that survive reading, in order, with their new data. */
  ghost function Survivors(sts: seq<PlayerState>, feeds: seq<Feed>): seq<PlayerState>
    requires Readable(sts, feeds)
  {
    if |sts| == 0 then []
    else
      var n := |sts| - 1;
      var o := Read(sts[n], feeds[n]);
      Survivors(sts[..n], feeds[..n]) + if o.ret < 0 then [] else [o.state]
  }

  /** A player that is neither erased nor skipped for want of data. */
  predicate Counted(o: Outcome) { o.ret > 0 || (o.ret == 0 && |o.state.source.data| > 0) }

  /** The translated lengths of the counted players, in order. */
  ghost function Lengths(sts: seq<PlayerState>, feeds: seq<Feed>, rate: int, length: nat): seq<nat>
    requires Readable(sts, feeds) && rate > 0
  {
    if |sts| == 0 then []
    else
      var n := |sts| - 1;
      var o := Read(sts[n], feeds[n]);
      ReadAligned(sts[n], feeds[n]);
      Lengths(sts[..n], feeds[..n], rate, length)
      + if Counted(o) then [Translated(o.state.source, rate, length)] else []
  }

  ghost function Sources(sts: seq<PlayerState>): (ss: seq<Source>)
    ensures |ss| == |sts| && forall i :: 0 <= i < |ss| ==> ss[i] == sts[i].source
  {
    seq(|sts|, i requires 0 <= i < |sts| => sts[i].source)
  }

  lemma {:induction false} SurvivorsCounted(sts: seq<PlayerState>, feeds: seq<Feed>, rate: int, length: nat)
    requires Readable(sts, feeds) && rate > 0
    ensures forall i :: 0 <= i < |Survivors(sts, feeds)| ==>
              var st := Survivors(sts, feeds)[i];
              Aligned(st) && (|st.source.data| > 0 ==>
                Translated(st.source, rate, length) in Lengths(sts, feeds, rate, length))
  {
    if |sts| > 0 {
      var n := |sts| - 1;
      SurvivorsCounted(sts[..n], feeds[..n], rate, length);
      ReadAligned(sts[n], feeds[n]);
    }
  }

  /** Every player with data covers n output frames. */
  ghost predicate AllCover(sts: seq<PlayerState>, rate: int, n: nat) {
    rate > 0 && forall i :: 0 <= i < |sts| && |sts[i].source.data| > 0 ==>
      sts[i].source.rate > 0 && Covers(sts[i].source, rate, n)
  }

  /** If no counted player is asked for more than it has, every survivor with
      data covers the whole round. */
  lemma SafeCovers(sts: seq<PlayerState>, feeds: seq<Feed>, rate: int, length: nat)
    requires Readable(sts, feeds) && rate > 0 && length > 0
    requires Safe(Lengths(sts, feeds, rate, length))
    ensures AllCover(Survivors(sts, feeds), rate, MinFold(Lengths(sts, feeds, rate, length)) / 4)
  {
    hide Covers, Aligned, Translated, Lengths, Survivors;
    var ts, live := Lengths(sts, feeds, rate, length), Survivors(sts, feeds);
    SurvivorsCounted(sts, feeds, rate, length);
    forall i | 0 <= i < |live| && |live[i].source.data| > 0
      ensures live[i].source.rate > 0 && Covers(live[i].source, rate, MinFold(ts) / 4)
    {
      AlignedRate(live[i]);
      var j :| 0 <= j < |ts| && ts[j] == Translated(live[i].source, rate, length);
      CoversRound(live[i], rate, length, MinFold(ts));
    }
  }

  lemma SurvivorsReady(sts: seq<PlayerState>, feeds: seq<Feed>, rate: int, length: nat)
    requires Readable(sts, feeds) && rate > 0 && length > 0
    requires Safe(Lengths(sts, feeds, rate, length))
    requires forall i :: 0 <= i < |Survivors(sts, feeds)| ==> Survivors(sts, feeds)[i].source.Volumes()
    ensures var n := MinFold(Lengths(sts, feeds, rate, length)) / 4;
            Ready(Sources(Survivors(sts, feeds)), rate, n)
  {
    hide Covers, Aligned, Lengths, Survivors;
    var live, n := Survivors(sts, feeds), MinFold(Lengths(sts, feeds, rate, length)) / 4;
    SafeCovers(sts, feeds, rate, length);
    SurvivorsCounted(sts, feeds, rate, length);
    forall i | 0 <= i < |live|
      ensures CanShare(live[i].source, rate, n)
    {
      AlignedRate(live[i]);
    }
  }

  lemma AlignedRate(st: PlayerState)
    requires Aligned(st)
    ensures st.source.rate > 0
  {
  }

  /** An aligned player with data covers any round no longer than it supplies. */
  lemma CoversRound(st: PlayerState, rate: int, length: nat, min: nat)
    requires Aligned(st) && rate > 0 && length > 0 && |st.source.data| > 0
    requires Translated(st.source, rate, length) > 0 ==> min <= Translated(st.source, rate, length)
    ensures Covers(st.source, rate, min / 4)
  {
    HasFrame(st, rate);
    CoversIff(st.source, rate, min / 4);
  }

  lemma HasFrame(st: PlayerState, rate: int)
    requires Aligned(st) && rate > 0 && |st.source.data| > 0
    ensures st.source.FrameCount() > 0
    ensures Stretched(st.source.FrameCount(), st.source.rate, rate) > 0
  {
    var s := st.source;
    var f := s.FrameCount();
    assert f > 0 by { var z := s.format.FrameSize(); if z == 4 {} else if z == 2 {} else {} }
    MulMono(rate, 1, f);
    DivMono(s.rate, f * rate + s.rate - 1, s.rate);
    DivSelf(1, s.rate);
  }

  // ---- the players as objects ----

  ghost predicate Distinct(ps: seq<Player>) {
    forall i, j :: 0 <= i < j < |ps| ==> ps[i] != ps[j] && ps[i].data != ps[j].data
  }

  ghost predicate AllValid(ps: seq<Player>)
    reads ps
  {
    forall i :: 0 <= i < |ps| ==> ps[i].Valid() && ps[i].lastPos <= |ps[i].sample.bytes|
  }

  ghost function States(ps: seq<Player>): (sts: seq<PlayerState>)
    reads ps, set p | p in ps :: p.data
    requires AllValid(ps)
    ensures |sts| == |ps| && forall i :: 0 <= i < |ps| ==> sts[i] == ps[i].State()
  {
    seq(|ps|, i requires 0 <= i < |ps| reads ps, set p | p in ps :: p.data requires AllValid(ps) => ps[i].State())
  }

  /** The products of the first loop fit in an int for a full buffer. */
  predicate Sized(st: PlayerState, rate: int) {
    var full := Frames(st.source.format, st.capacity);
    && st.source.rate > 0 && rate > 0
    && full * rate + st.source.rate - 1 < 0x8000_0000
    && 4 * Stretched(full, st.source.rate, rate) < 0x8000_0000
  }

  /** Reading changes nothing but the data and the read position. */
  lemma ReadKeeps(st: PlayerState, feed: Feed)
    requires st.lastPos <= |st.sample.bytes| && st.Room() >= 0
    ensures var r := Read(st, feed).state;
            r == st.(source := st.source.(data := r.source.data), lastPos := r.lastPos)
  {
  }

  /** `memmove` the unused data to the front, or drop it all (mix.c:981-987). */
  method Consume(p: Player, used: nat)
    requires p.Valid()
    modifies p`actual, p.data
    ensures p.Valid() && p.lastPos == old(p.lastPos)
    ensures p.View() == old(p.View()).(data := old(p.data[..p.actual])[Min(used, old(p.actual))..])
  {
    if p.actual - used > 0 {
      ghost var before := p.data[..p.actual];
      forall i | 0 <= i < p.actual - used { p.data[i] := p.data[used + i]; }
      p.actual := p.actual - used;
      assert p.data[..p.actual] == before[used..];
    } else {
      p.actual := 0;
    }
  }

  /** The translated length of one player, in 32-bit arithmetic (mix.c:922-937). */
  method TranslateLength(p: Player, rate: int, length: nat) returns (t: nat)
    requires p.Valid() && Sized(p.State(), rate)
    ensures t == Translated(p.View(), rate, length)
  {
    var iBps := 4;
    if p.format.Is8() { iBps := iBps / 2; }
    if p.format.IsMono() { iBps := iBps / 2; }
    TranslateFits(p.State(), rate);
    var sum: int32 := (p.actual / iBps) * rate + p.rate - 1;
    var translated: int32 := sum / p.rate;
    translated := translated * 4;
    t := if translated > length then length else translated;
  }

  lemma TranslateFits(st: PlayerState, rate: int)
    requires |st.source.data| <= st.capacity && Sized(st, rate)
    ensures var s := st.source;
            && 0 <= s.FrameCount() * rate + s.rate - 1 < 0x8000_0000
            && 0 <= 4 * Stretched(s.FrameCount(), s.rate, rate) < 0x8000_0000
  {
    var s := st.source;
    var f, full := s.FrameCount(), Frames(s.format, st.capacity);
    DivMono(|s.data|, st.capacity, s.format.FrameSize());
    MulMono(rate, 0, f);
    MulMono(rate, f, full);
    DivMono(f * rate + s.rate - 1, full * rate + s.rate - 1, s.rate);
  }

  /** What reading one more player adds to the survivors and to the minimum. */
  lemma SurvivorsStep(sts: seq<PlayerState>, feeds: seq<Feed>, c: nat)
    requires Readable(sts, feeds) && c < |sts|
    ensures var o := Read(sts[c], feeds[c]);
            Survivors(sts[..c + 1], feeds[..c + 1])
            == Survivors(sts[..c], feeds[..c]) + if o.ret < 0 then [] else [o.state]
  {
    hide Read, FeedFits;
    assert sts[..c + 1][..c] == sts[..c] && feeds[..c + 1][..c] == feeds[..c];
  }

  lemma LengthsStep(sts: seq<PlayerState>, feeds: seq<Feed>, rate: int, length: nat, c: nat)
    requires Readable(sts, feeds) && rate > 0 && c < |sts|
    ensures var o := Read(sts[c], feeds[c]);
            var min := MinFold(Lengths(sts[..c], feeds[..c], rate, length));
            && Aligned(o.state)
            && MinFold(Lengths(sts[..c + 1], feeds[..c + 1], rate, length))
               == if Counted(o) then MinStep(min, Translated(o.state.source, rate, length)) else min
  {
    hide Read, FeedFits, Translated;
    assert sts[..c + 1][..c] == sts[..c] && feeds[..c + 1][..c] == feeds[..c];
    ReadAligned(sts[c], feeds[c]);
    var ts := Lengths(sts[..c], feeds[..c], rate, length);
    if Counted(Read(sts[c], feeds[c])) {
      var t: nat := Translated(Read(sts[c], feeds[c]).state.source, rate, length);
      assert (ts + [t])[..|ts + [t]| - 1] == ts;
    } else {
      assert ts + [] == ts;
    }
  }

  // ---- the mixer ----

  /** Read player j; the others keep their state. */
  method ReadOne(ps: seq<Player>, j: nat, feed: Feed) returns (r: int)
    requires AllValid(ps) && Distinct(ps) && j < |ps| && FeedFits(ps[j].State(), feed)
    modifies ps[j], ps[j].data
    ensures AllValid(ps)
    ensures var o := Read(old(ps[j].State()), feed);
            r == o.ret && States(ps) == old(States(ps))[j := o.state]
  {
    ghost var sts := States(ps);
    r := ReadPlayer(ps[j], feed);
    forall i | 0 <= i < |ps| && i != j
      ensures ps[i].Valid() && ps[i].lastPos <= |ps[i].sample.bytes| && ps[i].State() == sts[i]
    {
      assert ps[i] != ps[j] && ps[i].data != ps[j].data;
    }
  }

  /** Read every player, dropping those whose read fails, and find the round's
      length: the first loop of `mix_players`. */
  method Gather(ps: seq<Player>, feeds: seq<Feed>, rate: int, length: nat) returns (kept: seq<Player>, min: nat)
    requires AllValid(ps) && Distinct(ps) && rate > 0
    requires Readable(States(ps), feeds)
    requires forall i :: 0 <= i < |ps| ==> Sized(States(ps)[i], rate)
    modifies ps, set p | p in ps :: p.data
    ensures AllValid(kept) && Distinct(kept)
    ensures States(kept) == Survivors(old(States(ps)), feeds)
    ensures min == MinFold(Lengths(old(States(ps)), feeds, rate, length))
    ensures Among(kept, ps)
  {
    hide Read, FeedFits, Translated, Survivors, Lengths, MinFold, MinStep, Sized, Counted, Distinct, Readable,
        Gathered, AllValid, States, Among;
    ghost var sts := States(ps);
    kept, min := ps, 0;
    var j, c := 0, 0;
    ghost var done: seq<PlayerState> := [];
    ghost var rest := sts;
    GatherStart(sts, feeds, rate, length);
    AllAmong(ps);
    while j < |kept|
      invariant c <= |ps| && |kept| == j + (|ps| - c) && |feeds| == |ps|
      invariant AllValid(kept) && Distinct(kept) && Among(kept, ps)
      invariant States(kept) == done + rest && |done| == j && rest == sts[c..]
      invariant Gathered(sts, feeds, rate, length, c, done, min)
      decreases |kept| - j
    {
      GatherStep(sts, feeds, rate, length, c, done, min);
      ghost var o := Read(sts[c], feeds[c]);
      Listed(kept, ps, j);
      kept, j, min := GatherOne(kept, j, feeds[c], rate, length, min, ps, done, rest);
      done := done + if o.ret < 0 then [] else [o.state];
      rest := rest[1..];
      c := c + 1;
    }
    GatherEnd(sts, feeds, rate, length, done, min);
    assert done + [] == done;
  }

  /** One turn of the first loop: read player j, then unlink it or count it. */
  method GatherOne(kept: seq<Player>, j: nat, feed: Feed, rate: int, length: nat, min: nat,
                   ghost ps: seq<Player>, ghost done: seq<PlayerState>, ghost rest: seq<PlayerState>)
    returns (kept': seq<Player>, j': nat, min': nat)
    requires AllValid(kept) && Distinct(kept) && Among(kept, ps) && j < |kept|
    requires States(kept) == done + rest && |done| == j && |rest| > 0
    requires Aligned(rest[0]) && FeedFits(rest[0], feed) && Sized(rest[0], rate)
    modifies kept[j], kept[j].data
    ensures AllValid(kept') && Distinct(kept') && Among(kept', ps)
    ensures var o := Read(rest[0], feed);
            && States(kept') == (done + if o.ret < 0 then [] else [o.state]) + rest[1..]
            && j' == j + (if o.ret < 0 then 0 else 1)
            && min' == if Counted(o) then MinStep(min, Translated(o.state.source, rate, length)) else min
  {
    hide Read, FeedFits, Translated, MinStep, Sized, Aligned;
    ghost var o := Read(rest[0], feed);
    SizedAfterRead(rest[0], feed, rate);
    assert kept[j].State() == States(kept)[j] == rest[0];
    ReplaceHead(done, rest, o.state);
    var actual := ReadOne(kept, j, feed);
    kept', j', min' := kept, j, min;
    if actual < 0 {
      WithoutOne(kept, ps, j);
      kept' := kept[..j] + kept[j + 1..];
    } else {
      min' := CountOne(kept, j, actual, rate, length, min);
      j' := j + 1;
    }
  }

  lemma SizedAfterRead(st: PlayerState, feed: Feed, rate: int)
    requires Aligned(st) && Sized(st, rate)
    ensures Sized(Read(st, feed).state, rate)
  {
    ReadKeeps(st, feed);
  }

  lemma ReplaceHead<A>(s: seq<A>, t: seq<A>, x: A)
    requires |t| > 0
    ensures var u := (s + t)[|s| := x];
            && u[|s|] == x && u == (s + [x]) + t[1..]
            && u[..|s|] + u[|s| + 1..] == (s + []) + t[1..]
  {
  }

  ghost predicate Among(kept: seq<Player>, ps: seq<Player>) { forall i :: 0 <= i < |kept| ==> kept[i] in ps }

  lemma AllAmong(ps: seq<Player>)
    ensures Among(ps, ps)
  {
  }

  lemma Listed(kept: seq<Player>, ps: seq<Player>, j: nat)
    requires Among(kept, ps) && j < |kept|
    ensures kept[j] in ps && kept[j].data in (set p | p in ps :: p.data)
  {
  }

  /** What the first loop knows after c players. */
  ghost predicate Gathered(sts: seq<PlayerState>, feeds: seq<Feed>, rate: int, length: nat, c: nat,
                           done: seq<PlayerState>, min: nat)
    requires Readable(sts, feeds) && rate > 0 && c <= |sts|
  {
    && done == Survivors(sts[..c], feeds[..c])
    && min == MinFold(Lengths(sts[..c], feeds[..c], rate, length))
  }

  lemma GatherStart(sts: seq<PlayerState>, feeds: seq<Feed>, rate: int, length: nat)
    requires Readable(sts, feeds) && rate > 0
    ensures |feeds| == |sts| && [] + sts == sts == sts[0..]
    ensures Gathered(sts, feeds, rate, length, 0, [], 0)
  {
  }

  lemma GatherStep(sts: seq<PlayerState>, feeds: seq<Feed>, rate: int, length: nat, c: nat,
                   done: seq<PlayerState>, min: nat)
    requires Readable(sts, feeds) && rate > 0 && c < |sts| && Gathered(sts, feeds, rate, length, c, done, min)
    ensures c < |feeds| && Aligned(sts[c]) && FeedFits(sts[c], feeds[c])
    ensures sts[c..][0] == sts[c] && sts[c..][1..] == sts[c + 1..]
    ensures var o := Read(sts[c], feeds[c]);
            && Aligned(o.state)
            && Gathered(sts, feeds, rate, length, c + 1, done + (if o.ret < 0 then [] else [o.state]),
                        if Counted(o) then MinStep(min, Translated(o.state.source, rate, length)) else min)
  {
    hide Read, FeedFits, Translated, Survivors, Lengths, MinFold, MinStep, Counted;
    SurvivorsStep(sts, feeds, c);
    LengthsStep(sts, feeds, rate, length, c);
  }

  lemma GatherEnd(sts: seq<PlayerState>, feeds: seq<Feed>, rate: int, length: nat, done: seq<PlayerState>, min: nat)
    requires Readable(sts, feeds) && rate > 0 && Gathered(sts, feeds, rate, length, |sts|, done, min)
    ensures done == Survivors(sts, feeds) && min == MinFold(Lengths(sts, feeds, rate, length))
  {
    assert sts[..|sts|] == sts && feeds[..|sts|] == feeds;
  }

  /** Unlinking one player leaves the others as they are. */
  lemma WithoutOne(kept: seq<Player>, ps: seq<Player>, j: nat)
    requires AllValid(kept) && Distinct(kept) && Among(kept, ps) && j < |kept|
    ensures var rest := kept[..j] + kept[j + 1..];
            && AllValid(rest) && Distinct(rest) && Among(rest, ps)
            && States(rest) == States(kept)[..j] + States(kept)[j + 1..]
  {
    var rest := kept[..j] + kept[j + 1..];
    assert forall i :: 0 <= i < |rest| ==> rest[i] == kept[if i < j then i else i + 1];
  }

  /** Take a player that was read into the running minimum, unless it has no data. */
  method CountOne(ps: seq<Player>, j: nat, actual: int, rate: int, length: nat, min: nat) returns (m: nat)
    requires AllValid(ps) && j < |ps| && actual >= 0 && rate > 0
    requires Sized(States(ps)[j], rate)
    ensures var st := States(ps)[j];
            m == if Counted(Outcome(actual, st)) then MinStep(min, Translated(st.source, rate, length)) else min
  {
    m := min;
    var p := ps[j];
    if actual != 0 || p.actual != 0 {
      var t := TranslateLength(p, rate, length);
      m := MinStep(min, t);
    }
  }

  // ---- the second loop ----

  /** The first 2n slots hold the sum over ss. */
  ghost predicate Accumulated(mixed: array<int32>, ss: seq<Source>, rate: int, n: nat)
    reads mixed
    requires Ready(ss, rate, n) && 2 * n <= mixed.Length
  {
    forall k :: 0 <= k < 2 * n ==> mixed[k] == Total(ss, rate, n, k)
  }

  lemma TotalStep(ss: seq<Source>, j: nat, rate: int, n: nat, k: nat)
    requires Ready(ss, rate, n) && j < |ss| && k < 2 * n
    ensures Total(ss[..j + 1], rate, n, k) == Total(ss[..j], rate, n, k) + Share(ss[j], rate, n, k)
  {
    assert ss[..j + 1][..j] == ss[..j];
  }

  /** With fewer than 65536 players no addition leaves the 32-bit range. */
  lemma SumFits(mixed: array<int32>, ss: seq<Source>, j: nat, rate: int, n: nat)
    requires Ready(ss, rate, n) && j < |ss| < 65536 && 2 * n <= mixed.Length && |ss[j].data| > 0
    requires Accumulated(mixed, ss[..j], rate, n)
    ensures Fits(mixed[..], Terms(ss[j], rate, n))
  {
    hide Total, Share;
    var t := Terms(ss[j], rate, n);
    forall k | 0 <= k < 2 * n
      ensures -0x8000_0000 <= mixed[..][k] + t[k] < 0x8000_0000
    {
      assert CanShare(ss[j], rate, n);
      TermIsShare(ss[j], rate, n, k);
      assert mixed[..][k] == mixed[k] == Total(ss[..j], rate, n, k);
      var v := Share(ss[j], rate, n, k);
    }
  }

  lemma TermIsShare(s: Source, rate: int, n: nat, k: nat)
    requires CanShare(s, rate, n) && |s.data| > 0 && k < 2 * n
    ensures Terms(s, rate, n)[k] == Share(s, rate, n, k)
  {
  }

  lemma SumAdds(mixed: array<int32>, before: seq<int>, ss: seq<Source>, j: nat, rate: int, n: nat)
    requires Ready(ss, rate, n) && j < |ss| && 2 * n <= mixed.Length == |before| && |ss[j].data| > 0
    requires forall k :: 0 <= k < 2 * n ==> before[k] == Total(ss[..j], rate, n, k)
    requires Added(mixed, before, Terms(ss[j], rate, n), 2 * n)
    ensures Accumulated(mixed, ss[..j + 1], rate, n)
  {
    hide Total, Share, Terms;
    forall k | 0 <= k < 2 * n
      ensures mixed[k] == Total(ss[..j + 1], rate, n, k)
    {
      assert CanShare(ss[j], rate, n);
      TotalStep(ss, j, rate, n, k);
      TermIsShare(ss[j], rate, n, k);
    }
  }

  /** How much of its data a player used for `actual` output bytes (mix.c:974-979). */
  method UsedBytes(p: Player, actual: nat, rate: int) returns (used: nat)
    requires p.Valid() && rate > 0
    ensures used == SourceFrame(actual / 4, p.rate, rate) * p.format.FrameSize()
  {
    used := (actual / 4) * p.rate / rate;
    if !p.format.Is8() { used := used * 2; }
    if !p.format.IsMono() { used := used * 2; }
  }

  /** Add one player into the accumulator and drop what it used (mix.c:962-987). */
  method MixOne(p: Player, mixed: array<int32>, rate: int, length: nat, ghost ss: seq<Source>, ghost j: nat)
    returns (actual: nat)
    requires length % 4 == 0 && length / 2 <= mixed.Length
    requires Ready(ss, rate, length / 4) && j < |ss| < 65536
    requires p.Valid() && p.View() == ss[j] && IndexFits(length / 4, p.rate)
    requires Accumulated(mixed, ss[..j], rate, length / 4)
    modifies p`actual, p.data, mixed
    ensures p.Valid() && p.lastPos == old(p.lastPos)
    ensures p.View() == ss[j].(data := Leftover(ss[j], rate, length / 4))
    ensures Accumulated(mixed, ss[..j + 1], rate, length / 4)
    ensures actual == if |ss[j].data| > 0 then length else 0
  {
    ghost var n, before := length / 4, mixed[..];
    assert CanShare(ss[j], rate, n);
    actual := 0;
    if p.actual > 0 {
      SumFits(mixed, ss, j, rate, n);
      actual := MixPlayer(p, mixed, rate, length);
      SumAdds(mixed, before, ss, j, rate, n);
      var used := UsedBytes(p, actual, rate);
      Consume(p, used);
    } else {
      forall k | 0 <= k < 2 * n
        ensures mixed[k] == Total(ss[..j + 1], rate, n, k)
      {
        TotalStep(ss, j, rate, n, k);
      }
    }
  }

  ghost function AfterRound(sts: seq<PlayerState>, rate: int, n: nat): (r: seq<PlayerState>)
    requires rate > 0 && forall i :: 0 <= i < |sts| ==> sts[i].source.rate > 0
    ensures |r| == |sts| && forall i :: 0 <= i < |sts| ==> r[i] == Mixed(sts[i], rate, n)
  {
    seq(|sts|, i requires 0 <= i < |sts| => Mixed(sts[i], rate, n))
  }

  /** Mix every player: the second loop of `mix_players`. */
  method MixAll(ps: seq<Player>, mixed: array<int32>, rate: int, length: nat) returns (max: nat)
    requires AllValid(ps) && Distinct(ps) && |ps| < 65536
    requires rate > 0 && length % 4 == 0 && length / 2 <= mixed.Length
    requires Ready(Sources(States(ps)), rate, length / 4)
    requires forall i :: 0 <= i < |ps| ==> IndexFits(length / 4, ps[i].rate)
    requires forall k :: 0 <= k < mixed.Length ==> mixed[k] == 0
    modifies ps, set p | p in ps :: p.data
    modifies mixed
    ensures AllValid(ps)
    ensures States(ps) == AfterRound(old(States(ps)), rate, length / 4)
    ensures Accumulated(mixed, Sources(old(States(ps))), rate, length / 4)
    ensures max == if exists i :: 0 <= i < |ps| && |old(States(ps))[i].source.data| > 0 then length else 0
  {
    hide Total, Share, Covers, IndexFits, Mixed, Leftover;
    ghost var sts, n := States(ps), length / 4;
    ghost var ss := Sources(sts);
    max := 0;
    EmptyTotal(mixed, ss, rate, n);
    for j := 0 to |ps|
      invariant AllValid(ps)
      invariant forall i :: 0 <= i < j ==> ps[i].State() == Mixed(sts[i], rate, n)
      invariant forall i :: j <= i < |ps| ==> ps[i].State() == sts[i]
      invariant Accumulated(mixed, ss[..j], rate, n)
      invariant max == if exists i :: 0 <= i < j && |ss[i].data| > 0 then length else 0
    {
      var actual := MixListed(ps, j, mixed, rate, length, sts, ss);
      if actual > max { max := actual; }
    }
    assert ss[..|ps|] == ss;
  }

  lemma EmptyTotal(mixed: array<int32>, ss: seq<Source>, rate: int, n: nat)
    requires 2 * n <= mixed.Length && forall k :: 0 <= k < mixed.Length ==> mixed[k] == 0
    ensures Accumulated(mixed, ss[..0], rate, n)
  {
  }

  /** Mix player j of the list; the others keep their state. */
  method MixListed(ps: seq<Player>, j: nat, mixed: array<int32>, rate: int, length: nat,
                   ghost sts: seq<PlayerState>, ghost ss: seq<Source>) returns (actual: nat)
    requires AllValid(ps) && Distinct(ps) && j < |ps| == |sts| < 65536 && ss == Sources(sts)
    requires rate > 0 && length % 4 == 0 && length / 2 <= mixed.Length
    requires Ready(ss, rate, length / 4) && IndexFits(length / 4, ps[j].rate)
    requires ps[j].State() == sts[j] && Accumulated(mixed, ss[..j], rate, length / 4)
    modifies ps[j], ps[j].data, mixed
    ensures AllValid(ps) && ps[j].State() == Mixed(sts[j], rate, length / 4)
    ensures forall i :: 0 <= i < |ps| && i != j ==> ps[i].State() == old(ps[i].State())
    ensures Accumulated(mixed, ss[..j + 1], rate, length / 4)
    ensures actual == if |ss[j].data| > 0 then length else 0
  {
    hide Ready, IndexFits, Total, Leftover;
    actual := MixOne(ps[j], mixed, rate, length, ss, j);
    forall i | 0 <= i < |ps| && i != j
      ensures ps[i].Valid() && ps[i].lastPos <= |ps[i].sample.bytes| && ps[i].State() == old(ps[i].State())
    {
      assert ps[i] != ps[j] && ps[i].data != ps[j].data;
    }
  }

  // ---- the whole round ----

  lemma {:induction false} LengthsShape(sts: seq<PlayerState>, feeds: seq<Feed>, rate: int, length: nat)
    requires Readable(sts, feeds) && rate > 0 && length % 4 == 0
    ensures forall i :: 0 <= i < |Lengths(sts, feeds, rate, length)| ==>
              Lengths(sts, feeds, rate, length)[i] % 4 == 0 && Lengths(sts, feeds, rate, length)[i] <= length
  {
    hide Read, FeedFits, Translated;
    if |sts| > 0 {
      var n := |sts| - 1;
      LengthsShape(sts[..n], feeds[..n], rate, length);
      ReadAligned(sts[n], feeds[n]);
      TranslatedShape(Read(sts[n], feeds[n]).state, rate, length);
    }
  }

  lemma TranslatedShape(st: PlayerState, rate: int, length: nat)
    requires Aligned(st) && rate > 0 && length % 4 == 0
    ensures st.source.rate > 0
    ensures Translated(st.source, rate, length) % 4 == 0 && Translated(st.source, rate, length) <= length
  {
  }

  lemma {:induction false} MinFoldShape(ts: seq<nat>, length: nat)
    requires forall i :: 0 <= i < |ts| ==> ts[i] % 4 == 0 && ts[i] <= length
    ensures MinFold(ts) % 4 == 0 && MinFold(ts) <= length
  {
    if |ts| > 0 { MinFoldShape(ts[..|ts| - 1], length); }
  }

  /** st has data and can supply exactly t bytes. */
  ghost predicate Supplies(st: PlayerState, rate: int, length: nat, t: nat) {
    Aligned(st) && rate > 0 && |st.source.data| > 0 && Translated(st.source, rate, length) == t
  }

  /** A positive length comes from a survivor that has data. */
  lemma {:induction false} PositiveHasData(sts: seq<PlayerState>, feeds: seq<Feed>, rate: int, length: nat, i: nat)
    requires Readable(sts, feeds) && rate > 0 && i < |Lengths(sts, feeds, rate, length)|
    requires Lengths(sts, feeds, rate, length)[i] > 0
    ensures exists m ::
              && 0 <= m < |Survivors(sts, feeds)|
              && Supplies(Survivors(sts, feeds)[m], rate, length, Lengths(sts, feeds, rate, length)[i])
  {
    hide Read, FeedFits, Supplies;
    var n := |sts| - 1;
    var front := Lengths(sts[..n], feeds[..n], rate, length);
    ReadAligned(sts[n], feeds[n]);
    if i < |front| {
      PositiveHasData(sts[..n], feeds[..n], rate, length, i);
      var m :| 0 <= m < |Survivors(sts[..n], feeds[..n])|
          && Supplies(Survivors(sts[..n], feeds[..n])[m], rate, length, front[i]);
      assert Survivors(sts, feeds)[m] == Survivors(sts[..n], feeds[..n])[m];
    } else {
      var o := Read(sts[n], feeds[n]);
      SuppliesSelf(o.state, rate, length);
      var m := |Survivors(sts[..n], feeds[..n])|;
      assert Survivors(sts, feeds)[m] == o.state;
    }
  }

  lemma SuppliesSelf(st: PlayerState, rate: int, length: nat)
    requires Aligned(st) && rate > 0 && Translated(st.source, rate, length) > 0
    ensures Supplies(st, rate, length, Translated(st.source, rate, length))
  {
    NoDataNoLength(st.source, rate, length);
  }

  lemma NoDataNoLength(s: Source, rate: int, length: nat)
    requires s.rate > 0 && rate > 0 && Translated(s, rate, length) > 0
    ensures |s.data| > 0
  {
    if |s.data| == 0 { DivUnique(s.rate - 1, s.rate, 0); }
  }

  /** `clip_mix_to_output_16s` */
  method ClipTo16(mixed: array<int32>, output: array<int>, length: nat)
    requires length / 2 <= mixed.Length && length / 2 <= output.Length && mixed as object != output
    modifies output
    ensures forall k :: 0 <= k < length / 2 ==> output[k] == Clip16(mixed[k])
  {
    var i := 0;
    while i != length / 2
      invariant 0 <= i <= length / 2
      invariant forall k :: 0 <= k < i ==> output[k] == Clip16(mixed[k])
    {
      if mixed[i] < -32768 {
        output[i] := -32768;
      } else if mixed[i] > 32767 {
        output[i] := 32767;
      } else {
        output[i] := mixed[i];
      }
      i := i + 1;
    }
  }

  /** `clip_mix_to_output_8u` */
  method ClipTo8(mixed: array<int32>, output: array<int>, length: nat)
    requires length / 2 <= mixed.Length && length / 2 <= output.Length && mixed as object != output
    modifies output
    ensures forall k :: 0 <= k < length / 2 ==> output[k] == Clip8(mixed[k])
  {
    var i := 0;
    while i != length / 2
      invariant 0 <= i <= length / 2
      invariant forall k :: 0 <= k < i ==> output[k] == Clip8(mixed[k])
    {
      if mixed[i] < -32768 {
        output[i] := 0;
      } else if mixed[i] > 32767 {
        output[i] := 255;
      } else {
        output[i] := Quot(mixed[i], 256) + 128;
      }
      i := i + 1;
    }
  }

  function Clip(wide: bool, x: int): int { if wide then Clip16(x) else Clip8(x) }

  /** What a round's callers must provide: aligned players with volumes in 0..256,
      fewer than 65536 of them, and products that fit. */
  ghost predicate Mixable(sts: seq<PlayerState>, feeds: seq<Feed>, rate: int, length: nat) {
    && Readable(sts, feeds) && |sts| < 65536 && rate > 0 && length > 0 && length % 4 == 0
    && forall i :: 0 <= i < |sts| ==>
         sts[i].source.Volumes() && Sized(sts[i], rate) && IndexFits(length / 4, sts[i].source.rate)
  }

  ghost predicate Sound(st: PlayerState, length: nat) {
    st.source.Volumes() && st.source.rate > 0 && IndexFits(length / 4, st.source.rate)
  }

  lemma {:induction false} SurvivorsSound(sts: seq<PlayerState>, feeds: seq<Feed>, length: nat)
    requires Readable(sts, feeds) && forall i :: 0 <= i < |sts| ==> Sound(sts[i], length)
    ensures |Survivors(sts, feeds)| <= |sts|
    ensures forall i :: 0 <= i < |Survivors(sts, feeds)| ==> Sound(Survivors(sts, feeds)[i], length)
  {
    if |sts| > 0 {
      var n := |sts| - 1;
      SurvivorsSound(sts[..n], feeds[..n], length);
      ReadKeeps(sts[n], feeds[n]);
    }
  }

  lemma IndexFitsLess(n: nat, m: nat, from: int)
    requires n <= m && from > 0 && IndexFits(m, from)
    ensures IndexFits(n, from)
  {
    MulMono(from, 2 * n, 2 * m);
  }

  /** Everything the second loop needs follows from the first. */
  lemma RoundReady(sts: seq<PlayerState>, feeds: seq<Feed>, rate: int, length: nat)
    requires Mixable(sts, feeds, rate, length) && Safe(Lengths(sts, feeds, rate, length))
    ensures var min, live := MinFold(Lengths(sts, feeds, rate, length)), Survivors(sts, feeds);
            && min % 4 == 0 && min <= length && |live| < 65536
            && Ready(Sources(live), rate, min / 4)
            && (forall i :: 0 <= i < |live| ==> live[i].source.rate > 0 && IndexFits(min / 4, live[i].source.rate))
            && (min > 0 ==> min in Lengths(sts, feeds, rate, length))
            && (min > 0 ==> exists i :: 0 <= i < |live| && |live[i].source.data| > 0)
  {
    hide Aligned, FeedFits, Lengths, Survivors, IndexFits;
    var ts, live := Lengths(sts, feeds, rate, length), Survivors(sts, feeds);
    LengthsShape(sts, feeds, rate, length);
    MinFoldShape(ts, length);
    SurvivorsSound(sts, feeds, length);
    assert forall i :: 0 <= i < |live| ==> Sound(live[i], length);
    SurvivorsReady(sts, feeds, rate, length);
    forall i | 0 <= i < |live|
      ensures IndexFits(MinFold(ts) / 4, live[i].source.rate)
    {
      assert Sound(live[i], length);
      IndexFitsLess(MinFold(ts) / 4, length / 4, live[i].source.rate);
    }
    if MinFold(ts) > 0 {
      SafeIsMinimum(ts);
      var i :| 0 <= i < |ts| && ts[i] == MinFold(ts);
      PositiveHasData(sts, feeds, rate, length, i);
      var m :| 0 <= m < |live| && Supplies(live[m], rate, length, ts[i]);
    }
  }

  /** A player that supplies less than the round does not cover it. */
  lemma TooLittle(st: PlayerState, rate: int, length: nat, t: nat, min: nat)
    requires Supplies(st, rate, length, t) && t < min <= length && min % 4 == 0 && t % 4 == 0
    ensures st.source.rate > 0 && !Covers(st.source, rate, min / 4)
  {
    CoversIff(st.source, rate, min / 4);
  }

  /** A round reads valid data only, for every player, exactly when the running
      minimum is safe. */
  lemma SafeIffCovered(sts: seq<PlayerState>, feeds: seq<Feed>, rate: int, length: nat)
    requires Readable(sts, feeds) && rate > 0 && length > 0 && length % 4 == 0
    ensures Safe(Lengths(sts, feeds, rate, length))
       <==> AllCover(Survivors(sts, feeds), rate, MinFold(Lengths(sts, feeds, rate, length)) / 4)
  {
    hide Readable, Lengths, Survivors, MinFold, Covers, Supplies;
    var ts, live := Lengths(sts, feeds, rate, length), Survivors(sts, feeds);
    if Safe(ts) {
      SafeCovers(sts, feeds, rate, length);
    } else {
      var i :| 0 <= i < |ts| && ts[i] > 0 && MinFold(ts) > ts[i];
      LengthsShape(sts, feeds, rate, length);
      MinFoldShape(ts, length);
      PositiveHasData(sts, feeds, rate, length, i);
      var m :| 0 <= m < |live| && Supplies(live[m], rate, length, ts[i]);
      TooLittle(live[m], rate, length, ts[i], MinFold(ts));
      assert |live[m].source.data| > 0 by { SuppliesData(live[m], rate, length, ts[i]); }
    }
  }

  lemma SuppliesData(st: PlayerState, rate: int, length: nat, t: nat)
    requires Supplies(st, rate, length, t)
    ensures |st.source.data| > 0
  {
  }

  /** The output holds the clamped sums over ss. */
  ghost predicate Rendered(output: array<int>, wide: bool, ss: seq<Source>, rate: int, n: nat)
    reads output
    requires Ready(ss, rate, n) && 2 * n <= output.Length
  {
    forall k :: 0 <= k < 2 * n ==> output[k] == Clip(wide, Total(ss, rate, n, k))
  }

  /** A round of no frames uses nothing. */
  lemma SilentRound(sts: seq<PlayerState>, rate: int)
    requires rate > 0 && forall i :: 0 <= i < |sts| ==> sts[i].source.rate > 0
    ensures AfterRound(sts, rate, 0) == sts
  {
    forall i | 0 <= i < |sts|
      ensures Mixed(sts[i], rate, 0) == sts[i]
    {
      DivUnique(0, rate, 0);
    }
  }

  method FinishRound(ps: seq<Player>, mixed: array<int32>, output: array<int>, rate: int, length: nat, wide: bool)
    returns (r: nat)
    requires AllValid(ps) && Distinct(ps) && |ps| < 65536
    requires rate > 0 && length % 4 == 0 && length / 2 <= mixed.Length && length / 2 <= output.Length
    requires mixed as object != output && forall p :: p in ps ==> p.data as object != output
    requires Ready(Sources(States(ps)), rate, length / 4)
    requires forall i :: 0 <= i < |ps| ==> IndexFits(length / 4, States(ps)[i].source.rate)
    requires exists i :: 0 <= i < |ps| && |States(ps)[i].source.data| > 0
    requires forall k :: 0 <= k < mixed.Length ==> mixed[k] == 0
    modifies ps, set p | p in ps :: p.data
    modifies mixed, output
    ensures AllValid(ps) && r == if wide then length else length / 2
    ensures States(ps) == AfterRound(old(States(ps)), rate, length / 4)
    ensures Rendered(output, wide, Sources(old(States(ps))), rate, length / 4)
  {
    hide Total, Ready, IndexFits, Mixed, Clip16, Clip8;
    ghost var ss := Sources(States(ps));
    r := MixAll(ps, mixed, rate, length);
    ghost var after := States(ps);
    if wide {
      ClipTo16(mixed, output, r);
    } else {
      ClipTo8(mixed, output, r);
      r := r / 2;
    }
    assert States(ps) == after;
    assert Accumulated(mixed, ss, rate, length / 4);
  }

  /** One round of `mix_players`. ps is the list of players before, kept the list
      after. Every player that stays keeps what it had after reading minus what
      was used; every output sample is the clamp of the true sum over all players
      of their scaled, resampled samples; the round is as long as the least any
      player with data can supply. */
  method MixPlayers(ps: seq<Player>, mixed: array<int32>, output: array<int>, rate: int, length: nat, wide: bool,
                    feeds: seq<Feed>) returns (kept: seq<Player>, r: nat)
    requires AllValid(ps) && Distinct(ps)
    requires Mixable(States(ps), feeds, rate, length)
    requires Safe(Lengths(States(ps), feeds, rate, length))
    requires length / 2 <= mixed.Length && length / 2 <= output.Length && mixed as object != output
    requires forall p :: p in ps ==> p.data as object != output
    modifies ps, set p | p in ps :: p.data
    modifies mixed, output
    ensures AllValid(kept) && Distinct(kept) && Among(kept, ps)
    ensures var ts := Lengths(old(States(ps)), feeds, rate, length);
            && r == (if wide then MinFold(ts) else MinFold(ts) / 2)
            && (MinFold(ts) > 0 ==> MinFold(ts) in ts)
            && forall i :: 0 <= i < |ts| && ts[i] > 0 ==> MinFold(ts) <= ts[i]
    ensures var live := Survivors(old(States(ps)), feeds);
            var n := MinFold(Lengths(old(States(ps)), feeds, rate, length)) / 4;
            && Ready(Sources(live), rate, n) && 2 * n <= output.Length
            && (forall i :: 0 <= i < |live| ==> live[i].source.rate > 0)
            && States(kept) == AfterRound(live, rate, n)
            && Rendered(output, wide, Sources(live), rate, n)
  {
    hide Aligned, FeedFits, Lengths, Survivors, IndexFits, Total, Ready, Sized, MinFold, Clip, Mixed;
    ghost var sts := States(ps);
    ghost var live := Survivors(sts, feeds);
    RoundReady(sts, feeds, rate, length);
    SilentRound(live, rate);
    forall k | 0 <= k < mixed.Length { mixed[k] := 0; }
    assert States(ps) == sts;
    var min;
    kept, min := Gather(ps, feeds, rate, length);
    r := 0;
    if min > 0 {
      r := FinishRound(kept, mixed, output, rate, min, wide);
    }
  }
}
