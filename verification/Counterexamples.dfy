/** Inputs at which the properties one would like fail, each reached by a run from an
    empty list of players whose buffers have the sizes the daemon gives them: a
    server of 16-bit stereo at 44100 Hz with a buffer of 4096 bytes. */
module Counterexamples {
  import opened CTypes
  import opened Formats
  import opened MixSpec
  import opened Players
  import opened PlayerReads
  import opened RoundSpec
  import opened PlayerRuns
  import opened MixRound
  import opened Rounds
  import opened BufferSizing

  const OCTETS: nat := 4096
  const RATE: int := 44100

  // ---- players as they are set up ----

  function NewPlayer(f: Format, sample: SampleData): PlayerState {
    PlayerState(Source(f, RATE, VOLUME_BASE, VOLUME_BASE, []), BufferLength(f, OCTETS, RATE, RATE), 0, sample)
  }

  /** A stream in the server's own format. */
  function Streamer(): PlayerState {
    var f := Format(BITS16, STEREO, STREAM, PLAY);
    NewPlayer(f, SampleData(f, []))
  }

  /** A player of a sound in the server's own format, played once. */
  function Once(bytes: seq<byte>): PlayerState {
    NewPlayer(Format(BITS16, STEREO, SAMPLE, PLAY), SampleData(Format(BITS16, STEREO, SAMPLE, PLAY), bytes))
  }

  /** A player of an 8-bit mono sound, played over and over. */
  function Looper(bytes: seq<byte>): PlayerState {
    NewPlayer(Format(BITS8, MONO, SAMPLE, LOOP), SampleData(Format(BITS8, MONO, SAMPLE, PLAY), bytes))
  }

  lemma Sizes()
    ensures Reasonable(OCTETS, RATE, RATE)
    ensures forall f: Format :: f.Mixable() ==> BufferLength(f, OCTETS, RATE, RATE) == 1024 * f.FrameSize()
  {
    DivSelf(OCTETS, RATE);
  }

  lemma PlayableNew(f: Format, sample: SampleData)
    requires f.Mixable() && Whole(f, |sample.bytes|)
    ensures Playable(NewPlayer(f, sample), RATE, OCTETS)
  {
    Sizes();
    NewPlayable(f, RATE, VOLUME_BASE, VOLUME_BASE, sample, OCTETS, RATE);
  }

  // ---- unfolding runs and rounds ----

  ghost function Reached(evs: seq<Event>): seq<PlayerState> { Rounds.Run(evs, RATE, OCTETS) }

  lemma RunMore(evs: seq<Event>, ev: Event)
    ensures Reached(evs + [ev]) == Rounds.Apply(Reached(evs), ev, RATE, OCTETS)
  {
    assert (evs + [ev])[..|evs|] == evs;
  }

  /** Survivors and lengths of one more player. */
  lemma More(sts: seq<PlayerState>, feeds: seq<Feed>, st: PlayerState, feed: Feed)
    requires Readable(sts, feeds) && Aligned(st) && FeedFits(st, feed)
    ensures Readable(sts + [st], feeds + [feed]) && Aligned(Read(st, feed).state)
    ensures var o := Read(st, feed);
            && Survivors(sts + [st], feeds + [feed]) == Survivors(sts, feeds) + (if o.ret < 0 then [] else [o.state])
            && Lengths(sts + [st], feeds + [feed], RATE, OCTETS)
               == Lengths(sts, feeds, RATE, OCTETS)
                   + if Counted(o) then [Translated(o.state.source, RATE, OCTETS)] else []
  {
    hide Aligned, FeedFits, Read, Translated, Counted;
    var n := |sts|;
    ReadAligned(st, feed);
    assert (sts + [st])[..n] == sts && (feeds + [feed])[..n] == feeds;
  }

  /** The minimum of a list with one more length. */
  lemma MinMore(ts: seq<nat>, t: nat)
    ensures MinFold(ts + [t]) == MinStep(MinFold(ts), t)
  {
    assert (ts + [t])[..|ts|] == ts;
  }

  // ---- what these players read and supply ----

  const SHORT: seq<byte> := [1, 2, 3, 4]

  lemma StreamReads(d: seq<byte>)
    requires |d| == OCTETS
    ensures Aligned(Streamer()) && Aligned(Streamer().Append(d, 0)) && FeedFits(Streamer(), Data(d))
    ensures Read(Streamer(), Idle) == Outcome(0, Streamer())
    ensures Read(Streamer(), Data(SHORT)) == Outcome(4, Streamer()) && ShortRead(Streamer(), Data(SHORT))
    ensures Read(Streamer(), Data(d)) == Outcome(4096, Streamer().Append(d, 0))
  {
    hide BufferLength;
    Sizes();
    assert [] + d == d;
  }

  lemma OnceReads(bytes: seq<byte>)
    requires |bytes| == 4076
    ensures Aligned(Once(bytes)) && Aligned(Once(bytes).Append(bytes, 4076))
    ensures Read(Once(bytes), Idle) == Outcome(4076, Once(bytes).Append(bytes, 4076))
    ensures Aligned(Once(bytes).(lastPos := 4076)) && Read(Once(bytes).(lastPos := 4076), Idle).ret == -1
  {
    hide BufferLength;
    Sizes();
    assert bytes[0..0 + 4076] == bytes;
  }

  /** Whole frames in the server's format and at its rate. */
  lemma Supplies(s: Source, k: nat)
    requires s.format.Mixable() && s.rate == RATE && |s.data| == k * s.format.FrameSize() && k <= 1024
    ensures s.FrameCount() == k && Translated(s, RATE, OCTETS) == 4 * k
  {
    DivSelf(k, s.format.FrameSize());
    DivUnique(k * RATE + RATE - 1, RATE, k);
  }

  /** What a round of n frames leaves of a player at the server's rate. */
  lemma MixedSame(st: PlayerState, n: nat)
    requires st.source.rate == RATE
    ensures Mixed(st, RATE, n)
         == st.(source := st.source.(data := st.source.data[Min(n * st.source.format.FrameSize(), |st.source.data|)..]))
  {
    SameRateFrame(n, RATE);
  }

  /** The list after a round whose survivors and length are known. */
  lemma RoundIs(sts: seq<PlayerState>, feeds: seq<Feed>, live: seq<PlayerState>, n: nat, after: seq<PlayerState>)
    requires Readable(sts, feeds) && Survivors(sts, feeds) == live
    requires MinFold(Lengths(sts, feeds, RATE, OCTETS)) == 4 * n
    requires |after| == |live| && forall i :: 0 <= i < |live| ==> live[i].source.rate == RATE
    requires forall i :: 0 <= i < |live| ==> Mixed(live[i], RATE, n) == after[i]
    ensures Rounds.Apply(sts, Round(feeds), RATE, OCTETS) == after
  {
    hide Mixed, MinFold, Lengths, Survivors, Readable;
  }

  lemma NoneJoined()
    ensures Reached([]) == []
  {
  }

  lemma Joined(evs: seq<Event>, st: PlayerState)
    requires Playable(st, RATE, OCTETS) && |Reached(evs)| < 65535
    ensures Reached(evs + [Join(st)]) == [st] + Reached(evs)
  {
    hide Playable, Reached;
    RunMore(evs, Join(st));
  }

  // ---- a round that is too long ----

  lemma FourJoin(sound: seq<byte>)
    requires |sound| == 4076
    ensures Reached([Join(Streamer()), Join(Streamer()), Join(Once(sound)), Join(Streamer())])
         == [Streamer(), Once(sound), Streamer(), Streamer()]
  {
    hide Playable, Streamer, Once, Reached;
    var s, p := Streamer(), Once(sound);
    JoinersPlayable(sound);
    NoneJoined();
    Joined([], s);
    assert [] + [Join(s)] == [Join(s)];
    Joined([Join(s)], s);
    assert [Join(s)] + [Join(s)] == [Join(s), Join(s)];
    Joined([Join(s), Join(s)], p);
    assert [Join(s), Join(s)] + [Join(p)] == [Join(s), Join(s), Join(p)];
    Joined([Join(s), Join(s), Join(p)], s);
    assert [Join(s), Join(s), Join(p)] + [Join(s)] == [Join(s), Join(s), Join(p), Join(s)];
  }

  lemma JoinersPlayable(sound: seq<byte>)
    requires |sound| == 4076
    ensures Playable(Streamer(), RATE, OCTETS) && Playable(Once(sound), RATE, OCTETS)
  {
    hide NewPlayer;
    PlayableNew(Format(BITS16, STEREO, STREAM, PLAY), SampleData(Format(BITS16, STEREO, STREAM, PLAY), []));
    PlayableNew(Format(BITS16, STEREO, SAMPLE, PLAY), SampleData(Format(BITS16, STEREO, SAMPLE, PLAY), sound));
  }

  /** The newest stream fills its buffer, the sound is shorter: 1019 frames are
      mixed and five of the stream's are left. */
  lemma FirstRound(sound: seq<byte>, first: seq<byte>)
    requires |sound| == 4076 && |first| == OCTETS
    ensures var s := Streamer();
            Rounds.Apply([s, Once(sound), s, s], Round([Data(first), Idle, Idle, Idle]), RATE, OCTETS)
            == [s.Append(first[4076..], 0), Once(sound).(lastPos := 4076), s, s]
  {
    hide Streamer, Once, Read, Mixed, MinFold, Lengths, Survivors, Translated, Aligned, Readable;
    var s, p := Streamer(), Once(sound);
    StreamReads(first);
    OnceReads(sound);
    FirstSupply(sound, first);
    FourPlayers(s, p, s, s, Data(first), Idle, Idle, Idle);
    assert Gives(s, Data(first)) == [4096] && Gives(p, Idle) == [4076] && Gives(s, Idle) == [];
    assert [4096] + [4076] + [] + [] == [4096, 4076];
    TwoLengths(4096, 4076);
    RoundIs([s, p, s, s], [Data(first), Idle, Idle, Idle], [s.Append(first, 0), p.Append(sound, 4076), s, s], 1019,
            [s.Append(first[4076..], 0), p.(lastPos := 4076), s, s]);
  }

  lemma TwoLengths(a: nat, b: nat)
    requires a > 0
    ensures MinFold([a, b]) == if a > b then b else a
  {
    MinMore([], a);
    MinMore([a], b);
    assert [] + [a] == [a] && [a] + [b] == [a, b];
  }

  lemma FirstSupply(sound: seq<byte>, first: seq<byte>)
    requires |sound| == 4076 && |first| == OCTETS
    ensures var s, p := Streamer(), Once(sound);
            && s.source.data == [] && s.source.rate == p.source.rate == RATE
            && Translated(s.Append(first, 0).source, RATE, OCTETS) == 4096
            && Translated(p.Append(sound, 4076).source, RATE, OCTETS) == 4076
            && Mixed(s.Append(first, 0), RATE, 1019) == s.Append(first[4076..], 0)
            && Mixed(p.Append(sound, 4076), RATE, 1019) == p.(lastPos := 4076)
            && Mixed(s, RATE, 1019) == s
  {
    hide Mixed, Translated, BufferLength;
    var s, p := Streamer(), Once(sound);
    Supplies(s.Append(first, 0).source, 1024);
    Supplies(p.Append(sound, 4076).source, 1019);
    MixedSame(s.Append(first, 0), 1019);
    MixedSame(p.Append(sound, 4076), 1019);
    MixedSame(s, 1019);
    assert [] + first == first && [] + sound == sound && [] + first[4076..] == first[4076..];
  }

  /** What one player adds to either list. */
  ghost function Lives(st: PlayerState, feed: Feed): seq<PlayerState>
    requires Aligned(st)
  {
    var o := Read(st, feed); if o.ret < 0 then [] else [o.state]
  }

  ghost function Gives(st: PlayerState, feed: Feed): seq<nat>
    requires Aligned(st) && FeedFits(st, feed)
  {
    ReadAligned(st, feed);
    var o := Read(st, feed); if Counted(o) then [Translated(o.state.source, RATE, OCTETS)] else []
  }

  lemma FourPlayers(a: PlayerState, b: PlayerState, c: PlayerState, d: PlayerState, fa: Feed, fb: Feed, fc: Feed,
                    fd: Feed)
    requires Aligned(a) && Aligned(b) && Aligned(c) && Aligned(d)
    requires FeedFits(a, fa) && FeedFits(b, fb) && FeedFits(c, fc) && FeedFits(d, fd)
    ensures var sts, feeds := [a, b, c, d], [fa, fb, fc, fd];
            && Readable(sts, feeds)
               && Survivors(sts, feeds) == Lives(a, fa) + Lives(b, fb) + Lives(c, fc) + Lives(d, fd)
            && Lengths(sts, feeds, RATE, OCTETS) == Gives(a, fa) + Gives(b, fb) + Gives(c, fc) + Gives(d, fd)
  {
    hide Aligned, FeedFits, Read, Translated, Counted;
    TwoPlayers(a, b, fa, fb);
    More([a, b], [fa, fb], c, fc);
    More([a, b, c], [fa, fb, fc], d, fd);
    assert [a, b] + [c] == [a, b, c] && [fa, fb] + [fc] == [fa, fb, fc];
    assert [a, b, c] + [d] == [a, b, c, d] && [fa, fb, fc] + [fd] == [fa, fb, fc, fd];
  }

  lemma TwoPlayers(a: PlayerState, b: PlayerState, fa: Feed, fb: Feed)
    requires Aligned(a) && Aligned(b) && FeedFits(a, fa) && FeedFits(b, fb)
    ensures var sts, feeds := [a, b], [fa, fb];
            && Readable(sts, feeds) && Survivors(sts, feeds) == Lives(a, fa) + Lives(b, fb)
            && Lengths(sts, feeds, RATE, OCTETS) == Gives(a, fa) + Gives(b, fb)
  {
    hide Aligned, FeedFits, Read, Translated, Counted;
    OnePlayer(a, fa);
    More([a], [fa], b, fb);
    assert [a] + [b] == [a, b] && [fa] + [fb] == [fa, fb];
  }

  lemma OnePlayer(a: PlayerState, fa: Feed)
    requires Aligned(a) && FeedFits(a, fa)
    ensures Readable([a], [fa]) && Survivors([a], [fa]) == Lives(a, fa)
    ensures Lengths([a], [fa], RATE, OCTETS) == Gives(a, fa)
  {
    hide Aligned, FeedFits, Read, Translated, Counted;
    assert Readable([], []) && Survivors([], []) == [] && Lengths([], [], RATE, OCTETS) == [];
    More([], [], a, fa);
    assert [] + [a] == [a] && [] + [fa] == [fa];
    assert [] + Lives(a, fa) == Lives(a, fa) && [] + Gives(a, fa) == Gives(a, fa);
  }

  lemma SecondSupply(first: seq<byte>, last: seq<byte>)
    requires |first| == |last| == OCTETS
    ensures var s := Streamer();
            && Aligned(s.Append(first[4076..], 0))
            && Read(s.Append(first[4076..], 0), Idle) == Outcome(0, s.Append(first[4076..], 0))
            && Translated(s.Append(first[4076..], 0).source, RATE, OCTETS) == 20
            && Translated(s.source, RATE, OCTETS) == 0 && s.source.data == []
            && Translated(s.Append(last, 0).source, RATE, OCTETS) == 4096
            && s.source.rate == RATE && !Covers(s.Append(first[4076..], 0).source, RATE, 1024)
  {
    hide Translated, BufferLength;
    Sizes();
    var s := Streamer();
    Supplies(s.Append(first[4076..], 0).source, 5);
    Supplies(s.source, 0);
    Supplies(s.Append(last, 0).source, 1024);
    SameRateFrame(1023, RATE);
  }

  /** In the next round the oldest stream fills its buffer, the second gets one
      frame, which is reported but not kept, and the newest nothing. The round is
      made 1024 frames long, and the newest stream has only 5. */
  lemma SecondRound(sound: seq<byte>, first: seq<byte>, last: seq<byte>)
    requires |sound| == 4076 && |first| == |last| == OCTETS
    ensures var s := Streamer();
            var sts, feeds := [s.Append(first[4076..], 0), Once(sound).(lastPos := 4076), s, s],
                              [Idle, Idle, Data(SHORT), Data(last)];
            && Readable(sts, feeds) && ShortRead(sts[2], feeds[2])
            && Survivors(sts, feeds) == [s.Append(first[4076..], 0), s, s.Append(last, 0)]
            && Lengths(sts, feeds, RATE, OCTETS) == [20, 0, 4096]
  {
    hide Streamer, Once, Read, Translated, Aligned, Readable, Lengths, Survivors;
    var s, p := Streamer(), Once(sound).(lastPos := 4076);
    StreamReads(last);
    OnceReads(sound);
    SecondSupply(first, last);
    var t := s.Append(first[4076..], 0);
    FourPlayers(t, p, s, s, Idle, Idle, Data(SHORT), Data(last));
    assert Gives(t, Idle) == [20] && Gives(p, Idle) == [] && Gives(s, Data(SHORT)) == [0]
        && Gives(s, Data(last)) == [4096];
    assert [20] + [] + [0] + [4096] == [20, 0, 4096];
    assert [t] + [] + [s] + [s.Append(last, 0)] == [t, s, s.Append(last, 0)];
  }

  /** Reached from nothing in five events: a round longer than a player's data. */
  lemma UnsafeRound(sound: seq<byte>, first: seq<byte>, last: seq<byte>)
    requires |sound| == 4076 && |first| == |last| == OCTETS
    ensures var s := Streamer();
            var evs := [Join(s), Join(s), Join(Once(sound)), Join(s), Round([Data(first), Idle, Idle, Idle])];
            var sts, feeds := Reached(evs), [Idle, Idle, Data(SHORT), Data(last)];
            && Readable(sts, feeds) && |sts| == 4 && ShortRead(sts[2], feeds[2])
            && Lengths(sts, feeds, RATE, OCTETS) == [20, 0, 4096]
            && MinFold(Lengths(sts, feeds, RATE, OCTETS)) == 4096 && !Safe(Lengths(sts, feeds, RATE, OCTETS))
            && |Survivors(sts, feeds)| == 3
            && var live := Survivors(sts, feeds)[0].source; live.rate == RATE && !Covers(live, RATE, 1024)
  {
    hide Streamer, Once, Reached, Readable, ShortRead, Lengths, Survivors, MinFold, Covers;
    var s := Streamer();
    var joins := [Join(s), Join(s), Join(Once(sound)), Join(s)];
    FourJoin(sound);
    RunMore(joins, Round([Data(first), Idle, Idle, Idle]));
    assert joins + [Round([Data(first), Idle, Idle, Idle])]
        == [Join(s), Join(s), Join(Once(sound)), Join(s), Round([Data(first), Idle, Idle, Idle])];
    FirstRound(sound, first);
    SecondRound(sound, first, last);
    SecondSupply(first, last);
    ShortPlayerUnsafe();
  }

  // ---- a loop that ends at its sample's end ----

  /** The player of a sound twice as long as its buffer, at its start, in the
      middle and at the end. */
  lemma LooperReads(bytes: seq<byte>)
    requires |bytes| == 2048
    ensures var l := Looper(bytes);
            && Aligned(l) && Aligned(l.(lastPos := 1024)) && Aligned(l.(lastPos := 2048))
            && Loops(l) && Loops(l.(lastPos := 1024)) && EndsMeet(l.(lastPos := 1024)) && !EndsMeet(l)
            && Read(l, Idle) == Outcome(1024, l.Append(bytes[0..1024], 1024))
            && Read(l.(lastPos := 1024), Idle) == Outcome(1024, l.Append(bytes[1024..2048], 2048))
            && Read(l.(lastPos := 2048), Idle).ret == -1
  {
    hide BufferLength, Looped, PlayerReads.After;
    Sizes();
  }

  /** A full buffer of it, used up by a whole round. */
  lemma LooperSupply(bytes: seq<byte>, part: seq<byte>, pos: nat)
    requires |part| == 1024
    ensures var l := Looper(bytes).Append(part, pos);
            && l.source.rate == RATE && Translated(l.source, RATE, OCTETS) == 4096
            && Mixed(l, RATE, 1024) == Looper(bytes).(lastPos := pos)
  {
    hide Mixed, Translated, BufferLength;
    var l := Looper(bytes).Append(part, pos);
    assert l.source.data == part;
    Supplies(l.source, 1024);
    MixedSame(l, 1024);
    assert part[1024..] == [];
  }

  /** One round of the player alone. */
  lemma LooperRound(bytes: seq<byte>, pos: nat, part: seq<byte>)
    requires Aligned(Looper(bytes).(lastPos := pos)) && |part| == 1024
    requires Read(Looper(bytes).(lastPos := pos), Idle) == Outcome(1024, Looper(bytes).Append(part, pos + 1024))
    ensures Rounds.Apply([Looper(bytes).(lastPos := pos)], Round([Idle]), RATE, OCTETS)
         == [Looper(bytes).(lastPos := pos + 1024)]
  {
    hide Looper, Read, Mixed, MinFold, Lengths, Survivors, Translated, Aligned, Readable;
    var l := Looper(bytes).(lastPos := pos);
    LooperSupply(bytes, part, pos + 1024);
    OnePlayer(l, Idle);
    assert Gives(l, Idle) == [4096];
    OneLength(4096);
    RoundIs([l], [Idle], [Looper(bytes).Append(part, pos + 1024)], 1024, [Looper(bytes).(lastPos := pos + 1024)]);
  }

  lemma OneLength(a: nat)
    ensures MinFold([a]) == a
  {
    MinMore([], a);
    assert [] + [a] == [a];
  }

  /** The last round: the read fails and the player is gone. */
  lemma LooperGone(st: PlayerState)
    requires Aligned(st) && Read(st, Idle).ret == -1
    ensures Rounds.Apply([st], Round([Idle]), RATE, OCTETS) == []
  {
    hide Read, Mixed, Lengths, Survivors, Translated, Aligned, Readable;
    OnePlayer(st, Idle);
    assert MinFold([]) == 0;
    RoundIs([st], [Idle], [], 0, []);
  }

  lemma LooperJoins(bytes: seq<byte>)
    ensures Playable(Looper(bytes), RATE, OCTETS)
  {
    hide NewPlayer;
    PlayableNew(Format(BITS8, MONO, SAMPLE, LOOP), SampleData(Format(BITS8, MONO, SAMPLE, PLAY), bytes));
  }

  /** A looping sound of 2048 bytes in the buffer of 1024 it is given, alone in the
      mix: after two rounds its end has met the buffer's, and the third round's
      read removes it. */
  lemma LoopEndsAtBoundary(bytes: seq<byte>)
    requires |bytes| == 2048
    ensures var evs := [Join(Looper(bytes)), Round([Idle]), Round([Idle])];
            && Reached(evs) == [Looper(bytes).(lastPos := 2048)] && Reached(evs + [Round([Idle])]) == []
  {
    hide Looper, Playable, Reached, Read, Aligned, Rounds.Apply;
    var l := Looper(bytes);
    LooperReads(bytes);
    LooperJoins(bytes);
    NoneJoined();
    Joined([], l);
    assert [] + [Join(l)] == [Join(l)] && [l] + [] == [l];
    assert l.(lastPos := 0) == l by { LooperFresh(bytes); }
    assert Reached([Join(l)]) == [l.(lastPos := 0)];
    LooperRound(bytes, 0, bytes[0..1024]);
    RunMore([Join(l)], Round([Idle]));
    assert [Join(l)] + [Round([Idle])] == [Join(l), Round([Idle])];
    LooperRound(bytes, 1024, bytes[1024..2048]);
    RunMore([Join(l), Round([Idle])], Round([Idle]));
    assert [Join(l), Round([Idle])] + [Round([Idle])] == [Join(l), Round([Idle]), Round([Idle])];
    LooperGone(l.(lastPos := 2048));
    RunMore([Join(l), Round([Idle]), Round([Idle])], Round([Idle]));
  }

  lemma LooperFresh(bytes: seq<byte>)
    ensures Looper(bytes).lastPos == 0 && Looper(bytes).source.data == [] && Looper(bytes).source.rate == RATE
  {
  }

  // ---- a loop that ends with a full buffer ----

  /** The player with a buffer full of repetitions of its 8 bytes. */
  function Full(bytes: seq<byte>): PlayerState
    requires |bytes| == 8
  {
    Looper(bytes).Append(Looped(bytes, 0, 1024), PlayerReads.After(0, 1024, 8))
  }

  lemma ShortLooperReads(bytes: seq<byte>)
    requires |bytes| == 8
    ensures var l, full := Looper(bytes), Full(bytes);
            && Aligned(l) && Loops(l) && !EndsMeet(l) && Read(l, Idle) == Outcome(1024, full)
            && Aligned(full) && |full.source.data| == 1024 && full.source.rate == RATE
            && full.source.format.FrameSize() == 1 && full.sample == l.sample && Read(full, Idle).ret == -1
  {
    hide BufferLength, Looped, PlayerReads.After;
    Sizes();
    ReadAligned(Looper(bytes), Idle);
    AfterLoopingRead(Looper(bytes), Idle);
    ClosesIff(Full(bytes), Idle);
  }

  /** A short read of a stream that comes after it in the list makes the round
      empty. */
  lemma EmptyRound(bytes: seq<byte>)
    requires |bytes| == 8
    ensures var l, s := Looper(bytes), Streamer();
            Rounds.Apply([l, s], Round([Idle, Data(SHORT)]), RATE, OCTETS) == [Full(bytes), s]
  {
    hide Looper, Full, Streamer, Read, Mixed, MinFold, Lengths, Survivors, Translated, Aligned, Readable;
    var l, s, full := Looper(bytes), Streamer(), Full(bytes);
    ShortLooperReads(bytes);
    StreamReads(seq(OCTETS, _ => 0));
    StreamSilent();
    FullSupply(full);
    TwoPlayers(l, s, Idle, Data(SHORT));
    assert Gives(l, Idle) == [4096] && Gives(s, Data(SHORT)) == [0] && [4096] + [0] == [4096, 0];
    TwoLengths(4096, 0);
    RoundIs([l, s], [Idle, Data(SHORT)], [full, s], 0, [full, s]);
  }

  lemma StreamSilent()
    ensures Streamer().source.rate == RATE && Mixed(Streamer(), RATE, 0) == Streamer() && Streamer().source.data == []
    ensures Translated(Streamer().source, RATE, OCTETS) == 0
  {
    hide BufferLength, Translated;
    MixedSame(Streamer(), 0);
    Supplies(Streamer().source, 0);
  }

  lemma FullSupply(st: PlayerState)
    requires Aligned(st) && st.source.rate == RATE && |st.source.data| == 1024 && st.source.format.FrameSize() == 1
    ensures Translated(st.source, RATE, OCTETS) == 4096 && Mixed(st, RATE, 0) == st
  {
    hide Translated;
    Supplies(st.source, 1024);
    MixedSame(st, 0);
    assert st.source.data[0..] == st.source.data;
  }

  lemma FullGone(bytes: seq<byte>)
    requires |bytes| == 8
    ensures Rounds.Apply([Full(bytes), Streamer()], Round([Idle, Idle]), RATE, OCTETS) == [Streamer()]
  {
    hide Looper, Full, Streamer, Read, Mixed, Lengths, Survivors, Translated, Aligned, Readable;
    var full, s := Full(bytes), Streamer();
    ShortLooperReads(bytes);
    StreamReads(seq(OCTETS, _ => 0));
    StreamSilent();
    TwoPlayers(full, s, Idle, Idle);
    assert Gives(full, Idle) == [] && Gives(s, Idle) == [] && Lives(full, Idle) == [] && Lives(s, Idle) == [s];
    assert MinFold([]) == 0;
    RoundIs([full, s], [Idle, Idle], [s], 0, [s]);
  }

  /** A looping sound of 8 bytes, nowhere near its end, and a stream with a short
      read: the round is empty, the looping player's buffer stays full, and the
      next round's read removes it. */
  lemma LoopEndsWhenFull(bytes: seq<byte>)
    requires |bytes| == 8
    ensures var l, s := Looper(bytes), Streamer();
            var evs := [Join(s), Join(l), Round([Idle, Data(SHORT)])];
            && !EndsMeet(l) && Reached(evs) == [Full(bytes), s]
            && Reached(evs + [Round([Idle, Idle])]) == [s]
  {
    hide Looper, Full, Streamer, Playable, Reached, Read, Aligned, EndsMeet, Rounds.Apply;
    var l, s := Looper(bytes), Streamer();
    ShortLooperReads(bytes);
    LooperJoins(bytes);
    JoinersPlayable(seq(4076, _ => 0));
    NoneJoined();
    Joined([], s);
    assert [] + [Join(s)] == [Join(s)];
    assert [s] + [] == [s];
    Joined([Join(s)], l);
    assert [Join(s)] + [Join(l)] == [Join(s), Join(l)] && [l] + [s] == [l, s];
    assert Reached([Join(s), Join(l)]) == [l, s];
    EmptyRound(bytes);
    RunMore([Join(s), Join(l)], Round([Idle, Data(SHORT)]));
    assert [Join(s), Join(l)] + [Round([Idle, Data(SHORT)])] == [Join(s), Join(l), Round([Idle, Data(SHORT)])];
    FullGone(bytes);
    RunMore([Join(s), Join(l), Round([Idle, Data(SHORT)])], Round([Idle, Idle]));
  }
}
