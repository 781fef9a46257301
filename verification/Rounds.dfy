/** The player list over whole runs: rounds of mixing with players joining,
    leaving, being panned and being stopped in between. */
module Rounds {
  import opened Formats
  import opened Players
  import opened PlayerReads
  import opened RoundSpec
  import opened PlayerRuns
  import opened MixLoops
  import opened MixRound

  /** A player that a round of up to `length` bytes can deal with. */
  ghost predicate Playable(st: PlayerState, rate: int, length: nat) {
    Aligned(st) && Sized(st, rate) && IndexFits(length / 4, st.source.rate)
  }

  ghost predicate AllPlayable(sts: seq<PlayerState>, rate: int, length: nat) {
    |sts| < 65536 && forall i :: 0 <= i < |sts| ==> Playable(sts[i], rate, length)
  }

  datatype Event =
    | Round(feeds: seq<Feed>)                 // mix_players
    | Join(player: PlayerState)               // add_player, at the head of the list
    | Leave(i: nat)                           // erase_player
    | Pan(i: nat, left: int, right: int)
    | Stop(i: nat)                            // stop_sample

  /** The list after one round, whatever its length turns out to be. */
  ghost function AfterMixing(sts: seq<PlayerState>, feeds: seq<Feed>, rate: int, length: nat): seq<PlayerState>
    requires Readable(sts, feeds) && rate > 0
  {
    var live := Survivors(sts, feeds);
    SurvivorsCounted(sts, feeds, rate, length);
    AfterRound(live, rate, MinFold(Lengths(sts, feeds, rate, length)) / 4)
  }

  ghost function Apply(sts: seq<PlayerState>, ev: Event, rate: int, length: nat): seq<PlayerState>
    requires rate > 0
  {
    match ev
    case Round(feeds) => if Readable(sts, feeds) then AfterMixing(sts, feeds, rate, length) else sts
    case Join(st) => if |sts| < 65535 && Playable(st, rate, length) then [st] + sts else sts
    case Leave(i) => if i < |sts| then sts[..i] + sts[i + 1..] else sts
    case Pan(i, l, r) =>
      if i < |sts| then sts[i := sts[i].(source := sts[i].source.(left := l, right := r))] else sts
    case Stop(i) => if i < |sts| then sts[i := Stopped(sts[i])] else sts
  }

  ghost function Run(evs: seq<Event>, rate: int, length: nat): seq<PlayerState>
    requires rate > 0
  {
    if |evs| == 0 then [] else Apply(Run(evs[..|evs| - 1], rate, length), evs[|evs| - 1], rate, length)
  }

  /** What the events do to the list: nobody is added, lost or changed but the one
      they are about. */
  lemma EventsDo(sts: seq<PlayerState>, st: PlayerState, i: nat, l: int, r: int, rate: int, length: nat)
    requires rate > 0 && i < |sts|
    ensures |sts| < 65535 && Playable(st, rate, length) ==> Apply(sts, Join(st), rate, length) == [st] + sts
    ensures var t := Apply(sts, Leave(i), rate, length);
            |t| == |sts| - 1 && t[..i] == sts[..i] && t[i..] == sts[i + 1..]
    ensures var t := Apply(sts, Pan(i, l, r), rate, length);
            && |t| == |sts| && t[i].source == sts[i].source.(left := l, right := r)
            && t == sts[i := sts[i].(source := t[i].source)]
    ensures var t := Apply(sts, Stop(i), rate, length);
            && |t| == |sts| && t[i].source.format == sts[i].source.format.(func := STOP)
            && t == sts[i := sts[i].(source := sts[i].source.(format := t[i].source.format))]
  {
    hide Playable;
  }

  // ---- every player stays playable ----

  lemma ReadPlayable(st: PlayerState, feed: Feed, rate: int, length: nat)
    requires Playable(st, rate, length) && FeedFits(st, feed)
    ensures Playable(Read(st, feed).state, rate, length)
  {
    hide Read, FeedFits, IndexFits;
    ReadAligned(st, feed);
    ReadKeeps(st, feed);
    SizedAfterRead(st, feed, rate);
  }

  lemma {:induction false} SurvivorsPlayable(sts: seq<PlayerState>, feeds: seq<Feed>, rate: int, length: nat)
    requires AllPlayable(sts, rate, length) && Readable(sts, feeds)
    ensures AllPlayable(Survivors(sts, feeds), rate, length) && |Survivors(sts, feeds)| <= |sts|
  {
    hide Read, FeedFits, Playable;
    if |sts| > 0 {
      var n := |sts| - 1;
      SurvivorsPlayable(sts[..n], feeds[..n], rate, length);
      ReadPlayable(sts[n], feeds[n], rate, length);
    }
  }

  lemma MixedPlayable(st: PlayerState, rate: int, length: nat, n: nat)
    requires Playable(st, rate, length) && rate > 0
    ensures st.source.rate > 0 && Playable(Mixed(st, rate, n), rate, length)
  {
    MixedAligned(st, rate, n);
  }

  lemma RoundPlayable(sts: seq<PlayerState>, feeds: seq<Feed>, rate: int, length: nat)
    requires AllPlayable(sts, rate, length) && Readable(sts, feeds) && rate > 0
    ensures AllPlayable(AfterMixing(sts, feeds, rate, length), rate, length)
  {
    hide Survivors, Lengths, Readable, Playable, Mixed;
    var live, n := Survivors(sts, feeds), MinFold(Lengths(sts, feeds, rate, length)) / 4;
    SurvivorsPlayable(sts, feeds, rate, length);
    forall i | 0 <= i < |live|
      ensures live[i].source.rate > 0 && Playable(Mixed(live[i], rate, n), rate, length)
    {
      MixedPlayable(live[i], rate, length, n);
    }
  }

  lemma ChangePlayable(st: PlayerState, l: int, r: int, rate: int, length: nat)
    requires Playable(st, rate, length)
    ensures Playable(st.(source := st.source.(left := l, right := r)), rate, length)
    ensures Playable(Stopped(st), rate, length)
  {
    hide Stretched, IndexFits;
  }

  lemma ApplyPlayable(sts: seq<PlayerState>, ev: Event, rate: int, length: nat)
    requires AllPlayable(sts, rate, length) && rate > 0
    ensures AllPlayable(Apply(sts, ev, rate, length), rate, length)
  {
    hide Playable, Readable, AfterMixing, Stopped;
    match ev
    case Round(feeds) => if Readable(sts, feeds) { RoundPlayable(sts, feeds, rate, length); }
    case Join(st) =>
    case Leave(i) =>
    case Pan(i, l, r) =>
      if i < |sts| { ChangePlayable(sts[i], l, r, rate, length); }
    case Stop(i) => if i < |sts| { ChangePlayable(sts[i], 0, 0, rate, length); }
  }

  /** Over every run each player's data stays within its buffer, both are whole
      frames, and the arithmetic of a round fits, whatever the volumes. */
  lemma {:induction false} RunPlayable(evs: seq<Event>, rate: int, length: nat)
    requires rate > 0
    ensures AllPlayable(Run(evs, rate, length), rate, length)
  {
    hide Playable, Apply;
    if |evs| > 0 {
      RunPlayable(evs[..|evs| - 1], rate, length);
      ApplyPlayable(Run(evs[..|evs| - 1], rate, length), evs[|evs| - 1], rate, length);
    }
  }

  // ---- volumes ----

  ghost predicate AllInRange(sts: seq<PlayerState>) { forall i :: 0 <= i < |sts| ==> sts[i].source.Volumes() }

  /** An event that brings no volume outside 0..256. */
  predicate Tame(ev: Event) {
    && (ev.Join? ==> ev.player.source.Volumes())
    && (ev.Pan? ==> 0 <= ev.left <= VOLUME_BASE && 0 <= ev.right <= VOLUME_BASE)
  }

  lemma RoundInRange(sts: seq<PlayerState>, feeds: seq<Feed>, rate: int, length: nat)
    requires AllPlayable(sts, rate, length) && AllInRange(sts) && Readable(sts, feeds) && rate > 0
    ensures AllInRange(AfterMixing(sts, feeds, rate, length))
  {
    hide Survivors, Lengths, Readable, MinFold, IndexFits;
    forall i | 0 <= i < |sts|
      ensures Sound(sts[i], length)
    {
      assert Playable(sts[i], rate, length);
    }
    SurvivorsSound(sts, feeds, length);
    assert forall st <- Survivors(sts, feeds) :: Sound(st, length);
  }

  /** Volumes stay in range as long as nobody pans out of it. */
  lemma {:induction false} RunInRange(evs: seq<Event>, rate: int, length: nat)
    requires rate > 0 && forall i :: 0 <= i < |evs| ==> Tame(evs[i])
    ensures AllInRange(Run(evs, rate, length))
  {
    hide Playable, Readable, AfterMixing;
    if |evs| > 0 {
      var n := |evs| - 1;
      var sts := Run(evs[..n], rate, length);
      RunInRange(evs[..n], rate, length);
      RunPlayable(evs[..n], rate, length);
      assert Tame(evs[n]);
      match evs[n]
      case Round(feeds) => if Readable(sts, feeds) { RoundInRange(sts, feeds, rate, length); }
      case Join(st) =>
      case Leave(i) =>
      case Pan(i, l, r) =>
      case Stop(i) =>
    }
  }

  // ---- when a round is as long as its shortest player ----

  /** A read that brings a stream with an empty buffer some data, but not enough
      to fill it: the player is counted although it has kept nothing. */
  predicate ShortRead(st: PlayerState, feed: Feed) {
    && st.source.format.mode == STREAM && st.source.data == []
    && feed.Data? && 0 < |feed.bytes| < st.Room()
  }

  lemma CountedEmptyIff(st: PlayerState, feed: Feed)
    requires Aligned(st) && FeedFits(st, feed)
    ensures Counted(Read(st, feed)) && Read(st, feed).state.source.data == [] <==> ShortRead(st, feed)
  {
    hide Looped, After, Whole;
  }

  lemma PositiveSupply(st: PlayerState, rate: int, length: nat)
    requires Aligned(st) && rate > 0 && length > 0
    ensures Translated(st.source, rate, length) > 0 <==> st.source.data != []
  {
    if st.source.data != [] {
      HasFrame(st, rate);
    } else if Translated(st.source, rate, length) > 0 {
      NoDataNoLength(st.source, rate, length);
    }
  }

  ghost predicate NoShortReads(sts: seq<PlayerState>, feeds: seq<Feed>)
    requires |sts| == |feeds|
  {
    forall i :: 0 <= i < |sts| ==> !ShortRead(sts[i], feeds[i])
  }

  /** Every counted player has a whole frame exactly when no read was short. */
  lemma {:induction false} PositiveIff(sts: seq<PlayerState>, feeds: seq<Feed>, rate: int, length: nat)
    requires Readable(sts, feeds) && rate > 0 && length > 0
    ensures Positive(Lengths(sts, feeds, rate, length)) <==> NoShortReads(sts, feeds)
  {
    hide Read, Translated, ShortRead, FeedFits, Counted;
    if |sts| > 0 {
      var n := |sts| - 1;
      PositiveIff(sts[..n], feeds[..n], rate, length);
      ReadAligned(sts[n], feeds[n]);
      CountedEmptyIff(sts[n], feeds[n]);
      var o := Read(sts[n], feeds[n]);
      PositiveSupply(o.state, rate, length);
      var last: seq<nat> := if Counted(o) then [Translated(o.state.source, rate, length)] else [];
      assert Positive(last) <==> !ShortRead(sts[n], feeds[n]) by {
        if Counted(o) { assert last[0] == Translated(o.state.source, rate, length); }
      }
      PositiveSplit(Lengths(sts[..n], feeds[..n], rate, length), last);
      NoShortSplit(sts, feeds);
    }
  }

  lemma PositiveSplit(a: seq<nat>, b: seq<nat>)
    ensures Positive(a + b) <==> Positive(a) && Positive(b)
  {
    if Positive(a + b) {
      assert forall i :: 0 <= i < |a| ==> (a + b)[i] == a[i];
      assert forall i :: 0 <= i < |b| ==> (a + b)[|a| + i] == b[i];
    }
  }

  lemma NoShortSplit(sts: seq<PlayerState>, feeds: seq<Feed>)
    requires |sts| == |feeds| > 0
    ensures var n := |sts| - 1;
            NoShortReads(sts, feeds) <==> NoShortReads(sts[..n], feeds[..n]) && !ShortRead(sts[n], feeds[n])
  {
    hide ShortRead;
    var n := |sts| - 1;
    assert forall i :: 0 <= i < n ==> sts[..n][i] == sts[i] && feeds[..n][i] == feeds[i];
  }

  /** In every run with volumes in 0..256: a round without short reads meets every
      condition of `MixPlayers`, so it mixes the true minimum and reads no stale
      data. */
  lemma EveryRound(evs: seq<Event>, feeds: seq<Feed>, rate: int, length: nat)
    requires rate > 0 && length > 0 && length % 4 == 0 && forall i :: 0 <= i < |evs| ==> Tame(evs[i])
    requires Readable(Run(evs, rate, length), feeds) && NoShortReads(Run(evs, rate, length), feeds)
    ensures var sts := Run(evs, rate, length);
            && Mixable(sts, feeds, rate, length)
            && Positive(Lengths(sts, feeds, rate, length)) && Safe(Lengths(sts, feeds, rate, length))
  {
    hide Run, Lengths, MinFold, NoShortReads, Aligned, FeedFits;
    var sts := Run(evs, rate, length);
    RunPlayable(evs, rate, length);
    RunInRange(evs, rate, length);
    assert forall i :: 0 <= i < |sts| ==> Playable(sts[i], rate, length);
    PositiveIff(sts, feeds, rate, length);
    MinFoldPositive(Lengths(sts, feeds, rate, length));
  }
}
