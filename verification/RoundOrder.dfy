/** The order of the player list does not change what a round outputs. */
module RoundOrder {
  import opened Players
  import opened PlayerReads
  import opened RoundSpec
  import opened PlayerRuns
  import opened MixRound

  /** A player together with what its socket offers this round. */
  datatype Turn = Turn(state: PlayerState, feed: Feed)

  ghost predicate Takable(turns: seq<Turn>) {
    forall i :: 0 <= i < |turns| ==> Aligned(turns[i].state) && FeedFits(turns[i].state, turns[i].feed)
  }

  ghost function StatesOf(turns: seq<Turn>): (r: seq<PlayerState>)
    ensures |r| == |turns| && forall i :: 0 <= i < |turns| ==> r[i] == turns[i].state
  {
    seq(|turns|, i requires 0 <= i < |turns| => turns[i].state)
  }

  ghost function FeedsOf(turns: seq<Turn>): (r: seq<Feed>)
    ensures |r| == |turns| && forall i :: 0 <= i < |turns| ==> r[i] == turns[i].feed
  {
    seq(|turns|, i requires 0 <= i < |turns| => turns[i].feed)
  }

  ghost function Live(turns: seq<Turn>): seq<PlayerState>
    requires Takable(turns)
  {
    Survivors(StatesOf(turns), FeedsOf(turns))
  }

  ghost function Supply(turns: seq<Turn>, rate: int, length: nat): seq<nat>
    requires Takable(turns) && rate > 0
  {
    Lengths(StatesOf(turns), FeedsOf(turns), rate, length)
  }

  /** What one turn adds to either list. */
  ghost function LiveOne(t: Turn): seq<PlayerState>
    requires Takable([t])
  {
    assert [t][0] == t;
    var o := Read(t.state, t.feed);
    if o.ret < 0 then [] else [o.state]
  }

  ghost function SupplyOne(t: Turn, rate: int, length: nat): seq<nat>
    requires Takable([t]) && rate > 0
  {
    assert [t][0] == t;
    ReadAligned(t.state, t.feed);
    var o := Read(t.state, t.feed);
    if Counted(o) then [Translated(o.state.source, rate, length)] else []
  }

  lemma LastTurn(turns: seq<Turn>, rate: int, length: nat)
    requires Takable(turns) && rate > 0 && |turns| > 0
    ensures var n := |turns| - 1;
            && Takable([turns[n]]) && Takable(turns[..n])
            && Live(turns) == Live(turns[..n]) + LiveOne(turns[n])
            && Supply(turns, rate, length) == Supply(turns[..n], rate, length) + SupplyOne(turns[n], rate, length)
  {
    hide Read, Translated, Counted, Aligned, FeedFits;
    var n := |turns| - 1;
    ReadAligned(turns[n].state, turns[n].feed);
    assert StatesOf(turns)[..n] == StatesOf(turns[..n]);
    assert FeedsOf(turns)[..n] == FeedsOf(turns[..n]);
  }

  lemma TakablePart(turns: seq<Turn>, i: nat)
    requires Takable(turns) && i < |turns|
    ensures Takable([turns[i]]) && Takable(turns[..i] + turns[i + 1..])
  {
    hide Aligned, FeedFits;
  }

  /** Removing one turn removes its survivor and its length, if any. */
  lemma {:induction false} TakeOut(turns: seq<Turn>, i: nat, rate: int, length: nat)
    requires Takable(turns) && rate > 0 && i < |turns|
    ensures var rest := turns[..i] + turns[i + 1..];
            && Takable([turns[i]]) && Takable(rest)
            && multiset(Live(turns)) == multiset(Live(rest)) + multiset(LiveOne(turns[i]))
            && multiset(Supply(turns, rate, length))
               == multiset(Supply(rest, rate, length)) + multiset(SupplyOne(turns[i], rate, length))
  {
    hide Live, Supply, LiveOne, SupplyOne, Takable;
    var n := |turns| - 1;
    TakablePart(turns, i);
    LastTurn(turns, rate, length);
    if i == n {
      assert turns[..i] + turns[i + 1..] == turns[..n];
    } else {
      var front, rest := turns[..n], turns[..i] + turns[i + 1..];
      TakeOut(front, i, rate, length);
      assert rest[..n - 1] == front[..i] + front[i + 1..];
      assert rest[n - 1] == turns[n] && front[i] == turns[i];
      LastTurn(rest, rate, length);
    }
  }

  lemma {:induction false} SameSupply(turns: seq<Turn>, other: seq<Turn>, rate: int, length: nat)
    requires Takable(turns) && Takable(other) && rate > 0 && multiset(turns) == multiset(other)
    ensures multiset(Live(turns)) == multiset(Live(other))
    ensures multiset(Supply(turns, rate, length)) == multiset(Supply(other, rate, length))
    decreases |turns|
  {
    hide Live, Supply, LiveOne, SupplyOne, Takable;
    if |turns| == 0 {
      assert |multiset(other)| == 0;
      assert other == turns;
    } else {
      var n := |turns| - 1;
      assert turns[n] in multiset(other);
      var i :| 0 <= i < |other| && other[i] == turns[n];
      RemoveOne(turns, other, i);
      LastTurn(turns, rate, length);
      TakeOut(other, i, rate, length);
      SameSupply(turns[..n], other[..i] + other[i + 1..], rate, length);
    }
  }

  lemma {:induction false} SourcesMultiset(sts: seq<PlayerState>, other: seq<PlayerState>)
    requires multiset(sts) == multiset(other)
    ensures multiset(Sources(sts)) == multiset(Sources(other))
    decreases |sts|
  {
    if |sts| == 0 {
      assert |multiset(other)| == 0;
      assert Sources(other) == Sources(sts) == [];
    } else {
      var n := |sts| - 1;
      assert sts[n] in multiset(other);
      var i :| 0 <= i < |other| && other[i] == sts[n];
      RemoveOne(sts, other, i);
      var rest := other[..i] + other[i + 1..];
      SourcesMultiset(sts[..n], rest);
      assert Sources(sts) == Sources(sts[..n]) + [sts[n].source];
      assert Sources(rest) == Sources(other)[..i] + Sources(other)[i + 1..];
      assert Sources(other) == Sources(other)[..i] + ([other[i].source] + Sources(other)[i + 1..]);
    }
  }

  /** Positive lengths are safe, so every survivor with data covers the round. */
  lemma LiveReady(turns: seq<Turn>, rate: int, length: nat)
    requires Takable(turns) && rate > 0 && length > 0
    requires forall i :: 0 <= i < |turns| ==> turns[i].state.source.Volumes()
    requires Positive(Supply(turns, rate, length))
    ensures Ready(Sources(Live(turns)), rate, MinFold(Supply(turns, rate, length)) / 4)
  {
    hide Lengths, Survivors, MinFold, Aligned, FeedFits;
    var sts, feeds := StatesOf(turns), FeedsOf(turns);
    MinFoldPositive(Lengths(sts, feeds, rate, length));
    forall i | 0 <= i < |sts|
      ensures Sound(sts[i], 0)
    {
      AlignedRate(sts[i]);
      SoundNow(sts[i]);
    }
    SurvivorsSound(sts, feeds, 0);
    assert forall st <- Survivors(sts, feeds) :: Sound(st, 0);
    SurvivorsReady(sts, feeds, rate, length);
  }

  lemma SoundNow(st: PlayerState)
    requires st.source.Volumes() && st.source.rate > 0
    ensures Sound(st, 0)
  {
  }

  /** Two lists with the same players and the same input, in any order: when each
      counted player has a whole frame, the rounds are equally long and every
      output sample is the same. */
  lemma OrderIrrelevant(turns: seq<Turn>, other: seq<Turn>, rate: int, length: nat, wide: bool)
    requires Takable(turns) && Takable(other) && rate > 0 && length > 0 && multiset(turns) == multiset(other)
    requires forall i :: 0 <= i < |turns| ==> turns[i].state.source.Volumes()
    requires Positive(Supply(turns, rate, length))
    ensures MinFold(Supply(turns, rate, length)) == MinFold(Supply(other, rate, length))
    ensures var n := MinFold(Supply(turns, rate, length)) / 4;
            && Ready(Sources(Live(turns)), rate, n) && Ready(Sources(Live(other)), rate, n)
            && forall k :: 0 <= k < 2 * n ==>
                 Clip(wide, Total(Sources(Live(turns)), rate, n, k))
                 == Clip(wide, Total(Sources(Live(other)), rate, n, k))
  {
    hide Live, Supply, Total, MinFold, Clip, CanShare, Positive;
    SameSupply(turns, other, rate, length);
    MinFoldPermutation(Supply(turns, rate, length), Supply(other, rate, length));
    SourcesMultiset(Live(turns), Live(other));
    LiveReady(turns, rate, length);
    var ss, tt := Sources(Live(turns)), Sources(Live(other));
    var n := MinFold(Supply(turns, rate, length)) / 4;
    forall i | 0 <= i < |tt|
      ensures CanShare(tt[i], rate, n)
    {
      assert tt[i] in multiset(ss);
    }
    forall k | 0 <= k < 2 * n
      ensures Total(ss, rate, n, k) == Total(tt, rate, n, k)
    {
      TotalPermutation(ss, tt, rate, n, k);
    }
  }
}
