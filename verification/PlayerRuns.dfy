/** A player's buffer over whole runs of reads and mixing rounds. */
module PlayerRuns {
  import opened CTypes
  import opened Formats
  import opened MixSpec
  import opened Players
  import opened PlayerReads
  import opened RoundSpec

  /** Data within the buffer, and everything a whole number of frames. */
  predicate Aligned(st: PlayerState) {
    var f := st.source.format;
    && f.Mixable() && st.source.rate > 0
    && st.Room() >= 0 && st.lastPos <= |st.sample.bytes|
    && Whole(f, st.capacity) && Whole(f, |st.source.data|)
    && Whole(f, |st.sample.bytes|) && Whole(f, st.lastPos)
  }

  predicate Whole(f: Format, n: int) { n % f.FrameSize() == 0 }

  lemma WholeZero(f: Format)
    ensures Whole(f, 0)
  {
  }

  lemma MultipleMod(x: int, s: int, q: int)
    requires s > 0 && x == s * q
    ensures x % s == 0
  {
    DivUnique(x, s, q);
    assert x == s * (x / s) + x % s;
  }

  lemma Multiples(s: int, a: int, b: int)
    requires s > 0 && a % s == 0 && b % s == 0
    ensures (a + b) % s == 0 && (a - b) % s == 0
  {
    var p, q := a / s, b / s;
    assert a == s * p && b == s * q;
    MultipleMod(a + b, s, p + q);
    MultipleMod(a - b, s, p - q);
  }

  lemma WholeSum(f: Format, a: int, b: int)
    requires Whole(f, a) && Whole(f, b)
    ensures Whole(f, a + b) && Whole(f, a - b)
  {
    Multiples(f.FrameSize(), a, b);
  }

  lemma WholeAfter(f: Format, pos: nat, n: nat, len: nat)
    requires pos < len && Whole(f, pos) && Whole(f, n) && Whole(f, len)
    ensures Whole(f, After(pos, n, len))
    decreases n
  {
    if n == 0 {
    } else if pos + n < len {
      AfterInside(pos, n, len);
      WholeSum(f, pos, n);
    } else {
      WholeSum(f, len, pos);
      WholeSum(f, n, len - pos);
      AfterInside(pos, len - pos, len);
      AfterSplit(pos, len - pos, n - (len - pos), len);
      WholeAfter(f, 0, n - (len - pos), len);
    }
  }

  lemma AfterInside(pos: nat, n: nat, len: nat)
    requires pos < len && pos + n <= len
    ensures After(pos, n, len) == if pos + n == len then 0 else pos + n
    decreases n
  {
    if n > 1 { AfterInside(pos + 1, n - 1, len); }
  }

  lemma AfterSplit(pos: nat, n: nat, m: nat, len: nat)
    requires pos < len
    ensures After(After(pos, n, len), m, len) == After(pos, n + m, len)
    decreases n
  {
    if n > 0 { AfterSplit(Next(pos, len), n - 1, m, len); }
  }

  lemma ReadAligned(st: PlayerState, feed: Feed)
    requires Aligned(st) && FeedFits(st, feed)
    ensures Aligned(Read(st, feed).state)
  {
    hide Whole, Looped, After;
    var f, len, pos, data := st.source.format, |st.sample.bytes|, st.lastPos, |st.source.data|;
    assert Whole(f, 0) by { WholeZero(f); }
    WholeSum(f, st.capacity, data);
    WholeSum(f, len, pos);
    WholeSum(f, pos, len - pos);
    WholeSum(f, pos, st.Room());
    WholeSum(f, data, st.Room());
    WholeSum(f, data, len - pos);
    if pos < len && st.Room() > 0 { WholeAfter(f, pos, st.Room(), len); }
  }

  /** A player after a round of n output frames. */
  function Mixed(st: PlayerState, rate: int, n: nat): PlayerState
    requires st.source.rate > 0 && rate > 0
  {
    st.(source := st.source.(data := Leftover(st.source, rate, n)))
  }

  lemma WholeUsed(f: Format, frames: nat)
    ensures Whole(f, frames * f.FrameSize())
  {
    MultipleMod(frames * f.FrameSize(), f.FrameSize(), frames);
  }

  lemma MixedAligned(st: PlayerState, rate: int, n: nat)
    requires Aligned(st) && rate > 0
    ensures Aligned(Mixed(st, rate, n))
  {
    hide Whole, SourceFrame;
    var f, frames := st.source.format, SourceFrame(n, st.source.rate, rate);
    var used := frames * f.FrameSize();
    assert Whole(f, used) by { WholeUsed(f, frames); }
    WholeSum(f, |st.source.data|, used);
    WholeSum(f, |st.source.data|, |st.source.data|);
  }

  // ---- runs ----

  datatype Step = ReadStep(feed: Feed) | MixStep(n: nat)

  function Apply(st: PlayerState, step: Step, rate: int): PlayerState
    requires rate > 0
  {
    match step
    case ReadStep(feed) => if Aligned(st) && FeedFits(st, feed) then Read(st, feed).state else st
    case MixStep(n) => if Aligned(st) then Mixed(st, rate, n) else st
  }

  function Run(st: PlayerState, steps: seq<Step>, rate: int): PlayerState
    requires rate > 0
  {
    if |steps| == 0 then st
    else Apply(Run(st, steps[..|steps| - 1], rate), steps[|steps| - 1], rate)
  }

  /** Over every run the buffer stays within bounds and frame-aligned. */
  lemma {:induction false} RunAligned(st: PlayerState, steps: seq<Step>, rate: int)
    requires Aligned(st) && rate > 0
    ensures Aligned(Run(st, steps, rate))
  {
    if |steps| > 0 {
      RunAligned(st, steps[..|steps| - 1], rate);
      var prev := Run(st, steps[..|steps| - 1], rate);
      match steps[|steps| - 1]
      case ReadStep(feed) => if FeedFits(prev, feed) { ReadAligned(prev, feed); }
      case MixStep(n) => MixedAligned(prev, rate, n);
    }
  }

  // ---- streams ----

  /** Every outcome of reading a stream: closed exactly on an error or the end of
      the stream, kept exactly when the read fills the buffer. */
  lemma StreamReads(st: PlayerState, feed: Feed)
    requires st.source.format.mode == STREAM && st.lastPos <= |st.sample.bytes| && st.Room() >= 0 && FeedFits(st, feed)
    ensures var o := Read(st, feed);
            && (o.ret < 0 <==> st.Room() > 0 && (feed.Failed? || feed == Data([])))
            && (o.ret == 0 <==> st.Room() == 0 || feed == Idle)
            && (o.ret > 0 ==> feed.Data? && o.ret == |feed.bytes|)
            && o.state.source.data == (if st.Room() > 0 && feed.Data? && |feed.bytes| == st.Room()
                                       then st.source.data + feed.bytes else st.source.data)
            && o.state.lastPos == st.lastPos
  {
  }

  // ---- looping and stopping ----

  /** A looping sample with room left fills its buffer, byte k of the new data
      being byte (last_pos + k) mod length of the sample. */
  lemma LoopingRead(st: PlayerState, feed: Feed)
    requires st.source.format.mode == SAMPLE && st.source.format.func == LOOP
    requires st.sample.format.func != STOP
    requires st.lastPos < |st.sample.bytes| && st.Room() > 0
    ensures var o := Read(st, feed);
            && o.ret == st.Room() && |o.state.source.data| == st.capacity
            && o.state.source.data[..|st.source.data|] == st.source.data
            && forall k :: 0 <= k < st.Room() ==>
                 o.state.source.data[|st.source.data|..][k]
                 == st.sample.bytes[(st.lastPos + k) % |st.sample.bytes|]
  {
    var bytes, pos, room := st.sample.bytes, st.lastPos, st.Room();
    if |bytes| - pos >= room { LoopedSlice(bytes, pos, room); }
    assert Read(st, feed).state.source.data == st.source.data + Looped(bytes, pos, room);
    forall k | 0 <= k < room
      ensures Looped(bytes, pos, room)[k] == bytes[(pos + k) % |bytes|]
    {
      LoopedAt(bytes, pos, room, k);
    }
  }

  /** A player about to be read that is to go on looping. */
  predicate Loops(st: PlayerState) {
    && st.source.format.mode == SAMPLE && st.source.format.func == LOOP && st.sample.format.func != STOP
    && st.source.rate > 0 && st.lastPos < |st.sample.bytes| && st.Room() > 0
  }

  /** The sample's end meets the buffer's end: the position is not taken back. */
  predicate EndsMeet(st: PlayerState) { |st.sample.bytes| - st.lastPos == st.Room() }

  /** A round of n output frames takes nothing out of the buffer. */
  predicate NothingUsed(st: PlayerState, rate: int, n: nat)
    requires st.source.rate > 0 && rate > 0
  {
    SourceFrame(n, st.source.rate, rate) == 0
  }

  /** What a looping read leaves behind: a full buffer, and the sample's very end
      as position exactly when the ends met. */
  lemma AfterLoopingRead(st: PlayerState, feed: Feed)
    requires Loops(st)
    ensures var r := Read(st, feed).state;
            && Read(st, feed).ret == st.Room() && r.Room() == 0
            && r == st.Append(Looped(st.sample.bytes, st.lastPos, st.Room()), r.lastPos)
            && r.lastPos == if EndsMeet(st) then |st.sample.bytes| else After(st.lastPos, st.Room(), |st.sample.bytes|)
  {
    if |st.sample.bytes| - st.lastPos >= st.Room() { LoopedSlice(st.sample.bytes, st.lastPos, st.Room()); }
  }

  /** A full buffer or a position at the sample's end: the next read closes a
      sample player, and otherwise it does not. */
  lemma ClosesIff(st: PlayerState, feed: Feed)
    requires st.source.format.mode == SAMPLE && st.sample.format.func != STOP
    requires st.lastPos <= |st.sample.bytes| && st.Room() >= 0
    ensures Read(st, feed).ret < 0 <==> st.lastPos == |st.sample.bytes| || st.Room() == 0
    ensures Read(st, feed).ret < 0 ==> Read(st, feed) == Outcome(-1, st)
  {
    hide Looped, After;
  }

  /** How much room a round makes in a full buffer. */
  lemma RoomAfterMixing(st: PlayerState, rate: int, n: nat)
    requires st.source.rate > 0 && rate > 0 && st.Room() == 0 && st.capacity > 0
    ensures Mixed(st, rate, n).Room() >= 0
    ensures Mixed(st, rate, n).Room() == 0 <==> NothingUsed(st, rate, n)
  {
    hide SourceFrame;
    var frames, size := SourceFrame(n, st.source.rate, rate), st.source.format.FrameSize();
    if frames > 0 { MulMono(size, 1, frames); }
    assert frames == 0 ==> st.source.data[0..] == st.source.data;
  }

  /** A looping player is closed by the read after a round of n frames exactly
      when the sample's end met the buffer's end or the round used nothing. */
  lemma LoopDiesIff(st: PlayerState, feed: Feed, later: Feed, rate: int, n: nat)
    requires Loops(st) && rate > 0
    ensures var next := Mixed(Read(st, feed).state, rate, n);
            && next.lastPos <= |next.sample.bytes| && next.Room() >= 0
            && (Read(next, later).ret == -1 <==> EndsMeet(st) || NothingUsed(st, rate, n))
            && (Read(next, later).ret != -1 <==> Loops(next))
  {
    hide Read, SourceFrame, Leftover, Looped, After;
    AfterLoopingRead(st, feed);
    var r := Read(st, feed).state;
    RoomAfterMixing(r, rate, n);
    ClosesIff(Mixed(r, rate, n), later);
    NegativeIsMinusOne(Mixed(r, rate, n), later);
  }

  lemma NegativeIsMinusOne(st: PlayerState, feed: Feed)
    requires st.lastPos <= |st.sample.bytes| && st.Room() >= 0
    ensures Read(st, feed).ret < 0 <==> Read(st, feed).ret == -1
  {
  }

  // ---- whole lives of looping players ----

  /** The player after rounds of the given lengths, each preceded by its read. */
  function LoopRun(st: PlayerState, rounds: seq<nat>, rate: int): PlayerState
    requires st.source.rate > 0 && rate > 0
  {
    if |rounds| == 0 then st
    else
      var prev := LoopRun(st, rounds[..|rounds| - 1], rate);
      if prev.lastPos <= |prev.sample.bytes| && prev.Room() >= 0 && prev.source.rate > 0
      then Mixed(Read(prev, Idle).state, rate, rounds[|rounds| - 1])
      else prev
  }

  /** They are runs like any other: a read and a mix a round. */
  lemma RoundIsReadAndMix(st: PlayerState, rounds: seq<nat>, n: nat, rate: int)
    requires st.source.rate > 0 && rate > 0 && Aligned(LoopRun(st, rounds, rate))
    ensures LoopRun(st, rounds + [n], rate)
         == Apply(Apply(LoopRun(st, rounds, rate), ReadStep(Idle), rate), MixStep(n), rate)
  {
    hide Read, Aligned;
    assert (rounds + [n])[..|rounds|] == rounds;
    ReadAligned(LoopRun(st, rounds, rate), Idle);
    WithinBounds(LoopRun(st, rounds, rate));
  }

  lemma WithinBounds(st: PlayerState)
    requires Aligned(st)
    ensures st.lastPos <= |st.sample.bytes| && st.Room() >= 0 && st.source.rate > 0
  {
  }

  /** All that was put into the player's buffer during those rounds. */
  function LoopOutput(st: PlayerState, rounds: seq<nat>, rate: int): seq<byte>
    requires st.source.rate > 0 && rate > 0
  {
    if |rounds| == 0 then []
    else
      var prev := LoopRun(st, rounds[..|rounds| - 1], rate);
      LoopOutput(st, rounds[..|rounds| - 1], rate)
      + if prev.lastPos <= |prev.sample.bytes| && prev.Room() >= 0
        then Read(prev, Idle).state.source.data[|prev.source.data|..] else []
  }

  /** Neither cause of a loop's end came up in any of the rounds. */
  predicate Lucky(st: PlayerState, rounds: seq<nat>, rate: int)
    requires st.source.rate > 0 && rate > 0
  {
    forall i :: 0 <= i < |rounds| ==>
      var prev := LoopRun(st, rounds[..i], rate);
      !EndsMeet(prev) && SourceFrame(rounds[i], st.source.rate, rate) != 0
  }

  lemma LuckyPrefix(st: PlayerState, rounds: seq<nat>, rate: int)
    requires st.source.rate > 0 && rate > 0 && |rounds| > 0
    ensures var n := |rounds| - 1;
            Lucky(st, rounds, rate) <==>
              Lucky(st, rounds[..n], rate) && !EndsMeet(LoopRun(st, rounds[..n], rate))
              && SourceFrame(rounds[n], st.source.rate, rate) != 0
  {
    hide LoopRun, EndsMeet, SourceFrame;
    var n := |rounds| - 1;
    assert forall i :: 0 <= i < n ==> rounds[..n][..i] == rounds[..i] && rounds[..n][i] == rounds[i];
  }

  /** Over any number of rounds: a looping player is still looping exactly when
      no round met either cause, and then everything put into its buffer is one
      unbroken run of the repeated sound. */
  lemma {:induction false} LoopLasts(st: PlayerState, rounds: seq<nat>, rate: int)
    requires Loops(st) && rate > 0
    ensures Lucky(st, rounds, rate) <==> forall i :: 0 <= i <= |rounds| ==> Loops(LoopRun(st, rounds[..i], rate))
    ensures Lucky(st, rounds, rate) ==>
              var r, out := LoopRun(st, rounds, rate), LoopOutput(st, rounds, rate);
              && Loops(r) && r.sample == st.sample && r.source.rate == st.source.rate
              && out == Looped(st.sample.bytes, st.lastPos, |out|)
              && r.lastPos == After(st.lastPos, |out|, |st.sample.bytes|)
  {
    hide Looped, After, Read, Mixed, EndsMeet, SourceFrame, LoopRun, LoopOutput;
    if |rounds| == 0 {
      LoopStart(st, rate);
      assert rounds[..0] == [] == rounds;
    } else {
      var n := |rounds| - 1;
      LoopLasts(st, rounds[..n], rate);
      LuckyPrefix(st, rounds, rate);
      assert rounds[..n + 1] == rounds;
      assert forall i :: 0 <= i <= n ==> rounds[..n][..i] == rounds[..i];
      if Lucky(st, rounds[..n], rate) { LoopStep(st, rounds, rate); }
    }
  }

  lemma LoopStart(st: PlayerState, rate: int)
    requires Loops(st) && rate > 0
    ensures LoopRun(st, [], rate) == st && LoopOutput(st, [], rate) == []
    ensures Looped(st.sample.bytes, st.lastPos, 0) == [] && After(st.lastPos, 0, |st.sample.bytes|) == st.lastPos
  {
  }

  lemma LoopStep(st: PlayerState, rounds: seq<nat>, rate: int)
    requires st.source.rate > 0 && rate > 0 && |rounds| > 0 && st.lastPos < |st.sample.bytes|
    requires var prev, out := LoopRun(st, rounds[..|rounds| - 1], rate), LoopOutput(st, rounds[..|rounds| - 1], rate);
             && Loops(prev) && prev.sample == st.sample && prev.source.rate == st.source.rate
             && out == Looped(st.sample.bytes, st.lastPos, |out|)
             && prev.lastPos == After(st.lastPos, |out|, |st.sample.bytes|)
    ensures var prev, r := LoopRun(st, rounds[..|rounds| - 1], rate), LoopRun(st, rounds, rate);
            && (Loops(r) <==> !EndsMeet(prev) && SourceFrame(rounds[|rounds| - 1], st.source.rate, rate) != 0)
            && r.sample == st.sample && r.source.rate == st.source.rate
            && (!EndsMeet(prev) ==>
                  var out := LoopOutput(st, rounds, rate);
                  out == Looped(st.sample.bytes, st.lastPos, |out|)
                  && r.lastPos == After(st.lastPos, |out|, |st.sample.bytes|))
  {
    hide Looped, After, Read, SourceFrame, Mixed, LoopRun, LoopOutput, EndsMeet;
    var n := |rounds| - 1;
    var prev, out := LoopRun(st, rounds[..n], rate), LoopOutput(st, rounds[..n], rate);
    LoopUnfolds(st, rounds, rate);
    LoopDiesIff(prev, Idle, Idle, rate, rounds[n]);
    NegativeIsMinusOne(LoopRun(st, rounds, rate), Idle);
    LoopedAppend(st.sample.bytes, st.lastPos, |out|, prev.Room());
  }

  /** One more round of a player that loops. */
  lemma LoopUnfolds(st: PlayerState, rounds: seq<nat>, rate: int)
    requires st.source.rate > 0 && rate > 0 && |rounds| > 0 && Loops(LoopRun(st, rounds[..|rounds| - 1], rate))
    ensures var n := |rounds| - 1;
            var prev, r := LoopRun(st, rounds[..n], rate), LoopRun(st, rounds, rate);
            && r == Mixed(Read(prev, Idle).state, rate, rounds[n])
            && LoopOutput(st, rounds, rate)
               == LoopOutput(st, rounds[..n], rate) + Looped(prev.sample.bytes, prev.lastPos, prev.Room())
            && r.sample == prev.sample && r.source.rate == prev.source.rate
            && (!EndsMeet(prev) ==> r.lastPos == After(prev.lastPos, prev.Room(), |prev.sample.bytes|))
  {
    hide Looped, After, Read, Leftover;
    var prev := LoopRun(st, rounds[..|rounds| - 1], rate);
    AfterLoopingRead(prev, Idle);
    var more := Looped(prev.sample.bytes, prev.lastPos, prev.Room());
    assert (prev.source.data + more)[|prev.source.data|..] == more;
  }

  // ---- sounds played once, and sounds stopped in mid-loop ----

  /** A player that does not loop takes the next stretch of its sound, as much as
      there is and as fits. */
  lemma OnceReads(st: PlayerState, feed: Feed)
    requires st.source.format.mode == SAMPLE && st.source.format.func != LOOP && st.sample.format.func != STOP
    requires st.lastPos <= |st.sample.bytes| && st.Room() >= 0
    ensures var r := Read(st, feed).state;
            && st.lastPos <= r.lastPos <= |st.sample.bytes| && r.Room() >= 0
            && r == st.Append(st.sample.bytes[st.lastPos..r.lastPos], r.lastPos)
            && (r.lastPos == |st.sample.bytes| || r.Room() == 0)
  {
    assert st.sample.bytes[st.lastPos..st.lastPos] == [] && st.source.data + [] == st.source.data;
  }

  /** Over any number of rounds, what it puts into its buffer is its sound from
      where it started to where it is. */
  lemma {:induction false} OnceLasts(st: PlayerState, rounds: seq<nat>, rate: int)
    requires st.source.format.mode == SAMPLE && st.source.format.func != LOOP && st.sample.format.func != STOP
    requires st.source.rate > 0 && rate > 0 && st.lastPos <= |st.sample.bytes| && st.Room() >= 0
    ensures var r := LoopRun(st, rounds, rate);
            && r.sample == st.sample && r.source.format == st.source.format && r.source.rate == st.source.rate
            && st.lastPos <= r.lastPos <= |st.sample.bytes| && r.Room() >= 0
            && LoopOutput(st, rounds, rate) == st.sample.bytes[st.lastPos..r.lastPos]
  {
    hide Read, SourceFrame, Leftover;
    if |rounds| > 0 {
      var n := |rounds| - 1;
      var prev := LoopRun(st, rounds[..n], rate);
      OnceLasts(st, rounds[..n], rate);
      OnceReads(prev, Idle);
      var r := Read(prev, Idle).state;
      Stretches(prev.source.data, st.sample.bytes, st.lastPos, prev.lastPos, r.lastPos);
      LeftoverFits(r.source, rate, rounds[n]);
    }
  }

  lemma Stretches(data: seq<byte>, bytes: seq<byte>, a: nat, b: nat, c: nat)
    requires a <= b <= c <= |bytes|
    ensures (data + bytes[b..c])[|data|..] == bytes[b..c] && bytes[a..b] + bytes[b..c] == bytes[a..c]
  {
  }

  lemma LeftoverFits(s: Source, rate: int, n: nat)
    requires s.rate > 0 && rate > 0
    ensures |Leftover(s, rate, n)| <= |s.data|
  {
  }

  /** A looping player whose sample has been set to stop plays on to the sample's
      end, and is closed by the read after that. */
  lemma StopFlagEnds(st: PlayerState, feed: Feed, later: Feed, rate: int, n: nat)
    requires st.source.format.mode == SAMPLE && st.source.format.func == LOOP && st.sample.format.func == STOP
    requires st.source.rate > 0 && rate > 0 && 0 < st.lastPos < |st.sample.bytes|
    requires st.Room() > |st.sample.bytes| - st.lastPos
    ensures var r := Read(st, feed).state;
            && r == st.Append(st.sample.bytes[st.lastPos..], 0)
            && Mixed(r, rate, n).Room() >= 0 && Read(Mixed(r, rate, n), later).ret == -1
  {
    hide Looped, After, SourceFrame;
  }

  lemma AtEndCloses(st: PlayerState, feed: Feed)
    requires st.source.format.mode == SAMPLE && st.lastPos == |st.sample.bytes| && st.Room() >= 0
    ensures Read(st, feed) == Outcome(-1, st)
  {
  }

  /** `stop_sample` takes the loop setting off a player. */
  function Stopped(st: PlayerState): PlayerState {
    st.(source := st.source.(format := st.source.format.(func := STOP)))
  }

  /** Bytes a run appends to the player's buffer. */
  function Appended(st: PlayerState, steps: seq<Step>, rate: int): nat
    requires rate > 0
  {
    if |steps| == 0 then 0
    else
      var prev, last := Run(st, steps[..|steps| - 1], rate), steps[|steps| - 1];
      Appended(st, steps[..|steps| - 1], rate)
      + if last.ReadStep? && |Apply(prev, last, rate).source.data| > |prev.source.data|
        then |Apply(prev, last, rate).source.data| - |prev.source.data| else 0
  }

  /** Once stopped, a sample player appends at most the rest of the sample over
      the rest of its life, whatever is read and mixed. */
  lemma {:induction false} StoppedAppends(st: PlayerState, steps: seq<Step>, rate: int)
    requires Aligned(st) && st.source.format.mode == SAMPLE && rate > 0
    ensures var r := Run(Stopped(st), steps, rate);
            && Aligned(r) && r.source.format == Stopped(st).source.format && r.sample == st.sample
            && Appended(Stopped(st), steps, rate) == r.lastPos - st.lastPos
    ensures Appended(Stopped(st), steps, rate) <= |st.sample.bytes| - st.lastPos
  {
    if |steps| > 0 {
      StoppedAppends(st, steps[..|steps| - 1], rate);
      var prev := Run(Stopped(st), steps[..|steps| - 1], rate);
      match steps[|steps| - 1]
      case ReadStep(feed) => if FeedFits(prev, feed) { ReadAligned(prev, feed); }
      case MixStep(n) => MixedAligned(prev, rate, n);
    }
  }
}
