/** Filling a player's buffer from its client or its sample (players.c:283-425). */
module PlayerReads {
  import opened CTypes
  import opened Formats
  import opened Players

  /** What the client's socket offers: nothing to read, a failed read (with or
      without EAGAIN/EINTR), or some bytes, none meaning end of stream. */
  datatype Feed = Idle | Failed(again: bool) | Data(bytes: seq<byte>)

  datatype Outcome = Outcome(ret: int, state: PlayerState)

  /** The position after pos in a sound that starts over at its end. */
  function Next(pos: nat, len: nat): (r: nat)
    requires pos < len
    ensures r < len
  {
    if pos + 1 == len then 0 else pos + 1
  }

  function After(pos: nat, n: nat, len: nat): (r: nat)
    requires pos < len
    ensures r < len
    decreases n
  {
    if n == 0 then pos else After(Next(pos, len), n - 1, len)
  }

  /** n bytes of a sound played over and over, from position pos. */
  function Looped(bytes: seq<byte>, pos: nat, n: nat): (r: seq<byte>)
    requires pos < |bytes|
    ensures |r| == n
    decreases n
  {
    if n == 0 then [] else [bytes[pos]] + Looped(bytes, Next(pos, |bytes|), n - 1)
  }

  predicate FeedFits(st: PlayerState, feed: Feed) { feed.Data? ==> |feed.bytes| <= st.Room() || st.Room() <= 0 }

  /** Streams: a read that does not fill the buffer is reported but not kept. */
  function ReadStream(st: PlayerState, feed: Feed): Outcome {
    if st.Room() <= 0 || feed.Idle? then Outcome(0, st)
    else if feed.Failed? || |feed.bytes| == 0 then Outcome(-1, st)
    else if |feed.bytes| < st.Room() then Outcome(|feed.bytes|, st)
    else Outcome(|feed.bytes|, st.Append(feed.bytes, st.lastPos))
  }

  /** Samples, for a read position inside the sample and a buffer that is not overfull. */
  function ReadSample(st: PlayerState): Outcome
    requires st.lastPos <= |st.sample.bytes| && st.Room() >= 0
  {
    var bytes, pos := st.sample.bytes, st.lastPos;
    var stopped := st.sample.format.func == STOP;
    var first := Min(|bytes| - pos, st.Room());
    if pos == 0 && stopped then Outcome(-1, st)
    else if first == 0 then Outcome(-1, st)
    else if first == st.Room() || st.source.format.func != LOOP then
      Outcome(first, st.Append(bytes[pos..pos + first], pos + first))
    else if stopped then Outcome(first, st.Append(bytes[pos..], 0))
    else Outcome(st.Room(), st.Append(Looped(bytes, pos, st.Room()), After(pos, st.Room(), |bytes|)))
  }

  function Read(st: PlayerState, feed: Feed): Outcome
    requires st.lastPos <= |st.sample.bytes| && st.Room() >= 0
  {
    if st.source.format.mode == STREAM then ReadStream(st, feed)
    else if st.source.format.mode == SAMPLE then ReadSample(st)
    else Outcome(-1, st)
  }

  /** `memcpy( dst + at, src, length )` */
  method Copy(dst: array<byte>, at: nat, src: seq<byte>)
    requires at + |src| <= dst.Length
    modifies dst
    ensures dst[..at] == old(dst[..at])
    ensures dst[at..at + |src|] == src
    ensures dst[..at + |src|] == old(dst[..at]) + src
  {
    forall i | 0 <= i < |src| { dst[at + i] := src[i]; }
  }

  /** A run inside the sound is a slice of it. */
  lemma LoopedSlice(bytes: seq<byte>, at: nat, m: nat)
    requires at < |bytes| && at + m <= |bytes|
    ensures Looped(bytes, at, m) == bytes[at..at + m]
    ensures After(at, m, |bytes|) == if at + m == |bytes| then 0 else at + m
    decreases m
  {
    if m > 1 { LoopedSlice(bytes, at + 1, m - 1); }
  }

  lemma LoopedAppend(bytes: seq<byte>, pos: nat, n: nat, m: nat)
    requires pos < |bytes|
    ensures Looped(bytes, pos, n) + Looped(bytes, After(pos, n, |bytes|), m) == Looped(bytes, pos, n + m)
    ensures After(After(pos, n, |bytes|), m, |bytes|) == After(pos, n + m, |bytes|)
    decreases n
  {
    if n > 0 { LoopedAppend(bytes, Next(pos, |bytes|), n - 1, m); }
  }

  lemma {:induction false} AfterIsMod(pos: nat, n: nat, len: nat)
    requires pos < len
    ensures After(pos, n, len) == (pos + n) % len
    decreases n
  {
    if n == 0 {
      DivUnique(pos, len, 0);
    } else {
      AfterIsMod(Next(pos, len), n - 1, len);
      NextIsMod(pos, len);
      ModShift(pos + 1, Next(pos, len), n - 1, len);
    }
  }

  lemma NextIsMod(pos: nat, len: nat)
    requires pos < len
    ensures (pos + 1) % len == Next(pos, len) % len
  {
    if pos + 1 == len { DivUnique(len, len, 1); }
  }

  lemma {:induction false} LoopedAfter(bytes: seq<byte>, pos: nat, n: nat, k: nat)
    requires pos < |bytes| && k < n
    ensures Looped(bytes, pos, n)[k] == bytes[After(pos, k, |bytes|)]
    decreases n
  {
    if k > 0 { LoopedAfter(bytes, Next(pos, |bytes|), n - 1, k - 1); }
  }

  /** The k-th byte of a looped run is the sound's byte (pos + k) mod its length. */
  lemma LoopedAt(bytes: seq<byte>, pos: nat, n: nat, k: nat)
    requires pos < |bytes| && k < n
    ensures Looped(bytes, pos, n)[k] == bytes[(pos + k) % |bytes|]
  {
    LoopedAfter(bytes, pos, n, k);
    AfterIsMod(pos, k, |bytes|);
  }

  lemma ModShift(a: nat, b: nat, k: nat, d: nat)
    requires d > 0 && a % d == b % d
    ensures (a + k) % d == (b + k) % d
  {
    if k > 0 {
      ModShift(a, b, k - 1, d);
      ModStep(a + k - 1, d);
      ModStep(b + k - 1, d);
    }
  }

  lemma ModStep(x: nat, d: nat)
    requires d > 0
    ensures (x + 1) % d == if x % d + 1 == d then 0 else x % d + 1
  {
    var q := x / d;
    assert x == d * q + x % d;
    if x % d + 1 == d {
      assert x + 1 == d * (q + 1);
      DivUnique(x + 1, d, q + 1);
    } else {
      DivUnique(x + 1, d, q);
    }
  }

  method ReadPlayer(p: Player, feed: Feed) returns (r: int)
    requires p.Valid() && p.lastPos <= |p.sample.bytes| && FeedFits(p.State(), feed)
    modifies p`actual, p`lastPos, p.data
    ensures p.Valid() && p.lastPos <= |p.sample.bytes|
    ensures Outcome(r, p.State()) == Read(old(p.State()), feed)
  {
    if p.format.mode == STREAM {
      r := ReadStreamInto(p, feed);
    } else if p.format.mode == SAMPLE {
      r := ReadSampleInto(p);
    } else {
      r := -1;
    }
  }

  method ReadStreamInto(p: Player, feed: Feed) returns (r: int)
    requires p.Valid() && FeedFits(p.State(), feed)
    modifies p`actual, p.data
    ensures p.Valid()
    ensures Outcome(r, p.State()) == ReadStream(old(p.State()), feed)
  {
    r := 0;
    var canRead := p.actual < p.data.Length && !feed.Idle?;
    if canRead {
      r := -1;
      if feed.Data? {
        Copy(p.data, p.actual, feed.bytes);
        r := |feed.bytes|;
      }
      if r == 0 || feed == Failed(false) { return -1; }
      if r < p.data.Length - p.actual { return; }
      p.actual := p.actual + r;
    }
  }

  /** Copy the next n bytes of the sample behind the player's data. */
  method TakeChunk(p: Player, n: nat)
    requires p.Valid() && p.lastPos + n <= |p.sample.bytes| && p.actual + n <= p.data.Length
    modifies p`actual, p`lastPos, p.data
    ensures p.Valid() && p.lastPos == old(p.lastPos) + n && p.actual == old(p.actual) + n
    ensures p.data[..p.actual] == old(p.data[..p.actual]) + p.sample.bytes[old(p.lastPos)..p.lastPos]
  {
    Copy(p.data, p.actual, p.sample.bytes[p.lastPos..p.lastPos + n]);
    p.lastPos, p.actual := p.lastPos + n, p.actual + n;
  }

  method ReadSampleInto(p: Player) returns (r: int)
    requires p.Valid() && p.lastPos <= |p.sample.bytes|
    modifies p`actual, p`lastPos, p.data
    ensures p.Valid() && p.lastPos <= |p.sample.bytes|
    ensures Outcome(r, p.State()) == ReadSample(old(p.State()))
  {
    hide Looped, After;
    var bytes := p.sample.bytes;
    ghost var before, pos, room := p.data[..p.actual], p.lastPos, p.data.Length - p.actual;
    if p.lastPos == 0 && p.sample.format.func == STOP { return -1; }
    r := if |bytes| - p.lastPos > p.data.Length - p.actual then p.data.Length - p.actual else |bytes| - p.lastPos;
    if r <= 0 { return -1; }
    TakeChunk(p, r);
    if p.actual == p.data.Length || p.format.func != LOOP { return; }
    assert bytes[pos..pos + r] == bytes[pos..];
    LoopedSlice(bytes, pos, r);
    r := KeepLooping(p, r, before, pos);
  }

  /** The bytes gathered so far: r of them, looping from pos, after `before`. */
  ghost predicate Filled(p: Player, before: seq<byte>, pos: nat, r: nat)
    reads p, p.data
    requires pos < |p.sample.bytes|
  {
    && p.Valid() && p.actual == |before| + r
    && p.data[..p.actual] == before + Looped(p.sample.bytes, pos, r)
  }

  /** The read position, where the sample's end and its start are the same place. */
  ghost predicate At(p: Player, pos: nat, r: nat)
    reads p
    requires pos < |p.sample.bytes|
  {
    && p.lastPos <= |p.sample.bytes|
    && After(pos, r, |p.sample.bytes|) == if p.lastPos == |p.sample.bytes| then 0 else p.lastPos
  }

  /** Copy on to the end of the sample or of the buffer, whichever comes first.
      There is always something to copy: the source's test for it never fails. */
  method Stretch(p: Player, ghost before: seq<byte>, ghost pos: nat, ghost r: nat) returns (m: nat)
    requires pos < |p.sample.bytes| && Filled(p, before, pos, r) && At(p, pos, r)
    requires p.lastPos < |p.sample.bytes| && p.actual < p.data.Length
    modifies p`actual, p`lastPos, p.data
    ensures m > 0 && Filled(p, before, pos, r + m) && At(p, pos, r + m)
  {
    hide Looped, After;
    var bytes := p.sample.bytes;
    m := if |bytes| - p.lastPos > p.data.Length - p.actual then p.data.Length - p.actual else |bytes| - p.lastPos;
    LoopedSlice(bytes, p.lastPos, m);
    LoopedAppend(bytes, pos, r, m);
    TakeChunk(p, m);
  }

  /** Keep copying the sample until the buffer is full (players.c:380-413). */
  method KeepLooping(p: Player, first: nat, ghost before: seq<byte>, ghost pos: nat) returns (r: nat)
    requires pos < |p.sample.bytes| && first == |p.sample.bytes| - pos && p.lastPos == |p.sample.bytes|
    requires Filled(p, before, pos, first) && At(p, pos, first) && p.actual < p.data.Length
    modifies p`actual, p`lastPos, p.data
    ensures Filled(p, before, pos, r) && At(p, pos, r)
    ensures p.lastPos < |p.sample.bytes|
    ensures if p.sample.format.func == STOP then r == first && p.lastPos == 0 else p.actual == p.data.Length
  {
    hide Looped, After;
    r := first;
    var bytes := p.sample.bytes;
    while p.actual < p.data.Length
      invariant Filled(p, before, pos, r) && At(p, pos, r)
      invariant p.actual == p.data.Length ==> p.lastPos < |bytes|
      invariant p.sample.format.func == STOP ==> r == first && p.lastPos == |bytes| && p.actual < p.data.Length
      decreases p.data.Length - p.actual
    {
      if p.lastPos >= |bytes| {
        p.lastPos := 0;
        if p.sample.format.func == STOP { break; }
      }
      var m := Stretch(p, before, pos, r);
      r := r + m;
      if p.lastPos >= |bytes| {
        p.lastPos := 0;
        if p.sample.format.func == STOP { break; }
      }
    }
  }
}
