/** How large a player's buffer is made, and why that is enough on both sides:
    for the mixer's arithmetic and for translating the server's buffer to a client. */
module BufferSizing {
  import opened CTypes
  import opened Formats
  import opened MixSpec
  import opened Players
  import opened RoundSpec
  import opened PlayerRuns
  import opened MixLoops
  import opened MixRound
  import opened Translate
  import opened Rounds

  /** The sizing product fits in an int, and the server's buffer is whole frames. */
  predicate Reasonable(octets: nat, from: int, rate: int) {
    octets > 0 && octets % 4 == 0 && from > 0 && rate > 0 && octets * from < 0x8000_0000
  }

  /** 16-bit stereo bytes to bytes of format f, rounded down to a multiple of 4. */
  function Fitted(f: Format, n: nat): nat {
    var n := if f.Is8() then n / 2 else n;
    var n := if f.IsMono() then n / 2 else n;
    n - n % 4
  }

  /** `buffer_length` in new_stream_player and new_sample_player (players.c:561-569):
      the mix buffer's duration at the player's rate and format. */
  function BufferLength(f: Format, octets: nat, from: int, rate: int): nat
    requires Reasonable(octets, from, rate)
  {
    Fitted(f, octets * from / rate)
  }

  /** Rounding n down to a multiple of 4 and counting frames of s bytes. */
  lemma RoundedFrames(n: nat, s: int)
    requires s == 1 || s == 2 || s == 4
    ensures var m := n - n % 4; m / s * s == m <= n
  {
    var q := n / 4;
    var m := n - n % 4;
    assert m == 4 * q;
    DivUnique(m, s, if s == 1 then 4 * q else if s == 2 then 2 * q else q);
  }

  lemma FittedFrames(f: Format, x: nat)
    requires f.Mixable()
    ensures 4 * Frames(f, Fitted(f, x)) <= x
    ensures Fitted(f, x) == Frames(f, Fitted(f, x)) * f.FrameSize()
  {
    if f.Is8() {
      if f.IsMono() { RoundedFrames(x / 2 / 2, 1); } else { RoundedFrames(x / 2, 2); }
    } else {
      if f.IsMono() { RoundedFrames(x / 2, 2); } else { RoundedFrames(x, 4); }
    }
  }

  lemma ScaleBound(n: nat, octets: nat, from: int, rate: int)
    requires from > 0 && rate > 0 && 4 * n <= octets * from / rate
    ensures 4 * (n * rate) <= octets * from
  {
    var y := octets * from;
    var x := y / rate;
    MulMono(rate, 4 * n, x);
    assert y == rate * x + y % rate;
    assert rate * (4 * n) == 4 * (n * rate);
  }

  /** The buffer holds no more frames than the server's buffer lasts. */
  lemma FramesBound(f: Format, octets: nat, from: int, rate: int)
    requires Reasonable(octets, from, rate) && f.Mixable()
    ensures var n := Frames(f, BufferLength(f, octets, from, rate));
            && BufferLength(f, octets, from, rate) == n * f.FrameSize()
            && 4 * (n * rate) <= octets * from
  {
    hide Fitted, Frames;
    FittedFrames(f, octets * from / rate);
    ScaleBound(Frames(f, BufferLength(f, octets, from, rate)), octets, from, rate);
  }

  /** And at most four frames less than that: it is as large as rounding allows. */
  lemma FramesLower(f: Format, octets: nat, from: int, rate: int)
    requires Reasonable(octets, from, rate) && f.Mixable()
    ensures octets * from < 4 * (Frames(f, BufferLength(f, octets, from, rate)) + 4) * rate
  {
    hide Fitted, Frames;
    var x, n := octets * from / rate, Frames(f, BufferLength(f, octets, from, rate));
    FittedLower(f, x);
    assert octets * from == rate * x + octets * from % rate;
    MulMono(rate, x + 1, 4 * (n + 4));
  }

  lemma FittedLower(f: Format, x: nat)
    requires f.Mixable()
    ensures x < 4 * (Frames(f, Fitted(f, x)) + 4)
  {
    if f.Is8() {
      if f.IsMono() { RoundedFrames(x / 2 / 2, 1); } else { RoundedFrames(x / 2, 2); }
    } else {
      if f.IsMono() { RoundedFrames(x / 2, 2); } else { RoundedFrames(x, 4); }
    }
  }

  /** A buffer sized this way never makes the server-to-client translation read
      past the server's buffer, and its index products never wrap. */
  lemma NeverReadsPast(d: Format, f: Format, server: seq<byte>, from: int, rate: int)
    requires Reasonable(|server|, from, rate) && d.Mixable()
    ensures var length := BufferLength(d, |server|, from, rate);
            var n := Frames(d, length);
            && length == n * Channels(d.IsMono()) * Width(d.Is8())
            && Feeds(SourceOf(f), server, rate, from, n)
            && ProductsFit(n * Channels(d.IsMono()), rate)
  {
    hide BufferLength, SourceFrame, SourceOf;
    var octets := |server|;
    var n := Frames(d, BufferLength(d, octets, from, rate));
    FramesBound(d, octets, from, rate);
    ServerFrames(SourceOf(f), octets);
    QuarterBound(n, octets, from, rate);
    if n > 0 { LastFrame(n, octets / 4, from, rate); }
    TwiceFits(n, d.IsMono(), octets, from, rate);
  }

  lemma ServerFrames(s: SourceKind, octets: nat)
    requires octets % 4 == 0
    ensures Frames(KindFormat(s), octets) >= octets / 4
  {
  }

  lemma QuarterBound(n: nat, octets: nat, from: int, rate: int)
    requires octets % 4 == 0 && 4 * (n * rate) <= octets * from
    ensures n * rate <= (octets / 4) * from
  {
    assert octets * from == 4 * ((octets / 4) * from);
  }

  lemma TwiceFits(n: nat, mono: bool, octets: nat, from: int, rate: int)
    requires Reasonable(octets, from, rate) && 4 * (n * rate) <= octets * from
    ensures ProductsFit(n * Channels(mono), rate)
  {
    assert n * 2 * rate == 2 * (n * rate);
    assert n * 1 * rate == n * rate;
  }

  lemma LastFrame(n: nat, m: nat, from: int, rate: int)
    requires n > 0 && from > 0 && rate > 0 && n * rate <= m * from
    ensures SourceFrame(n - 1, rate, from) < m
  {
    assert (n - 1) * rate == n * rate - rate;
    var y := (n - 1) * rate;
    var q := y / from;
    assert from * q <= y;
    if q >= m { MulMono(from, m, q); }
  }

  /** A player sized this way meets every arithmetic condition of a mixing round
      that fills the server's buffer. */
  lemma SizedForMixing(st: PlayerState, octets: nat, rate: int)
    requires Reasonable(octets, st.source.rate, rate) && st.source.format.Mixable()
    requires st.capacity == BufferLength(st.source.format, octets, st.source.rate, rate)
    ensures Sized(st, rate) && IndexFits(octets / 4, st.source.rate)
    ensures Whole(st.source.format, st.capacity)
  {
    hide BufferLength, Stretched;
    var from, n := st.source.rate, Frames(st.source.format, st.capacity);
    FramesBound(st.source.format, octets, from, rate);
    QuarterBound(n, octets, from, rate);
    StretchBack(n, octets / 4, from, rate);
    ProductBounds(n, octets, from, rate);
    WholeUsed(st.source.format, n);
  }

  /** n output frames are taken from inside a player's buffer, valid or not. */
  predicate StaysInside(f: Format, octets: nat, from: int, rate: int, n: nat)
    requires Reasonable(octets, from, rate)
  {
    n > 0 ==> SourceFrame(n - 1, from, rate) < Frames(f, BufferLength(f, octets, from, rate))
  }

  /** Even a round that is too long for a player's data stays inside its buffer
      exactly up to what the whole buffer stretches to. */
  lemma InsideIff(f: Format, octets: nat, from: int, rate: int, n: nat)
    requires Reasonable(octets, from, rate)
    ensures StaysInside(f, octets, from, rate, n)
       <==> n <= Stretched(Frames(f, BufferLength(f, octets, from, rate)), from, rate)
  {
    hide BufferLength;
    var whole: seq<byte> := seq(BufferLength(f, octets, from, rate), _ => 0);
    CoversIff(Source(f, from, 0, 0, whole), rate, n);
  }

  /** The sizing rounds down, so a full round can be more than that: 8-bit mono at
      8000 Hz gets 184 bytes, and the last of 1024 frames is the one numbered 185. */
  lemma SizeRoundsDown()
    ensures var f := Format(BITS8, MONO, STREAM, PLAY);
            && Reasonable(4096, 8000, 44100) && BufferLength(f, 4096, 8000, 44100) == 184
            && SourceFrame(1023, 8000, 44100) == 185 && !StaysInside(f, 4096, 8000, 44100, 1024)
  {
    DivUnique(4096 * 8000, 44100, 743);
    DivUnique(1023 * 8000, 44100, 185);
  }

  /** A player as new_stream_player or new_sample_player leaves it can join the
      mix, whatever its format, rate and volumes. */
  lemma NewPlayable(f: Format, from: int, left: int, right: int, sample: SampleData, octets: nat, rate: int)
    requires Reasonable(octets, from, rate) && f.Mixable() && Whole(f, |sample.bytes|)
    ensures Playable(PlayerState(Source(f, from, left, right, []), BufferLength(f, octets, from, rate), 0, sample),
            rate, octets)
  {
    var st := PlayerState(Source(f, from, left, right, []), BufferLength(f, octets, from, rate), 0, sample);
    hide BufferLength, Sized, IndexFits, Whole;
    SizedForMixing(st, octets, rate);
    WholeZero(f);
  }

  lemma ProductBounds(n: nat, octets: nat, from: int, rate: int)
    requires Reasonable(octets, from, rate) && 4 * (n * rate) <= octets * from
    ensures n * rate + from - 1 < 0x8000_0000 && octets < 0x8000_0000 && IndexFits(octets / 4, from)
  {
    MulMono(from, 4, octets);
    MulMono(octets, 1, from);
    assert 2 * (octets / 4) * from * 2 == octets * from;
  }

  lemma StretchBack(n: nat, m: nat, from: int, rate: int)
    requires from > 0 && rate > 0 && n * rate <= m * from
    ensures Stretched(n, from, rate) <= m
  {
    var x := n * rate + from - 1;
    DivMono(x, m * from + from - 1, from);
    DivUnique(m * from + from - 1, from, m);
  }

  /** Translating the server's buffer into a client's: the whole buffer is
      filled with the server's frames (monitor_write, write_player, filter_write). */
  method SendToClient(dest: array<byte>, d: Format, from: int, server: seq<byte>, f: Format, rate: int) returns (r: nat)
    requires Reasonable(|server|, from, rate) && d.Mixable()
    requires dest.Length == BufferLength(d, |server|, from, rate)
    modifies dest
    ensures r == dest.Length
    ensures var n := Frames(d, dest.Length);
            && Feeds(SourceOf(f), server, rate, from, n)
            && n * Channels(d.IsMono()) * Width(d.Is8()) == dest.Length
            && Written(dest, old(dest[..]), d.Is8(), Samples(SourceOf(f), d.Is8(), d.IsMono(), server, rate, from, n),
                       n * Channels(d.IsMono()))
  {
    hide Feeds, ProductsFit, BufferLength, Samples;
    NeverReadsPast(d, f, server, from, rate);
    r := TranslateBuffer(dest, dest.Length, from, d, server, rate, f, Frames(d, dest.Length));
  }
}
