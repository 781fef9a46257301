/** Sample formats (esd.h) and how samples lie in a byte buffer. */
module Formats {
  import opened CTypes

  type nibble = x: int | 0 <= x < 16

  /** `esd_format_t`: four 4-bit fields, each read through its own mask. */
  datatype Format = Format(bits: nibble, chan: nibble, mode: nibble, func: nibble) {
    predicate Is8() { bits == BITS8 }
    predicate IsMono() { chan == MONO }
    /** Formats for which `get_mix_func` finds a function. */
    predicate Mixable() { (bits == BITS8 || bits == BITS16) && (chan == MONO || chan == STEREO) }
    /** bytes per sample, bytes per frame */
    function Width(): nat { if Is8() then 1 else 2 }
    function FrameSize(): (n: nat) ensures n == 1 || n == 2 || n == 4 {
      var n := 2 * 2;
      var n := if Is8() then n / 2 else n;
      if IsMono() then n / 2 else n
    }
  }

  const BITS8: nibble := 0
  const BITS16: nibble := 1
  const MONO: nibble := 1
  const STEREO: nibble := 2
  const STREAM: nibble := 0
  const SAMPLE: nibble := 1
  const STOP: nibble := 0
  const PLAY: nibble := 1
  const LOOP: nibble := 2

  /** A format as the protocol sends it: one hexadecimal digit a field. */
  function FormatOf(word: nat): Format {
    Format(word % 16, word / 16 % 16, word / 256 % 16, word / 4096 % 16)
  }

  /** The words of esd.h: 16-bit stereo streams, 8-bit mono samples, looping and stopped. */
  lemma FormatWords()
    ensures FormatOf(0x1021) == Format(BITS16, STEREO, STREAM, PLAY)
    ensures FormatOf(0x1110) == Format(BITS8, MONO, SAMPLE, PLAY)
    ensures FormatOf(0x2121) == Format(BITS16, STEREO, SAMPLE, LOOP)
    ensures FormatOf(0x0110) == Format(BITS8, MONO, SAMPLE, STOP)
  {
  }

  const VOLUME_BASE := 256
  const MAX_WRITE_SIZE := 21 * 4096

  /** Whole frames in n bytes. */
  function Frames(f: Format, n: nat): nat { n / f.FrameSize() }

  /** The source frame that output frame j is taken from: floor(j * from / to). */
  function SourceFrame(j: nat, from: int, to: int): nat
    requires from > 0 && to > 0
  {
    j * from / to
  }

  /** It is the one frame that begins no later than output frame j and whose
      successor begins after it. */
  lemma SourceFrameIs(j: nat, from: int, to: int, i: int)
    requires from > 0 && to > 0
    ensures i == SourceFrame(j, from, to) <==> i * to <= j * from < (i + 1) * to
  {
    var q := SourceFrame(j, from, to);
    assert (i + 1) * to == to * i + to && j * from == to * q + j * from % to;
    if i * to <= j * from < (i + 1) * to { DivUnique(j * from, to, i); }
  }

  lemma SourceFrameMono(i: nat, j: nat, from: int, to: int)
    requires from > 0 && to > 0 && i <= j
    ensures SourceFrame(i, from, to) <= SourceFrame(j, from, to)
  {
    MulMono(from, i, j);
    DivMono(i * from, j * from, to);
  }

  /** The index arithmetic of every resampling loop: from an even sample counter
      2j, both `(idx & ~1)` and `idx / 2` recover frame floor(j*from/to). */
  lemma IndexToFrame(j: nat, from: int, to: int)
    requires from > 0 && to > 0
    ensures (2 * j * from / to) / 2 == SourceFrame(j, from, to)
    ensures var idx := 2 * j * from / to; idx - idx % 2 == 2 * SourceFrame(j, from, to)
  {
    assert 2 * j * from == 2 * (j * from);
    DivHalf(j * from, to);
  }

  lemma SameRateFrame(j: nat, rate: int)
    requires rate > 0
    ensures SourceFrame(j, rate, rate) == j
  {
    DivSelf(j, rate);
  }
}
