/** A player (esd_player_t) and the choice of its mix function. */
module Players {
  import opened CTypes
  import opened Formats
  import opened MixSpec

  /** The function pointers `get_mix_func` chooses from. */
  datatype MixFunc = NoMixFunc | Standard(fmt: SourceKind) | Volume(fmt: SourceKind)
  datatype SourceKind = Mono8 | Stereo8 | Mono16 | Stereo16

  function Kind(f: Format): SourceKind
    requires f.Mixable()
  {
    if f.Is8() then (if f.IsMono() then Mono8 else Stereo8)
    else (if f.IsMono() then Mono16 else Stereo16)
  }

  /** `get_mix_func` (mix.c:43). */
  function GetMixFunc(f: Format, left: int, right: int): MixFunc {
    if !f.Mixable() then NoMixFunc
    else if left == VOLUME_BASE && right == VOLUME_BASE then Standard(Kind(f))
    else Volume(Kind(f))
  }

  /** The cached sound behind a sample player; streams have none. */
  datatype SampleData = SampleData(format: Format, bytes: seq<byte>)

  /** A player as a value. */
  datatype PlayerState = PlayerState(source: Source, capacity: nat, lastPos: nat, sample: SampleData) {
    function Room(): int { capacity - |source.data| }
    /** The player with more data in its buffer and a new read position. */
    function Append(bytes: seq<byte>, pos: nat): PlayerState {
      this.(source := source.(data := source.data + bytes), lastPos := pos)
    }
  }

  class Player {
    const sourceId: int       // source_id
    var format: Format
    const rate: int
    var left: int32
    var right: int32
    const data: array<byte>   // data_buffer; its Length is buffer_length
    var actual: nat           // actual_length
    var lastPos: nat          // last_pos
    const sample: SampleData  // the parent sample
    var mixFunc: MixFunc

    ghost predicate Valid()
      reads this
    {
      format.Mixable() && rate > 0 && actual <= data.Length
      && mixFunc == GetMixFunc(format, left, right)
    }

    ghost function View(): Source
      reads this, data
      requires actual <= data.Length
    {
      Source(format, rate, left, right, data[..actual])
    }

    ghost function State(): PlayerState
      reads this, data
      requires actual <= data.Length
    {
      PlayerState(View(), data.Length, lastPos, sample)
    }

    constructor (id: int, format: Format, rate: int, left: int32, right: int32, length: nat, sample: SampleData)
      requires format.Mixable() && rate > 0
      ensures Valid() && View() == Source(format, rate, left, right, [])
      ensures sourceId == id && this.sample == sample && lastPos == 0 && actual == 0
      ensures data.Length == length && fresh(data)
    {
      this.sourceId, this.format, this.rate, this.left, this.right := id, format, rate, left, right;
      this.sample, this.lastPos, this.actual := sample, 0, 0;
      this.data := new byte[length];
      this.mixFunc := GetMixFunc(format, left, right);
    }

    /** Panning a stream resets its volumes and its mix function (proto.c:751-753). */
    method Pan(left: int32, right: int32)
      requires Valid()
      modifies this
      ensures Valid() && View() == old(View()).(left := left, right := right)
      ensures actual == old(actual) && lastPos == old(lastPos)
    {
      this.left, this.right := left, right;
      this.mixFunc := GetMixFunc(format, left, right);
    }
  }
}
