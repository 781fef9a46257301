/** The daemon's lists of clients, players, recorders, monitors, filters and
    samples, and what every operation on them keeps. Objects are records with an
    address; freeing one removes its record, so a dangling pointer is an address
    that no record has. A new object may be given any address not in use. */
module RegistrySpec {

  datatype ClientState = Streaming | Caching | NeedsData | NextRequest
  datatype Client = Client(addr: nat, state: ClientState)

  /** ESD_STREAM entries have a client as parent, ESD_SAMPLE entries a sample. */
  datatype Mode = Stream | Sample
  datatype Entry = Entry(addr: nat, mode: Mode, parent: nat)
  datatype Cached = Cached(addr: nat, id: int, refs: int, eraseWhenDone: bool)

  datatype Kind = Play | Record | Monitor | Filter

  datatype Registry = Registry(
    clients: seq<Client>, players: seq<Entry>, recorders: seq<Entry>, monitors: seq<Entry>, filters: seq<Entry>,
    samples: seq<Cached>, playing: int, nextId: int)
  {
    function List(k: Kind): seq<Entry> {
      match k
      case Play => players
      case Record => recorders
      case Monitor => monitors
      case Filter => filters
    }
    function With(k: Kind, l: seq<Entry>): Registry {
      match k
      case Play => this.(players := l)
      case Record => this.(recorders := l)
      case Monitor => this.(monitors := l)
      case Filter => this.(filters := l)
    }
  }

  const NULL: nat := 0

  function Start(): Registry { Registry([], [], [], [], [], [], 0, 1) }

  // ---- looking up and unlinking ----

  function Unlink<T>(l: seq<T>, i: nat): seq<T>
    requires i <= |l|
  {
    if i < |l| then l[..i] + l[i + 1..] else l
  }

  function ClientAt(cs: seq<Client>, a: nat): (i: nat)
    ensures i <= |cs| && (i < |cs| ==> cs[i].addr == a) && forall k :: 0 <= k < i ==> cs[k].addr != a
  {
    if |cs| == 0 || cs[0].addr == a then 0 else 1 + ClientAt(cs[1..], a)
  }

  function EntryAt(l: seq<Entry>, a: nat): (i: nat)
    ensures i <= |l| && (i < |l| ==> l[i].addr == a) && forall k :: 0 <= k < i ==> l[k].addr != a
  {
    if |l| == 0 || l[0].addr == a then 0 else 1 + EntryAt(l[1..], a)
  }

  function SampleAt(ss: seq<Cached>, a: nat): (i: nat)
    ensures i <= |ss| && (i < |ss| ==> ss[i].addr == a) && forall k :: 0 <= k < i ==> ss[k].addr != a
  {
    if |ss| == 0 || ss[0].addr == a then 0 else 1 + SampleAt(ss[1..], a)
  }

  function SampleWithId(ss: seq<Cached>, id: int): (i: nat)
    ensures i <= |ss| && (i < |ss| ==> ss[i].id == id) && forall k :: 0 <= k < i ==> ss[k].id != id
  {
    if |ss| == 0 || ss[0].id == id then 0 else 1 + SampleWithId(ss[1..], id)
  }

  // ---- the operations ----

  /** `erase_client` (clients.c:100): an unknown address changes nothing. */
  function EraseClient(r: Registry, a: nat): Registry {
    r.(clients := Unlink(r.clients, ClientAt(r.clients, a)))
  }

  /** `erase_sample( id, 0 )` (samples.c:66): deferred while players refer to it. */
  function EraseSample(ss: seq<Cached>, id: int): seq<Cached> {
    var i := SampleWithId(ss, id);
    if i == |ss| then ss
    else if ss[i].refs != 0 then ss[i := ss[i].(eraseWhenDone := true)]
    else Unlink(ss, i)
  }

  /** A player of the sample at address a is freed (players.c:38-52). */
  function ReleaseSample(ss: seq<Cached>, a: nat): seq<Cached> {
    var i := SampleAt(ss, a);
    if i == |ss| then ss
    else
      var s := ss[i].(refs := ss[i].refs - 1);
      if s.eraseWhenDone && s.refs == 0 then EraseSample(ss[i := s], s.id) else ss[i := s]
  }

  /** `free_player` (players.c:30). */
  function FreePlayer(r: Registry, e: Entry): Registry {
    match e.mode
    case Stream => EraseClient(r, e.parent)
    case Sample => r.(playing := r.playing - 1, samples := ReleaseSample(r.samples, e.parent))
  }

  /** `erase_player`, `erase_recorder`, `erase_monitor`, `erase_filter`. */
  function EraseEntry(r: Registry, k: Kind, a: nat): Registry {
    var l := r.List(k);
    var i := EntryAt(l, a);
    if i == |l| then r else FreePlayer(r.With(k, Unlink(l, i)), l[i])
  }

  /** What a failed write does: monitors and recorders have their client erased
      first, and then once more by freeing the entry. */
  function Drop(r: Registry, k: Kind, a: nat): Registry {
    var l := r.List(k);
    var i := EntryAt(l, a);
    if i == |l| then r
    else EraseEntry(if k == Record || k == Monitor then EraseClient(r, l[i].parent) else r, k, a)
  }

  /** One walk over a list, dropping the entries whose read or write fails. */
  function Sweep(r: Registry, k: Kind, order: seq<Entry>, fails: set<nat>): Registry
    decreases |order|
  {
    if |order| == 0 then r
    else Sweep(if order[0].addr in fails then Drop(r, k, order[0].addr) else r, k, order[1..], fails)
  }

  // ---- what happens to a daemon ----

  datatype Event =
    | Accept(client: nat)
    | Close(client: nat)                                 // a request failed
    | Open(kind: Kind, client: nat, entry: nat)          // stream play, record, monitor, filter
    | RecordRefused(client: nat, entry: nat)             // the device would not open for recording
    | Cache(client: nat, sample: nat, done: bool)        // sample cached, or still caching
    | CacheFailed                                        // no memory: only the id is used up
    | Free(id: int)
    | PlaySample(id: int, entry: nat, made: bool)        // made: memory and a mix function were found
    | Walk(kind: Kind, fails: set<nat>)                  // mix_players, recorder_write, monitor_write, filter_write

  /** The client whose request is being served: known, and not streaming. */
  predicate Served(r: Registry, a: nat) {
    var i := ClientAt(r.clients, a);
    i < |r.clients| && r.clients[i].state != Streaming
  }

  predicate FreshEntry(r: Registry, a: nat) {
    a != NULL && forall k :: EntryAt(r.List(k), a) == |r.List(k)|
  }

  function SetState(r: Registry, a: nat, st: ClientState): Registry {
    var i := ClientAt(r.clients, a);
    if i == |r.clients| then r else r.(clients := r.clients[i := r.clients[i].(state := st)])
  }

  /** A new stream entry at the head of its list, its client now streaming. */
  function OpenStream(r: Registry, k: Kind, a: nat, e: nat): Registry {
    SetState(r.With(k, [Entry(e, Stream, a)] + r.List(k)), a, Streaming)
  }

  /** `play_sample`: a new sample player, counted on its sample. */
  function StartSample(r: Registry, i: nat, e: nat): Registry
    requires i < |r.samples|
  {
    var s := r.samples[i];
    r.(players := [Entry(e, Sample, s.addr)] + r.players, playing := r.playing + 1,
       samples := r.samples[i := s.(refs := s.refs + 1)])
  }

  ghost function Apply(r: Registry, ev: Event): Registry {
    match ev
    case Accept(a) =>
      if a == NULL || ClientAt(r.clients, a) < |r.clients| then r
      else r.(clients := [Client(a, NeedsData)] + r.clients)
    case Close(a) => if Served(r, a) then EraseClient(r, a) else r
    case Open(k, a, e) => if Served(r, a) && FreshEntry(r, e) then OpenStream(r, k, a, e) else r
    case RecordRefused(a, e) =>
      if Served(r, a) then EraseClient(FreePlayer(r, Entry(e, Stream, NULL)), a) else r
    case Cache(a, s, done) =>
      if Served(r, a) && SampleAt(r.samples, s) == |r.samples| then
        SetState(r.(samples := [Cached(s, r.nextId, 0, false)] + r.samples, nextId := r.nextId + 1),
                 a, if done then NextRequest else Caching)
      else r
    case CacheFailed => r.(nextId := r.nextId + 1)
    case Free(id) => r.(samples := EraseSample(r.samples, id))
    case PlaySample(id, e, made) =>
      var i := SampleWithId(r.samples, id);
      if i < |r.samples| && made && FreshEntry(r, e) then StartSample(r, i, e) else r
    case Walk(k, fails) => Sweep(r, k, r.List(k), fails)
  }

  ghost function Run(r: Registry, evs: seq<Event>): Registry {
    if |evs| == 0 then r else Apply(Run(r, evs[..|evs| - 1]), evs[|evs| - 1])
  }
}
