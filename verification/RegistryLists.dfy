/** The registry's operations as they walk and relink the lists, all in one heap. */
module RegistryLists {
  import opened RegistrySpec
  import opened RegistryProofs
  import opened LinkedLists
  import opened Options

  // ---- what the searches look for ----

  function ClientIs(a: nat): Client -> bool { (c: Client) => c.addr == a }
  function EntryIs(a: nat): Entry -> bool { (e: Entry) => e.addr == a }
  function SampleIs(a: nat): Cached -> bool { (s: Cached) => s.addr == a }
  function SampleHas(id: int): Cached -> bool { (s: Cached) => s.id == id }

  // ---- single lists ----

  /** The search and removal of `erase_sample` (samples.c:66-109). */
  method EraseCached(l: List<Cached>, id: int)
    requires l.Valid()
    modifies l.repr
    ensures l.Valid() && l.repr == old(l.repr) && l.Values() == RegistrySpec.EraseSample(old(l.Values()), id)
  {
    hide First;
    var previous, current, i := l.Find(SampleHas(id));
    FirstSampleHas(l.Values(), id);
    if current != null {
      var s := current.value;
      if s.refs != 0 {
        l.Put(current, s.(eraseWhenDone := true), i);
      } else {
        l.LinkAround(previous, current, i);
      }
    }
  }

  lemma FirstSampleHas(ss: seq<Cached>, id: int)
    ensures First(ss, SampleHas(id)) == SampleWithId(ss, id)
  {
  }

  lemma FirstSampleIs(ss: seq<Cached>, a: nat)
    ensures First(ss, SampleIs(a)) == SampleAt(ss, a)
  {
  }

  lemma FirstClientIs(cs: seq<Client>, a: nat)
    ensures First(cs, ClientIs(a)) == ClientAt(cs, a)
  {
  }

  lemma FirstEntryIs(l: seq<Entry>, a: nat)
    ensures First(l, EntryIs(a)) == EntryAt(l, a)
  {
  }

  /** A sample that is still listed loses a player (players.c:38-52). */
  method ReleaseCached(l: List<Cached>, a: nat)
    requires l.Valid() && SampleAt(l.Values(), a) < |l.Values()|
    modifies l.repr
    ensures l.Valid() && l.repr == old(l.repr) && l.Values() == ReleaseSample(old(l.Values()), a)
  {
    hide First, RegistrySpec.EraseSample, SampleAt, ValuesOf, Distinct, Chained;
    var _, current, i := l.Find(SampleIs(a));
    FirstSampleIs(l.Values(), a);
    var s := current.value.(refs := current.value.refs - 1);
    l.Put(current, s, i);
    if s.eraseWhenDone && s.refs == 0 {
      EraseCached(l, s.id);
    }
  }

  /** A client starts to stream. */
  method MarkStreaming(l: List<Client>, a: nat)
    requires l.Valid() && ClientAt(l.Values(), a) < |l.Values()|
    modifies l.repr
    ensures l.Valid() && l.repr == old(l.repr)
    ensures var i := ClientAt(old(l.Values()), a);
            l.Values() == old(l.Values())[i := old(l.Values())[i].(state := Streaming)]
  {
    hide First, ClientAt, ValuesOf, Distinct, Chained;
    var _, current, i := l.Find(ClientIs(a));
    FirstClientIs(l.Values(), a);
    l.Put(current, current.value.(state := Streaming), i);
  }

  /** Find a sample by its id and, if a player could be made, count the player. */
  method CountPlayer(l: List<Cached>, id: int, made: bool) returns (sample: Option<nat>)
    requires l.Valid()
    modifies l.repr
    ensures l.Valid() && l.repr == old(l.repr)
    ensures var i := SampleWithId(old(l.Values()), id);
            if i < |old(l.Values())| && made then
              var s := old(l.Values())[i];
              sample == Some(s.addr) && l.Values() == old(l.Values())[i := s.(refs := s.refs + 1)]
            else sample == None && l.Values() == old(l.Values())
  {
    hide First, SampleWithId, ValuesOf, Distinct, Chained;
    var _, current, i := l.Find(SampleHas(id));
    FirstSampleHas(l.Values(), id);
    if current == null || !made { return None; }
    var s := current.value;
    l.Put(current, s.(refs := s.refs + 1), i);
    return Some(s.addr);
  }

  /** Unlink the entry with an address: the loop of `erase_player` and its like. */
  method TakeEntry(l: List<Entry>, a: nat) returns (entry: Option<Entry>)
    requires l.Valid()
    modifies l.repr
    ensures l.Valid() && l.repr == old(l.repr)
    ensures var i := EntryAt(old(l.Values()), a);
            && entry == (if i < |old(l.Values())| then Some(old(l.Values())[i]) else None)
            && l.Values() == Unlink(old(l.Values()), i) && l.nodes == Unlink(old(l.nodes), i)
  {
    hide First, EntryAt, Unlink, ValuesOf, Distinct, Chained;
    var previous, current, i := l.Find(EntryIs(a));
    FirstEntryIs(l.Values(), a);
    UnlinkNothing(l.Values());
    UnlinkNothing(l.nodes);
    entry := None;
    if current != null {
      entry := Some(current.value);
      l.LinkAround(previous, current, i);
    }
  }

  lemma UnlinkNothing<T>(l: seq<T>)
    ensures Unlink(l, |l|) == l
  {
  }

  lemma SinglesApart(os: seq<object>)
    requires |os| == 6 && forall i, j :: 0 <= i < j < 6 ==> os[i] != os[j]
    ensures {os[0]} !! {os[1]} !! {os[2]} !! {os[3]} !! {os[4]} !! {os[5]}
  {
  }

  class Daemon {
    const clients: List<Client>
    const players: List<Entry>
    const recorders: List<Entry>
    const monitors: List<Entry>
    const filters: List<Entry>
    const samples: List<Cached>
    var playing: int
    var nextId: int

    /** The lists share no node. */
    ghost predicate Apart()
      reads this, clients, players, recorders, monitors, filters, samples
    {
      && clients.repr !! players.repr !! recorders.repr !! monitors.repr !! filters.repr !! samples.repr
      && clients in clients.repr && players in players.repr && recorders in recorders.repr
      && monitors in monitors.repr && filters in filters.repr && samples in samples.repr
      && this !in clients.repr && this !in players.repr && this !in recorders.repr
      && this !in monitors.repr && this !in filters.repr && this !in samples.repr
    }

    ghost predicate Valid()
      reads this, clients, players, recorders, monitors, filters, samples
      reads clients.repr, players.repr, recorders.repr, monitors.repr, filters.repr, samples.repr
    {
      && Apart() && clients.Valid() && players.Valid() && recorders.Valid() && monitors.Valid() && filters.Valid()
      && samples.Valid()
    }

    ghost function State(): Registry
      reads this, clients, players, recorders, monitors, filters, samples
      reads clients.repr, players.repr, recorders.repr, monitors.repr, filters.repr, samples.repr
      requires Valid()
    {
      Registry(clients.Values(), players.Values(), recorders.Values(), monitors.Values(), filters.Values(),
               samples.Values(), playing, nextId)
    }

    constructor ()
      ensures Valid() && State() == Start()
    {
      hide List.Valid, List.Values, State;
      clients := new List();
      players := new List();
      recorders := new List();
      monitors := new List();
      filters := new List();
      samples := new List();
      playing, nextId := 0, 1;
      new;
      SinglesApart([clients, players, recorders, monitors, filters, samples]);
      StartState();
    }

    lemma StartState()
      requires clients.nodes == [] && players.nodes == recorders.nodes == monitors.nodes == filters.nodes == []
      requires samples.nodes == [] && playing == 0 && nextId == 1 && Valid()
      ensures State() == Start()
    {
    }

    function ListOf(k: Kind): List<Entry> {
      match k
      case Play => players
      case Record => recorders
      case Monitor => monitors
      case Filter => filters
    }

    /** `add_new_client` (clients.c:90-96). */
    method AddClient(a: nat)
      requires Valid() && Inv(State()) && a != NULL && ClientAt(State().clients, a) == |State().clients|
      modifies clients.repr
      ensures Valid() && State() == Apply(old(State()), Accept(a)) && Inv(State()) && Served(State(), a)
    {
      hide Inv, List.Valid, List.Values;
      ApplyKeeps(State(), Accept(a));
      clients.Push(Client(a, NeedsData));
    }

    /** `erase_client` (clients.c:100-135). */
    method EraseClient(a: nat)
      requires Valid()
      modifies clients.repr
      ensures Valid() && clients.repr == old(clients.repr)
      ensures State() == RegistrySpec.EraseClient(old(State()), a)
    {
      hide List.Valid, List.Values, First;
      FirstClientIs(State().clients, a);
      clients.EraseFirst(ClientIs(a));
    }

    /** `erase_sample` without force (samples.c:66-109). */
    method EraseSample(id: int)
      requires Valid()
      modifies samples.repr
      ensures Valid() && samples.repr == old(samples.repr)
      ensures State() == old(State()).(samples := RegistrySpec.EraseSample(old(State()).samples, id))
    {
      hide List.Valid, List.Values, RegistrySpec.EraseSample;
      EraseCached(samples, id);
    }

    /** `free_player` (players.c:30-62). The parent sample is reached through the
        player's pointer: it must still be there. */
    method FreePlayer(e: Entry)
      requires Valid() && (e.mode == Sample ==> SampleAt(State().samples, e.parent) < |State().samples|)
      modifies `playing, clients.repr, samples.repr
      ensures Valid() && clients.repr == old(clients.repr) && samples.repr == old(samples.repr)
      ensures State() == RegistrySpec.FreePlayer(old(State()), e)
    {
      hide List.Valid, List.Values, ReleaseSample;
      if e.mode == Stream {
        EraseClient(e.parent);
      } else {
        ReleaseCached(samples, e.parent);
        playing := playing - 1;
      }
    }

    /** The end of a successful stream request: a new entry at the head of its
        list and a client that streams from now on (proto.c:307-419). */
    method OpenStream(k: Kind, a: nat, e: nat)
      requires Valid() && Inv(State()) && Served(State(), a) && FreshEntry(State(), e)
      modifies ListOf(k).repr, clients.repr
      ensures Valid() && State() == RegistrySpec.OpenStream(old(State()), k, a, e) && Inv(State())
    {
      hide Inv, FreshEntry, List.Valid, List.Values, ClientAt;
      OpenKeeps(State(), k, a, e);
      ListOf(k).Push(Entry(e, Stream, a));
      MarkStreaming(clients, a);
    }

    /** `play_sample` and `new_sample_player`: find the sample, make a player, count
        it (samples.c:245-255, players.c:598-677). */
    method PlaySample(id: int, e: nat, made: bool) returns (ok: bool)
      requires Valid() && Inv(State()) && FreshEntry(State(), e)
      modifies `playing, samples.repr, players.repr
      ensures Valid() && State() == Apply(old(State()), Event.PlaySample(id, e, made)) && Inv(State())
      ensures ok <==> made && SampleWithId(old(State()).samples, id) < |old(State()).samples|
    {
      hide Inv, FreshEntry, List.Valid, List.Values, SampleWithId;
      ApplyKeeps(State(), Event.PlaySample(id, e, made));
      var sample := CountPlayer(samples, id, made);
      if sample == None { return false; }
      playing := playing + 1;
      players.Push(Entry(e, Sample, sample.value));
      return true;
    }

    /** `erase_player`, `erase_recorder`, `erase_monitor`, `erase_filter`: the node
        is unlinked and what depends on it freed. */
    method EraseEntry(k: Kind, a: nat)
      requires Valid() && ParentLive(State(), k, a)
      modifies `playing, ListOf(k).repr, clients.repr, samples.repr
      ensures Valid() && ListOf(k).repr == old(ListOf(k).repr)
      ensures clients.repr == old(clients.repr) && samples.repr == old(samples.repr)
      ensures State() == RegistrySpec.EraseEntry(old(State()), k, a)
      ensures ListOf(k).nodes == Unlink(old(ListOf(k).nodes), EntryAt(old(State()).List(k), a))
    {
      hide Unlink, EntryAt, RegistrySpec.FreePlayer, List.Valid, List.Values;
      UnlinkNothing(State().List(k));
      UnlinkNothing(ListOf(k).nodes);
      var entry := TakeEntry(ListOf(k), a);
      if entry.Some? { FreePlayer(entry.value); }
    }

    /** What a failed write does to the entry e of list k: monitors and recorders
        have their client erased first, and once more with the entry. */
    method DropEntry(k: Kind, e: Entry)
      requires Valid() && Inv(State()) && Listed(State(), k, e)
      modifies `playing, ListOf(k).repr, clients.repr, samples.repr
      ensures Valid() && ListOf(k).repr == old(ListOf(k).repr)
      ensures clients.repr == old(clients.repr) && samples.repr == old(samples.repr)
      ensures State() == Drop(old(State()), k, e.addr) && Inv(State())
      ensures ListOf(k).nodes == Unlink(old(ListOf(k).nodes), EntryAt(old(State()).List(k), e.addr))
    {
      hide Inv, Unlink, EntryAt, RegistrySpec.EraseEntry, RegistrySpec.EraseClient, List.Valid, List.Values, ParentLive;
      DropKeeps(State(), k, e);
      if k == Record || k == Monitor { EraseClient(e.parent); }
      EraseEntry(k, e.addr);
    }

    /** The nodes of list k from the c-th of `start` on are still the last ones, and
        hold the entries of `all`. */
    ghost predicate AtNode(k: Kind, start: seq<Node<Entry>>, all: seq<Entry>, c: nat)
      reads this, clients, players, recorders, monitors, filters, samples
      reads clients.repr, players.repr, recorders.repr, monitors.repr, filters.repr, samples.repr
      requires Valid() && c <= |start| == |all|
    {
      Ends(ListOf(k).nodes, State().List(k), start, all, c)
    }

    lemma WalkStarts(k: Kind)
      requires Valid()
      ensures |State().List(k)| == |ListOf(k).nodes| && ListOf(k).head == NodeAt(ListOf(k).nodes, 0)
      ensures AtNode(k, ListOf(k).nodes, State().List(k), 0)
    {
    }

    /** Move the cursor on, then drop the entry it was at if that one failed. */
    method Visit(k: Kind, cursor: Node<Entry>, fails: set<nat>, ghost start: seq<Node<Entry>>, ghost all: seq<Entry>,
                 ghost c: nat, ghost goal: Registry) returns (next: Node?<Entry>)
      requires Valid() && Inv(State()) && c < |start| == |all| && AtNode(k, start, all, c) && cursor == start[c]
      requires Sweep(State(), k, all[c..], fails) == goal
      modifies `playing, ListOf(k).repr, clients.repr, samples.repr
      ensures Valid() && Inv(State()) && ListOf(k).repr == old(ListOf(k).repr)
      ensures clients.repr == old(clients.repr) && samples.repr == old(samples.repr)
      ensures AtNode(k, start, all, c + 1) && next == NodeAt(start, c + 1)
      ensures Sweep(State(), k, all[c + 1..], fails) == goal
    {
      hide Inv, Sweep, Drop, Unlink, EntryAt, List.Valid, List.Values, Ends, Listed;
      CursorAt(k, start, all, c);
      EndsStep(ListOf(k).nodes, State().List(k), start, all, c);
      SweepHead(State(), k, all[c..], fails);
      DropList(State(), k, all[c]);
      next := cursor.next;
      if cursor.value.addr in fails {
        DropEntry(k, cursor.value);
      }
    }

    lemma CursorAt(k: Kind, start: seq<Node<Entry>>, all: seq<Entry>, c: nat)
      requires Valid() && Inv(State()) && c < |start| == |all| && AtNode(k, start, all, c)
      ensures var i := |ListOf(k).nodes| - (|start| - c);
              && start[c] == ListOf(k).nodes[i] && start[c].value == all[c] == State().List(k)[i]
              && start[c].next == NodeAt(start, c + 1)
              && EntryAt(State().List(k), all[c].addr) == i && Listed(State(), k, all[c])
    {
      hide Inv;
      var i := |ListOf(k).nodes| - (|start| - c);
      assert ListOf(k).nodes[i..][0] == start[c..][0] && State().List(k)[i..][0] == all[c..][0];
      if c + 1 < |start| { assert ListOf(k).nodes[i..][1] == start[c..][1]; }
      EntryFound(State(), k, i);
    }

    /** The walk of mix_players, monitor_write, recorder_write and filter_write. The
        cursor moves on before an entry is erased, so it always points to a node
        still in the list, every node is visited once, and what is left is what the
        specification's walk leaves, in all the lists. */
    method Walk(k: Kind, fails: set<nat>)
      requires Valid() && Inv(State())
      modifies `playing, ListOf(k).repr, clients.repr, samples.repr
      ensures Valid() && Inv(State()) && State() == Sweep(old(State()), k, old(State()).List(k), fails)
      ensures State().List(k) == Surviving(old(State()).List(k), fails)
    {
      hide Inv, Sweep, Drop, List.Valid, List.Values, Surviving, AtNode, State;
      ghost var all, start, c := State().List(k), ListOf(k).nodes, 0;
      ghost var goal := Sweep(State(), k, all, fails);
      SweepFilters(State(), k, [], all, fails);
      assert [] + all == all && [] + Surviving(all, fails) == Surviving(all, fails);
      var cursor := ListOf(k).head;
      WalkStarts(k);
      while cursor != null
        invariant Valid() && Inv(State()) && c <= |start| == |all|
        invariant ListOf(k).repr == old(ListOf(k).repr)
        invariant clients.repr == old(clients.repr) && samples.repr == old(samples.repr)
        invariant AtNode(k, start, all, c) && cursor == NodeAt(start, c)
        invariant Sweep(State(), k, all[c..], fails) == goal
        decreases |start| - c
      {
        cursor := Visit(k, cursor, fails, start, all, c, goal);
        c := c + 1;
      }
      assert all[c..] == [];
      SweepNothing(State(), k, fails);
    }
  }

  /** ns and vs end in what start and all have from c on. */
  ghost predicate Ends(ns: seq<Node<Entry>>, vs: seq<Entry>, start: seq<Node<Entry>>, all: seq<Entry>, c: nat)
    requires c <= |start| == |all|
  {
    var i := |ns| - (|start| - c);
    i >= 0 && |vs| == |ns| && ns[i..] == start[c..] && vs[i..] == all[c..]
  }

  /** One node on, whether the current one stays or goes. */
  lemma EndsStep(ns: seq<Node<Entry>>, vs: seq<Entry>, start: seq<Node<Entry>>, all: seq<Entry>, c: nat)
    requires c < |start| == |all| && Ends(ns, vs, start, all, c)
    ensures var i := |ns| - (|start| - c);
            && 0 <= i < |ns| == |vs| && all[c..][0] == all[c] && all[c..][1..] == all[c + 1..]
            && Ends(ns, vs, start, all, c + 1) && Ends(Unlink(ns, i), Unlink(vs, i), start, all, c + 1)
  {
    var i := |ns| - (|start| - c);
    assert ns[i + 1..] == ns[i..][1..] == start[c..][1..] == start[c + 1..];
    assert vs[i + 1..] == vs[i..][1..] == all[c..][1..] == all[c + 1..];
    assert Unlink(ns, i)[i..] == ns[i + 1..] && Unlink(vs, i)[i..] == vs[i + 1..];
  }

  /** Dropping an entry takes it alone out of its list. */
  lemma DropList(r: Registry, k: Kind, e: Entry)
    requires Inv(r) && Listed(r, k, e)
    ensures Drop(r, k, e.addr).List(k) == Unlink(r.List(k), EntryAt(r.List(k), e.addr))
  {
    hide Inv, Unlink, RegistrySpec.FreePlayer;
    var i := EntryAt(r.List(k), e.addr);
    DoubleErase(r, k, e.addr);
    FreeKeepsLists(r.With(k, Unlink(r.List(k), i)), r.List(k)[i], k);
  }

  lemma EntryFound(r: Registry, k: Kind, i: nat)
    requires Inv(r) && i < |r.List(k)|
    ensures EntryAt(r.List(k), r.List(k)[i].addr) == i
  {
    hide StreamsMatch, SamplesMatch, KindsMatch;
  }

  /** e is the entry of list k with its address. */
  ghost predicate Listed(r: Registry, k: Kind, e: Entry) {
    var i := EntryAt(r.List(k), e.addr);
    i < |r.List(k)| && r.List(k)[i] == e
  }

  /** Dropping a listed entry: what each of its two steps needs and yields. */
  lemma DropKeeps(r: Registry, k: Kind, e: Entry)
    requires Inv(r) && Listed(r, k, e)
    ensures var u := if k == Record || k == Monitor then EraseClient(r, e.parent) else r;
            && ParentLive(u, k, e.addr) && u.List(k) == r.List(k)
            && Drop(r, k, e.addr) == EraseEntry(u, k, e.addr) && Inv(Drop(r, k, e.addr))
  {
    hide Inv;
    DoubleErase(r, k, e.addr);
    EraseEntryKeeps(r, k, e.addr);
    SampleParentLive(r, k, EntryAt(r.List(k), e.addr));
  }

  /** If the entry at address a plays a sample, that sample is still there. */
  ghost predicate ParentLive(r: Registry, k: Kind, a: nat) {
    var i := EntryAt(r.List(k), a);
    i < |r.List(k)| && r.List(k)[i].mode == Sample ==> SampleAt(r.samples, r.List(k)[i].parent) < |r.samples|
  }

  lemma SampleParentLive(r: Registry, k: Kind, i: nat)
    requires Inv(r) && i < |r.List(k)|
    ensures r.List(k)[i].mode == Sample ==> SampleAt(r.samples, r.List(k)[i].parent) < |r.samples|
    ensures k == Record || k == Monitor ==> r.List(k)[i].mode == Stream
  {
    var e := r.List(k)[i];
    if e.mode == Sample {
      OnlyPlayersPlay(r, k, i);
      ParentsUnlink(r.players, i, Sample);
      assert e.parent in Playing(r);
    }
  }

  lemma SweepNothing(r: Registry, k: Kind, fails: set<nat>)
    ensures Sweep(r, k, [], fails) == r
  {
  }

  lemma SweepHead(r: Registry, k: Kind, order: seq<Entry>, fails: set<nat>)
    requires |order| > 0
    ensures Sweep(r, k, order, fails)
         == Sweep(if order[0].addr in fails then Drop(r, k, order[0].addr) else r, k, order[1..], fails)
  {
  }
}
