/** The invariants that span the registry's lists, kept by every event. */
module RegistryProofs {
  import opened RegistrySpec

  ghost function OneIf(b: bool, a: nat): multiset<nat> { if b then multiset{a} else multiset{} }

  /** The parents of the entries of a mode. */
  ghost function Parents(l: seq<Entry>, m: Mode): multiset<nat> {
    if |l| == 0 then multiset{} else OneIf(l[0].mode == m, l[0].parent) + Parents(l[1..], m)
  }

  ghost function StreamingAddrs(cs: seq<Client>): multiset<nat> {
    if |cs| == 0 then multiset{} else OneIf(cs[0].state == Streaming, cs[0].addr) + StreamingAddrs(cs[1..])
  }

  ghost function StreamParents(r: Registry): multiset<nat> {
    Parents(r.players, Stream) + Parents(r.recorders, Stream) + Parents(r.monitors, Stream) + Parents(r.filters, Stream)
  }

  ghost predicate DistinctClients(cs: seq<Client>) {
    forall i, j :: 0 <= i < j < |cs| ==> cs[i].addr != cs[j].addr
  }

  /** Streaming clients and stream entries correspond one to one: every entry's
      parent is a live streaming client, no two entries share one, and every
      streaming client has its entry. */
  ghost predicate StreamsMatch(r: Registry) {
    && DistinctClients(r.clients)
    && (forall i :: 0 <= i < |r.clients| ==> r.clients[i].addr != NULL)
    && StreamParents(r) == StreamingAddrs(r.clients)
  }

  ghost predicate DistinctSamples(ss: seq<Cached>) {
    forall i, j :: 0 <= i < j < |ss| ==> ss[i].addr != ss[j].addr && ss[i].id != ss[j].id
  }

  ghost function Playing(r: Registry): multiset<nat> { Parents(r.players, Sample) }

  /** A sample's count is the number of its players, and it waits to be erased
      only while it has some. */
  ghost predicate SampleOk(s: Cached, pl: multiset<nat>, nextId: int) {
    1 <= s.id < nextId && s.refs == pl[s.addr] && (s.eraseWhenDone ==> s.refs > 0)
  }

  ghost predicate AllCached(ss: seq<Cached>, pl: multiset<nat>) {
    forall a :: a in pl ==> SampleAt(ss, a) < |ss|
  }

  ghost predicate AllOk(ss: seq<Cached>, pl: multiset<nat>, nextId: int) {
    forall i :: 0 <= i < |ss| ==> SampleOk(ss[i], pl, nextId)
  }

  /** Ids and addresses are distinct, counts are right, and every sample player's
      sample is still there. */
  ghost predicate CountsMatch(ss: seq<Cached>, pl: multiset<nat>, nextId: int) {
    DistinctSamples(ss) && AllOk(ss, pl, nextId) && AllCached(ss, pl)
  }

  ghost predicate SamplesMatch(r: Registry) {
    CountsMatch(r.samples, Playing(r), r.nextId) && r.playing == |Playing(r)| && r.nextId >= 1
  }

  ghost predicate AllStreams(l: seq<Entry>) { forall i :: 0 <= i < |l| ==> l[i].mode == Stream }

  /** Only streams record, monitor or filter. */
  ghost predicate KindsMatch(r: Registry) {
    AllStreams(r.recorders) && AllStreams(r.monitors) && AllStreams(r.filters)
  }

  ghost predicate DistinctEntries(l: seq<Entry>) {
    forall i, j :: 0 <= i < j < |l| ==> l[i].addr != l[j].addr
  }

  ghost predicate ListsDistinct(r: Registry) {
    && DistinctEntries(r.players) && DistinctEntries(r.recorders)
    && DistinctEntries(r.monitors) && DistinctEntries(r.filters)
  }

  ghost predicate Inv(r: Registry) { StreamsMatch(r) && SamplesMatch(r) && KindsMatch(r) && ListsDistinct(r) }

  // ---- multisets of parents ----

  lemma Regroup(a: multiset<nat>, b: multiset<nat>, c: multiset<nat>)
    ensures a + (b + c) == (a + b) + c
  {
  }

  lemma UnlinkTail<T>(l: seq<T>, i: nat)
    requires 0 < i < |l|
    ensures var u := Unlink(l, i);
            |u| > 0 && u[0] == l[0] && u[1..] == Unlink(l[1..], i - 1) && l[1..][i - 1] == l[i]
  {
  }

  lemma {:induction false} ParentsUnlink(l: seq<Entry>, i: nat, m: Mode)
    requires i < |l|
    ensures Parents(l, m) == Parents(Unlink(l, i), m) + OneIf(l[i].mode == m, l[i].parent)
  {
    if i == 0 {
      assert Unlink(l, 0) == l[1..];
    } else {
      hide OneIf, Unlink;
      UnlinkTail(l, i);
      ParentsUnlink(l[1..], i - 1, m);
      Regroup(OneIf(l[0].mode == m, l[0].parent), Parents(Unlink(l[1..], i - 1), m), OneIf(l[i].mode
          == m, l[i].parent));
    }
  }

  lemma ParentsCons(e: Entry, l: seq<Entry>, m: Mode)
    ensures Parents([e] + l, m) == Parents(l, m) + OneIf(e.mode == m, e.parent)
  {
    assert ([e] + l)[1..] == l;
  }

  lemma {:induction false} StreamingPart(cs: seq<Client>, i: nat)
    requires i < |cs|
    ensures StreamingAddrs(cs) == StreamingAddrs(Unlink(cs, i)) + OneIf(cs[i].state == Streaming, cs[i].addr)
  {
    if i == 0 {
      assert Unlink(cs, 0) == cs[1..];
    } else {
      hide OneIf, Unlink;
      UnlinkTail(cs, i);
      StreamingPart(cs[1..], i - 1);
      Regroup(OneIf(cs[0].state == Streaming, cs[0].addr), StreamingAddrs(Unlink(cs[1..], i - 1)),
              OneIf(cs[i].state == Streaming, cs[i].addr));
    }
  }

  /** Changing the state of client i. */
  lemma StreamingUpdate(cs: seq<Client>, i: nat, st: ClientState)
    requires i < |cs|
    ensures var u := cs[i := cs[i].(state := st)];
            StreamingAddrs(u) + OneIf(cs[i].state == Streaming, cs[i].addr)
            == StreamingAddrs(cs) + OneIf(st == Streaming, cs[i].addr)
  {
    var u := cs[i := cs[i].(state := st)];
    StreamingPart(cs, i);
    StreamingPart(u, i);
    assert Unlink(u, i) == Unlink(cs, i);
  }

  lemma {:induction false} StreamingKnown(cs: seq<Client>, a: nat)
    requires a in StreamingAddrs(cs)
    ensures exists i :: 0 <= i < |cs| && cs[i].addr == a && cs[i].state == Streaming
  {
    if a == cs[0].addr && cs[0].state == Streaming {
    } else {
      StreamingKnown(cs[1..], a);
      var i :| 0 <= i < |cs[1..]| && cs[1..][i].addr == a && cs[1..][i].state == Streaming;
      assert cs[i + 1].addr == a;
    }
  }

  // ---- erasing clients ----

  lemma UnlinkAt<T>(l: seq<T>, i: nat, k: nat)
    requires i < |l| && k < |l| - 1
    ensures |Unlink(l, i)| == |l| - 1 && Unlink(l, i)[k] == l[if k < i then k else k + 1]
  {
  }

  /** Once erased, an address is no longer in the list. */
  lemma ClientGone(cs: seq<Client>, a: nat)
    requires DistinctClients(cs)
    ensures var u := Unlink(cs, ClientAt(cs, a));
            && DistinctClients(u) && ClientAt(u, a) == |u|
            && forall k :: 0 <= k < |u| ==> u[k] in cs
  {
    var i := ClientAt(cs, a);
    var u := Unlink(cs, i);
    if i < |cs| {
      forall k | 0 <= k < |u|
        ensures u[k] == cs[if k < i then k else k + 1]
      {
        UnlinkAt(cs, i, k);
      }
    }
  }

  lemma ClientFound(cs: seq<Client>, i: nat)
    requires DistinctClients(cs) && i < |cs|
    ensures ClientAt(cs, cs[i].addr) == i
  {
  }

  /** What erasing address a does to the streaming clients. */
  lemma EraseClientStreams(r: Registry, a: nat)
    requires DistinctClients(r.clients)
    ensures var i := ClientAt(r.clients, a);
            StreamingAddrs(r.clients) == StreamingAddrs(EraseClient(r, a).clients)
                                         + OneIf(i < |r.clients| && r.clients[i].state == Streaming, a)
  {
    var i := ClientAt(r.clients, a);
    if i < |r.clients| { StreamingPart(r.clients, i); }
  }

  /** Erasing an address nobody has changes nothing. */
  lemma EraseUnknown(r: Registry, a: nat)
    requires ClientAt(r.clients, a) == |r.clients|
    ensures EraseClient(r, a) == r
  {
  }

  lemma StreamParentLive(r: Registry, a: nat)
    requires StreamsMatch(r) && a in StreamParents(r)
    ensures var i := ClientAt(r.clients, a);
            i < |r.clients| && r.clients[i].state == Streaming
  {
    StreamingKnown(r.clients, a);
    var k :| 0 <= k < |r.clients| && r.clients[k].addr == a && r.clients[k].state == Streaming;
    ClientFound(r.clients, k);
  }

  lemma StreamParentsWith(r: Registry, k: Kind, l: seq<Entry>)
    ensures StreamParents(r.With(k, l)) + Parents(r.List(k), Stream) == StreamParents(r) + Parents(l, Stream)
    ensures r.With(k, l).List(k) == l
  {
  }

  /** Unlinking a stream entry and erasing its client keeps the correspondence. */
  lemma EraseStreamEntry(r: Registry, k: Kind, i: nat)
    requires StreamsMatch(r) && i < |r.List(k)| && r.List(k)[i].mode == Stream
    ensures var e := r.List(k)[i];
            var t := EraseClient(r.With(k, Unlink(r.List(k), i)), e.parent);
            && StreamsMatch(t) && ClientAt(t.clients, e.parent) == |t.clients|
            && e.parent in StreamParents(r)
  {
    hide StreamingAddrs, Parents;
    var l := r.List(k);
    var a := l[i].parent;
    var u := r.With(k, Unlink(l, i));
    ParentsUnlink(l, i, Stream);
    StreamParentsWith(r, k, Unlink(l, i));
    Cancel(StreamParents(r), StreamParents(u) + multiset{a}, Parents(Unlink(l, i), Stream));
    StreamParentLive(r, a);
    EraseClientStreams(u, a);
    ClientGone(u.clients, a);
    var t := EraseClient(u, a);
    assert StreamParents(t) == StreamParents(u);
    Cancel(StreamParents(t), StreamingAddrs(t.clients), multiset{a});
  }

  lemma Cancel(a: multiset<nat>, b: multiset<nat>, c: multiset<nat>)
    requires a + c == b + c
    ensures a == b
  {
    assert a == a + c - c && b == b + c - c;
  }

  // ---- samples ----

  lemma SampleFound(ss: seq<Cached>, i: nat)
    requires DistinctSamples(ss) && i < |ss|
    ensures SampleAt(ss, ss[i].addr) == i && SampleWithId(ss, ss[i].id) == i
  {
  }

  lemma SampleGone(ss: seq<Cached>, i: nat)
    requires DistinctSamples(ss) && i < |ss|
    ensures var u := Unlink(ss, i);
            && DistinctSamples(u)
            && (forall k :: 0 <= k < |u| ==> u[k] in ss && u[k].addr != ss[i].addr)
            && (forall a :: a != ss[i].addr && SampleAt(ss, a) < |ss| ==> SampleAt(u, a) < |u|)
            && SampleAt(u, ss[i].addr) == |u|
  {
    var u := Unlink(ss, i);
    forall k | 0 <= k < |u|
      ensures u[k] == ss[if k < i then k else k + 1]
    {
      UnlinkAt(ss, i, k);
    }
    forall a | a != ss[i].addr && SampleAt(ss, a) < |ss|
      ensures SampleAt(u, a) < |u|
    {
      var j := SampleAt(ss, a);
      assert j != i;
      UnlinkAt(ss, i, if j < i then j else j - 1);
    }
  }

  lemma SameAddresses(ss: seq<Cached>, tt: seq<Cached>, a: nat)
    requires |ss| == |tt| && forall k :: 0 <= k < |ss| ==> ss[k].addr == tt[k].addr
    ensures SampleAt(ss, a) == SampleAt(tt, a)
  {
    var i, j := SampleAt(ss, a), SampleAt(tt, a);
    assert i < |ss| ==> tt[i].addr == a;
    assert j < |tt| ==> ss[j].addr == a;
  }

  /** Replacing sample i by one with the same address and id. */
  lemma UpdateKeeps(ss: seq<Cached>, i: nat, s: Cached, pl: multiset<nat>)
    requires DistinctSamples(ss) && i < |ss| && s.addr == ss[i].addr && s.id == ss[i].id
    ensures DistinctSamples(ss[i := s])
    ensures AllCached(ss, pl) ==> AllCached(ss[i := s], pl)
  {
    if AllCached(ss, pl) {
      forall a | a in pl
        ensures SampleAt(ss[i := s], a) < |ss|
      {
        SameAddresses(ss, ss[i := s], a);
      }
    }
  }

  /** Removing a sample that nobody plays. */
  lemma RemoveKeeps(ss: seq<Cached>, i: nat, pl: multiset<nat>)
    requires DistinctSamples(ss) && AllCached(ss, pl) && i < |ss| && pl[ss[i].addr] == 0
    ensures DistinctSamples(Unlink(ss, i)) && AllCached(Unlink(ss, i), pl)
  {
    hide Unlink;
    SampleGone(ss, i);
  }

  lemma EraseSampleKeeps(ss: seq<Cached>, id: int, pl: multiset<nat>, nextId: int)
    requires CountsMatch(ss, pl, nextId)
    ensures CountsMatch(EraseSample(ss, id), pl, nextId)
  {
    hide Unlink, AllCached, DistinctSamples;
    var i := SampleWithId(ss, id);
    if i < |ss| {
      assert SampleOk(ss[i], pl, nextId);
      if ss[i].refs == 0 {
        RemoveKeeps(ss, i, pl);
        SampleGone(ss, i);
      } else {
        UpdateKeeps(ss, i, ss[i].(eraseWhenDone := true), pl);
      }
    }
  }

  /** Freeing a player of the sample at a: the counts stay right, and the sample
      goes away exactly when it was waiting and this was its last player. */
  lemma ReleaseSampleKeeps(ss: seq<Cached>, a: nat, pl: multiset<nat>, nextId: int)
    requires CountsMatch(ss, pl + multiset{a}, nextId)
    ensures CountsMatch(ReleaseSample(ss, a), pl, nextId)
    ensures var i := SampleAt(ss, a);
            i < |ss| && (SampleAt(ReleaseSample(ss, a), a) == |ReleaseSample(ss, a)|
                         <==> ss[i].eraseWhenDone && pl[a] == 0)
  {
    hide Unlink, AllCached, DistinctSamples, AllOk;
    var i := SampleAt(ss, a);
    assert i < |ss| by { CachedOne(ss, pl + multiset{a}, a); }
    assert SampleOk(ss[i], pl + multiset{a}, nextId) by { OkOne(ss, pl + multiset{a}, nextId, i); }
    var s := ss[i].(refs := ss[i].refs - 1);
    LessCached(ss, pl, a);
    UpdateKeeps(ss, i, s, pl);
    OthersOk(ss, i, a, pl, nextId);
    SampleFound(ss[i := s], i);
    if s.eraseWhenDone && s.refs == 0 {
      LastPlayer(ss[i := s], i, pl, nextId);
    } else {
      AllOkUpdate(ss[i := s], i, pl, nextId);
    }
  }

  lemma OkOne(ss: seq<Cached>, pl: multiset<nat>, nextId: int, i: nat)
    requires AllOk(ss, pl, nextId) && i < |ss|
    ensures SampleOk(ss[i], pl, nextId)
  {
  }

  lemma AllOkUpdate(tt: seq<Cached>, i: nat, pl: multiset<nat>, nextId: int)
    requires i < |tt| && SampleOk(tt[i], pl, nextId)
    requires forall k :: 0 <= k < |tt| && k != i ==> SampleOk(tt[k], pl, nextId)
    ensures AllOk(tt, pl, nextId)
  {
  }

  /** The sample at i has lost its last player and is taken out. */
  lemma LastPlayer(tt: seq<Cached>, i: nat, pl: multiset<nat>, nextId: int)
    requires DistinctSamples(tt) && AllCached(tt, pl) && i < |tt| && pl[tt[i].addr] == 0
    requires forall k :: 0 <= k < |tt| && k != i ==> SampleOk(tt[k], pl, nextId)
    ensures CountsMatch(Unlink(tt, i), pl, nextId) && SampleAt(Unlink(tt, i), tt[i].addr) == |Unlink(tt, i)|
  {
    hide Unlink, AllCached, DistinctSamples, AllOk, SampleOk;
    RemoveKeeps(tt, i, pl);
    SampleGone(tt, i);
    RestOk(tt, i, pl, nextId);
  }

  lemma CachedOne(ss: seq<Cached>, pl: multiset<nat>, a: nat)
    requires AllCached(ss, pl) && a in pl
    ensures SampleAt(ss, a) < |ss|
  {
  }

  lemma LessCached(ss: seq<Cached>, pl: multiset<nat>, a: nat)
    requires AllCached(ss, pl + multiset{a})
    ensures AllCached(ss, pl)
  {
    assert forall x :: x in pl ==> x in pl + multiset{a};
  }

  lemma OthersOk(ss: seq<Cached>, i: nat, a: nat, pl: multiset<nat>, nextId: int)
    requires DistinctSamples(ss) && AllOk(ss, pl + multiset{a}, nextId) && i < |ss| && ss[i].addr == a
    ensures forall k :: 0 <= k < |ss| && k != i ==> SampleOk(ss[k], pl, nextId)
  {
    forall k | 0 <= k < |ss| && k != i
      ensures SampleOk(ss[k], pl, nextId)
    {
      assert SampleOk(ss[k], pl + multiset{a}, nextId);
      assert ss[k].addr != a;
    }
  }

  lemma RestOk(tt: seq<Cached>, i: nat, pl: multiset<nat>, nextId: int)
    requires i < |tt| && forall k :: 0 <= k < |tt| && k != i ==> SampleOk(tt[k], pl, nextId)
    ensures AllOk(Unlink(tt, i), pl, nextId)
  {
    var u := Unlink(tt, i);
    forall k | 0 <= k < |u|
      ensures SampleOk(u[k], pl, nextId)
    {
      UnlinkAt(tt, i, k);
    }
  }

  // ---- erasing entries ----

  lemma StreamsAfterUnlink(l: seq<Entry>, i: nat)
    requires AllStreams(l) && i < |l|
    ensures AllStreams(Unlink(l, i))
  {
    forall k | 0 <= k < |l| - 1
      ensures Unlink(l, i)[k].mode == Stream
    {
      UnlinkAt(l, i, k);
    }
  }

  lemma DistinctAfterUnlink(l: seq<Entry>, i: nat)
    requires DistinctEntries(l) && i < |l|
    ensures DistinctEntries(Unlink(l, i))
  {
    forall k | 0 <= k < |l| - 1
      ensures Unlink(l, i)[k] == l[if k < i then k else k + 1]
    {
      UnlinkAt(l, i, k);
    }
  }

  lemma KindsAfterUnlink(r: Registry, k: Kind, i: nat)
    requires KindsMatch(r) && ListsDistinct(r) && i < |r.List(k)|
    ensures KindsMatch(r.With(k, Unlink(r.List(k), i))) && ListsDistinct(r.With(k, Unlink(r.List(k), i)))
  {
    hide Unlink, AllStreams, DistinctEntries;
    DistinctAfterUnlink(r.List(k), i);
    if k != Play { StreamsAfterUnlink(r.List(k), i); }
  }

  /** Unlinking a player of a sample. */
  lemma EraseSampleEntry(r: Registry, i: nat)
    requires Inv(r) && i < |r.players| && r.players[i].mode == Sample
    ensures Inv(FreePlayer(r.With(Play, Unlink(r.players, i)), r.players[i]))
  {
    hide Unlink, ReleaseSample, CountsMatch, Parents, StreamingAddrs, DistinctEntries;
    DistinctAfterUnlink(r.players, i);
    var e := r.players[i];
    var u := r.With(Play, Unlink(r.players, i));
    ParentsUnlink(r.players, i, Sample);
    ParentsUnlink(r.players, i, Stream);
    ReleaseSampleKeeps(r.samples, e.parent, Playing(u), r.nextId);
  }

  lemma EraseStreamKeeps(r: Registry, k: Kind, i: nat)
    requires Inv(r) && i < |r.List(k)| && r.List(k)[i].mode == Stream
    ensures Inv(FreePlayer(r.With(k, Unlink(r.List(k), i)), r.List(k)[i]))
  {
    hide Unlink, StreamsMatch, CountsMatch, Parents;
    EraseStreamEntry(r, k, i);
    KindsAfterUnlink(r, k, i);
    ParentsUnlink(r.List(k), i, Sample);
    var u := r.With(k, Unlink(r.List(k), i));
    assert Playing(u) == Playing(r) by { if k != Play { assert u.players == r.players; } }
  }

  lemma EraseEntryKeeps(r: Registry, k: Kind, a: nat)
    requires Inv(r)
    ensures Inv(EraseEntry(r, k, a))
  {
    hide Inv, Unlink, FreePlayer;
    var l := r.List(k);
    var i := EntryAt(l, a);
    if i < |l| {
      if l[i].mode == Stream {
        EraseStreamKeeps(r, k, i);
      } else {
        OnlyPlayersPlay(r, k, i);
        EraseSampleEntry(r, i);
      }
    }
  }

  lemma OnlyPlayersPlay(r: Registry, k: Kind, i: nat)
    requires Inv(r) && i < |r.List(k)| && r.List(k)[i].mode == Sample
    ensures k == Play
  {
  }

  /** Erasing the client first, as monitor_write and recorder_write do, ends in
      the same state: the second erase no longer finds it. */
  lemma DoubleErase(r: Registry, k: Kind, a: nat)
    requires Inv(r)
    ensures Drop(r, k, a) == EraseEntry(r, k, a)
  {
    var l := r.List(k);
    var i := EntryAt(l, a);
    if i < |l| && (k == Record || k == Monitor) {
      var p := l[i].parent;
      ClientGone(r.clients, p);
      EraseUnknown(EraseClient(r, p), p);
      assert l[i].mode == Stream;
    }
  }

  lemma {:induction false} SweepKeeps(r: Registry, k: Kind, order: seq<Entry>, fails: set<nat>)
    requires Inv(r)
    ensures Inv(Sweep(r, k, order, fails))
    decreases |order|
  {
    hide Inv, Drop, EraseEntry;
    if |order| > 0 {
      DoubleErase(r, k, order[0].addr);
      EraseEntryKeeps(r, k, order[0].addr);
      SweepKeeps(if order[0].addr in fails then Drop(r, k, order[0].addr) else r, k, order[1..], fails);
    }
  }

  /** The entries that did not fail, in order. */
  function Surviving(l: seq<Entry>, fails: set<nat>): seq<Entry> {
    if |l| == 0 then [] else (if l[0].addr in fails then [] else [l[0]]) + Surviving(l[1..], fails)
  }

  /** Removals made while walking a list visit every entry once: exactly those
      that failed are gone. */
  lemma {:induction false} SweepFilters(r: Registry, k: Kind, done: seq<Entry>, order: seq<Entry>, fails: set<nat>)
    requires Inv(r) && r.List(k) == done + order
    ensures Sweep(r, k, order, fails).List(k) == done + Surviving(order, fails)
    decreases |order|
  {
    hide Drop, EraseEntry, Inv;
    if |order| == 0 {
      assert done + [] == done;
    } else {
      var a, rest := order[0].addr, Surviving(order[1..], fails);
      if a in fails {
        DoubleErase(r, k, a);
        EraseEntryKeeps(r, k, a);
        DropHead(r, k, done, order);
        SweepFilters(Drop(r, k, a), k, done, order[1..], fails);
        assert [] + rest == rest;
      } else {
        assert done + order == (done + [order[0]]) + order[1..];
        SweepFilters(r, k, done + [order[0]], order[1..], fails);
        assert (done + [order[0]]) + rest == done + ([order[0]] + rest);
      }
    }
  }

  lemma DropHead(r: Registry, k: Kind, done: seq<Entry>, order: seq<Entry>)
    requires Inv(r) && r.List(k) == done + order && |order| > 0
    ensures EraseEntry(r, k, order[0].addr).List(k) == done + order[1..]
  {
    hide StreamsMatch, SamplesMatch, KindsMatch;
    var l := r.List(k);
    var i := EntryAt(l, order[0].addr);
    assert DistinctEntries(l);
    assert l[|done|] == order[0];
    assert i == |done|;
    assert Unlink(l, i) == done + order[1..];
    FreeKeepsLists(r.With(k, Unlink(l, i)), l[i], k);
  }

  lemma FreeKeepsLists(r: Registry, e: Entry, k: Kind)
    ensures FreePlayer(r, e).List(k) == r.List(k)
  {
  }

  // ---- every event keeps the invariants ----

  lemma NewEntryDistinct(r: Registry, k: Kind, e: Entry)
    requires ListsDistinct(r) && FreshEntry(r, e.addr)
    ensures ListsDistinct(r.With(k, [e] + r.List(k)))
  {
    var l := r.List(k);
    assert EntryAt(l, e.addr) == |l|;
    assert DistinctEntries(l);
    assert DistinctEntries([e] + l);
  }

  lemma NewStreamKinds(r: Registry, k: Kind, e: Entry)
    requires KindsMatch(r) && e.mode == Stream
    ensures KindsMatch(r.With(k, [e] + r.List(k)))
  {
  }

  /** A new stream entry adds its client to the parents, and no player of a sample. */
  lemma OpenParents(r: Registry, k: Kind, a: nat, e: nat)
    ensures var u := r.With(k, [Entry(e, Stream, a)] + r.List(k));
            StreamParents(u) == StreamParents(r) + multiset{a} && Playing(u) == Playing(r)
  {
    hide Parents, StreamParents;
    var n, l := Entry(e, Stream, a), r.List(k);
    var u := r.With(k, [n] + l);
    ParentsCons(n, l, Stream);
    ParentsCons(n, l, Sample);
    StreamParentsWith(r, k, [n] + l);
    Cancel(StreamParents(u), StreamParents(r) + multiset{a}, Parents(l, Stream));
    assert Playing(u) == Playing(r) by { if k != Play { assert u.players == r.players; } }
  }

  /** Setting a client's state leaves everything but the clients alone. */
  lemma SetStateRest(r: Registry, a: nat, st: ClientState)
    ensures var t := SetState(r, a, st);
            && t == r.(clients := t.clients) && StreamParents(t) == StreamParents(r)
            && (SamplesMatch(t) <==> SamplesMatch(r)) && (KindsMatch(t) <==> KindsMatch(r))
            && (ListsDistinct(t) <==> ListsDistinct(r))
  {
  }

  lemma OpenKeeps(r: Registry, k: Kind, a: nat, e: nat)
    requires Inv(r) && Served(r, a) && FreshEntry(r, e)
    ensures Inv(OpenStream(r, k, a, e))
  {
    hide StreamParents, Playing, StreamingAddrs, CountsMatch, KindsMatch, ListsDistinct, FreshEntry, DistinctClients,
        SetState;
    var n := Entry(e, Stream, a);
    var u := r.With(k, [n] + r.List(k));
    OpenParents(r, k, a, e);
    NewEntryDistinct(r, k, n);
    NewStreamKinds(r, k, n);
    StateKeepsClients(u, a, Streaming);
    SetStateRest(u, a, Streaming);
  }

  /** Changing the state of a client that is not streaming. */
  lemma StateKeepsClients(r: Registry, a: nat, st: ClientState)
    requires DistinctClients(r.clients) && Served(r, a)
    ensures var t := SetState(r, a, st);
            && DistinctClients(t.clients) && |t.clients| == |r.clients|
            && (forall i :: 0 <= i < |r.clients| ==> t.clients[i].addr == r.clients[i].addr)
            && t == r.(clients := t.clients)
            && StreamingAddrs(t.clients) == StreamingAddrs(r.clients) + OneIf(st == Streaming, a)
  {
    hide StreamingAddrs;
    var i := ClientAt(r.clients, a);
    var t := SetState(r, a, st);
    StreamingUpdate(r.clients, i, st);
    assert StreamingAddrs(t.clients) + multiset{} == StreamingAddrs(t.clients);
  }

  lemma CloseKeeps(r: Registry, a: nat)
    requires Inv(r) && Served(r, a)
    ensures Inv(EraseClient(r, a))
  {
    hide Parents, StreamingAddrs, CountsMatch, DistinctEntries, Unlink;
    ClientGone(r.clients, a);
    EraseClientStreams(r, a);
  }

  lemma AcceptKeeps(r: Registry, a: nat)
    requires Inv(r) && a != NULL && ClientAt(r.clients, a) == |r.clients|
    ensures Inv(r.(clients := [Client(a, NeedsData)] + r.clients))
  {
    hide Parents, CountsMatch, DistinctEntries;
    assert ([Client(a, NeedsData)] + r.clients)[1..] == r.clients;
  }

  lemma CacheKeeps(r: Registry, a: nat, s: nat, st: ClientState)
    requires Inv(r) && Served(r, a) && SampleAt(r.samples, s) == |r.samples| && st != Streaming
    ensures Inv(SetState(r.(samples := [Cached(s, r.nextId, 0, false)] + r.samples, nextId := r.nextId + 1), a, st))
  {
    hide Parents, StreamingAddrs, DistinctEntries, AllStreams, CountsMatch;
    var n := Cached(s, r.nextId, 0, false);
    var u := r.(samples := [n] + r.samples, nextId := r.nextId + 1);
    NewSample(r.samples, n, Playing(r), r.nextId);
    StateKeepsClients(u, a, st);
    assert StreamingAddrs(r.clients) + OneIf(false, a) == StreamingAddrs(r.clients);
  }

  lemma NewSample(ss: seq<Cached>, n: Cached, pl: multiset<nat>, nextId: int)
    requires CountsMatch(ss, pl, nextId) && SampleAt(ss, n.addr) == |ss| && nextId >= 1
    requires n == Cached(n.addr, nextId, 0, false)
    ensures CountsMatch([n] + ss, pl, nextId + 1)
  {
    hide SampleOk, AllCached;
    assert n.addr !in pl && AllCached([n] + ss, pl) by { ConsCached(ss, n, pl); }
    forall i | 0 <= i < |ss|
      ensures SampleOk(ss[i], pl, nextId + 1) && ss[i].id != n.id && ss[i].addr != n.addr
    {
      LaterOk(ss[i], pl, nextId);
    }
    FreshOk(n, pl);
  }

  lemma ConsCached(ss: seq<Cached>, n: Cached, pl: multiset<nat>)
    requires AllCached(ss, pl) && SampleAt(ss, n.addr) == |ss|
    ensures n.addr !in pl && AllCached([n] + ss, pl)
  {
    assert ([n] + ss)[1..] == ss;
  }

  lemma LaterOk(s: Cached, pl: multiset<nat>, nextId: int)
    requires SampleOk(s, pl, nextId)
    ensures SampleOk(s, pl, nextId + 1) && s.id != nextId
  {
  }

  lemma FreshOk(n: Cached, pl: multiset<nat>)
    requires n.addr !in pl && n.refs == 0 && !n.eraseWhenDone && n.id >= 1
    ensures SampleOk(n, pl, n.id + 1)
  {
  }

  lemma PlayKeeps(r: Registry, i: nat, e: nat)
    requires Inv(r) && i < |r.samples| && FreshEntry(r, e)
    ensures Inv(StartSample(r, i, e))
  {
    hide Parents, StreamingAddrs, DistinctEntries, AllStreams, CountsMatch, FreshEntry;
    var a := r.samples[i].addr;
    var n := Entry(e, Sample, a);
    NewEntryDistinct(r, Play, n);
    ParentsCons(n, r.players, Stream);
    ParentsCons(n, r.players, Sample);
    OneMore(r.samples, i, Playing(r), r.nextId);
  }

  lemma OneMore(ss: seq<Cached>, i: nat, pl: multiset<nat>, nextId: int)
    requires CountsMatch(ss, pl, nextId) && i < |ss|
    ensures CountsMatch(ss[i := ss[i].(refs := ss[i].refs + 1)], pl + multiset{ss[i].addr}, nextId)
  {
    var s := ss[i].(refs := ss[i].refs + 1);
    var tt := ss[i := s];
    UpdateKeeps(ss, i, s, pl);
    SampleFound(tt, i);
    forall k | 0 <= k < |tt|
      ensures SampleOk(tt[k], pl + multiset{s.addr}, nextId)
    {
      assert SampleOk(ss[k], pl, nextId);
      if k != i { assert tt[k].addr != s.addr; }
    }
  }

  lemma ApplyKeeps(r: Registry, ev: Event)
    requires Inv(r)
    ensures Inv(Apply(r, ev))
  {
    hide Inv, Sweep, OpenStream, StartSample, SetState, FreshEntry;
    match ev
    case Accept(a) => if a != NULL && ClientAt(r.clients, a) == |r.clients| { AcceptKeeps(r, a); }
    case Close(a) => if Served(r, a) { CloseKeeps(r, a); }
    case Open(k, a, e) => if Served(r, a) && FreshEntry(r, e) { OpenKeeps(r, k, a, e); }
    case RecordRefused(a, e) =>
      NullUnknown(r);
      EraseUnknown(r, NULL);
      if Served(r, a) { CloseKeeps(r, a); }
    case Cache(a, s, done) =>
      if Served(r, a) && SampleAt(r.samples, s) == |r.samples| {
        CacheKeeps(r, a, s, if done then NextRequest else Caching);
      }
    case CacheFailed => SkipId(r);
    case Free(id) => FreeKeeps(r, id);
    case PlaySample(id, e, made) =>
      var i := SampleWithId(r.samples, id);
      if i < |r.samples| && FreshEntry(r, e) { PlayKeeps(r, i, e); }
    case Walk(k, fails) => SweepKeeps(r, k, r.List(k), fails);
  }

  lemma NullUnknown(r: Registry)
    requires Inv(r)
    ensures ClientAt(r.clients, NULL) == |r.clients|
  {
  }

  lemma SkipId(r: Registry)
    requires Inv(r)
    ensures Inv(r.(nextId := r.nextId + 1))
  {
    hide Parents, StreamingAddrs, DistinctEntries, AllStreams, AllCached;
    forall i | 0 <= i < |r.samples|
      ensures SampleOk(r.samples[i], Playing(r), r.nextId + 1)
    {
      assert SampleOk(r.samples[i], Playing(r), r.nextId);
    }
  }

  lemma FreeKeeps(r: Registry, id: int)
    requires Inv(r)
    ensures Inv(r.(samples := EraseSample(r.samples, id)))
  {
    hide Parents, StreamingAddrs, DistinctEntries, AllStreams, CountsMatch;
    EraseSampleKeeps(r.samples, id, Playing(r), r.nextId);
  }

  /** In every reachable state: streaming clients and stream entries correspond
      one to one, every sample's count is the number of its players, and no
      entry's parent has been freed. */
  lemma {:induction false} Reachable(evs: seq<Event>)
    ensures Inv(Run(Start(), evs))
  {
    hide Apply;
    if |evs| > 0 {
      Reachable(evs[..|evs| - 1]);
      ApplyKeeps(Run(Start(), evs[..|evs| - 1]), evs[|evs| - 1]);
    }
  }

  // ---- what the invariants say ----

  lemma {:induction false} ParentKnown(l: seq<Entry>, a: nat)
    requires a in Parents(l, Stream)
    ensures HasEntry(l, a)
  {
    if l[0].mode == Stream && l[0].parent == a {
    } else {
      ParentKnown(l[1..], a);
      var i :| 0 <= i < |l[1..]| && l[1..][i].mode == Stream && l[1..][i].parent == a;
      assert l[i + 1].parent == a;
    }
  }

  /** A stream entry's parent is a live, streaming client. */
  lemma ParentIsLive(r: Registry, k: Kind, i: nat)
    requires Inv(r) && i < |r.List(k)| && r.List(k)[i].mode == Stream
    ensures var c := ClientAt(r.clients, r.List(k)[i].parent);
            c < |r.clients| && r.clients[c].state == Streaming
  {
    EraseStreamEntry(r, k, i);
    StreamParentLive(r, r.List(k)[i].parent);
  }

  /** No two stream entries, of whatever kind, share a client. */
  lemma ParentsDiffer(r: Registry, k: Kind, i: nat, m: Kind, j: nat)
    requires Inv(r) && i < |r.List(k)| && j < |r.List(m)| && (k != m || i != j)
    requires r.List(k)[i].mode == Stream && r.List(m)[j].mode == Stream
    ensures r.List(k)[i].parent != r.List(m)[j].parent
  {
    hide Parents, StreamingAddrs, Unlink, DistinctEntries, CountsMatch;
    var l := r.List(k);
    var a := l[i].parent;
    if r.List(m)[j].parent == a {
      var u := r.With(k, Unlink(l, i));
      EraseStreamEntry(r, k, i);
      var t := EraseClient(u, a);
      var j' := if k == m && j > i then j - 1 else j;
      if k == m { UnlinkAt(l, i, j'); }
      assert t.List(m)[j'].parent == a && t.List(m)[j'].mode == Stream;
      EraseStreamEntry(t, m, j');
      StreamParentLive(t, a);
    }
  }

  ghost predicate HasEntry(l: seq<Entry>, a: nat) {
    exists i :: 0 <= i < |l| && l[i].mode == Stream && l[i].parent == a
  }

  /** Every streaming client has an entry. */
  lemma ClientHasEntry(r: Registry, c: nat)
    requires Inv(r) && c < |r.clients| && r.clients[c].state == Streaming
    ensures exists k: Kind :: HasEntry(r.List(k), r.clients[c].addr)
  {
    hide Parents, StreamingAddrs, HasEntry, Unlink;
    var a := r.clients[c].addr;
    StreamingPart(r.clients, c);
    assert a in StreamParents(r);
    if a in Parents(r.players, Stream) {
      ParentKnown(r.List(Play), a);
    } else if a in Parents(r.recorders, Stream) {
      ParentKnown(r.List(Record), a);
    } else if a in Parents(r.monitors, Stream) {
      ParentKnown(r.List(Monitor), a);
    } else {
      ParentKnown(r.List(Filter), a);
    }
  }

  // ---- deferred deletion ----

  /** The sample at address a has been freed by its owner but is still there. */
  predicate Waits(ss: seq<Cached>, a: nat) {
    var i := SampleAt(ss, a);
    i < |ss| && ss[i].eraseWhenDone
  }

  predicate Present(ss: seq<Cached>, a: nat) { SampleAt(ss, a) < |ss| }

  lemma WaitsUnlink(ss: seq<Cached>, i: nat, a: nat)
    requires DistinctSamples(ss) && i < |ss| && Waits(ss, a)
    ensures Present(Unlink(ss, i), a) ==> Waits(Unlink(ss, i), a)
  {
    var u := Unlink(ss, i);
    var j := SampleAt(u, a);
    if j < |u| {
      UnlinkAt(ss, i, j);
      SampleFound(ss, if j < i then j else j + 1);
    }
  }

  lemma WaitsUpdate(ss: seq<Cached>, i: nat, s: Cached, a: nat)
    requires i < |ss| && s.addr == ss[i].addr && (ss[i].eraseWhenDone ==> s.eraseWhenDone) && Waits(ss, a)
    ensures Waits(ss[i := s], a)
  {
    SameAddresses(ss, ss[i := s], a);
  }

  lemma WaitsErase(ss: seq<Cached>, id: int, a: nat)
    requires DistinctSamples(ss) && Waits(ss, a)
    ensures Present(EraseSample(ss, id), a) ==> Waits(EraseSample(ss, id), a)
  {
    hide Unlink, Waits, Present;
    var i := SampleWithId(ss, id);
    if i < |ss| {
      if ss[i].refs == 0 { WaitsUnlink(ss, i, a); } else { WaitsUpdate(ss, i, ss[i].(eraseWhenDone := true), a); }
    } else {
      assert EraseSample(ss, id) == ss;
    }
  }

  lemma WaitsRelease(ss: seq<Cached>, b: nat, a: nat)
    requires DistinctSamples(ss) && Waits(ss, a)
    ensures Present(ReleaseSample(ss, b), a) ==> Waits(ReleaseSample(ss, b), a)
  {
    hide EraseSample, Waits, Present;
    var i := SampleAt(ss, b);
    if i < |ss| {
      var s := ss[i].(refs := ss[i].refs - 1);
      WaitsUpdate(ss, i, s, a);
      UpdateKeeps(ss, i, s, multiset{});
      WaitsErase(ss[i := s], s.id, a);
    }
  }

  lemma {:induction false} WaitsSweep(r: Registry, k: Kind, order: seq<Entry>, fails: set<nat>, a: nat)
    requires Inv(r) && Waits(r.samples, a)
    ensures var t := Sweep(r, k, order, fails);
            Present(t.samples, a) ==> Waits(t.samples, a)
    decreases |order|
  {
    hide Drop, EraseEntry, Waits, Present, Inv;
    if |order| > 0 {
      var e := order[0].addr;
      var t := if e in fails then Drop(r, k, e) else r;
      DoubleErase(r, k, e);
      EraseEntryKeeps(r, k, e);
      WaitsEraseEntry(r, k, e, a);
      if Waits(t.samples, a) {
        WaitsSweep(t, k, order[1..], fails, a);
      } else {
        GoneSweep(t, k, order[1..], fails, a);
      }
    }
  }

  lemma WaitsEraseEntry(r: Registry, k: Kind, e: nat, a: nat)
    requires Inv(r) && Waits(r.samples, a)
    ensures var t := EraseEntry(r, k, e);
            Present(t.samples, a) ==> Waits(t.samples, a)
  {
    hide Waits, Present, ReleaseSample, Unlink;
    var l := r.List(k);
    var i := EntryAt(l, e);
    if i < |l| {
      WaitsRelease(r.samples, l[i].parent, a);
    }
  }

  /** Walking a list never brings a sample back. */
  lemma {:induction false} GoneSweep(r: Registry, k: Kind, order: seq<Entry>, fails: set<nat>, a: nat)
    requires Inv(r) && !Present(r.samples, a)
    ensures !Present(Sweep(r, k, order, fails).samples, a)
    decreases |order|
  {
    hide Drop, EraseEntry, Present, Inv;
    if |order| > 0 {
      var e := order[0].addr;
      var t := if e in fails then Drop(r, k, e) else r;
      DoubleErase(r, k, e);
      EraseEntryKeeps(r, k, e);
      GoneEraseEntry(r, k, e, a);
      GoneSweep(t, k, order[1..], fails, a);
    }
  }

  lemma GoneEraseEntry(r: Registry, k: Kind, e: nat, a: nat)
    requires Inv(r) && !Present(r.samples, a)
    ensures !Present(EraseEntry(r, k, e).samples, a)
  {
    hide Present, ReleaseSample, Unlink;
    var l := r.List(k);
    var i := EntryAt(l, e);
    if i < |l| { GoneRelease(r.samples, l[i].parent, a); }
  }

  lemma GoneRelease(ss: seq<Cached>, b: nat, a: nat)
    requires DistinctSamples(ss) && !Present(ss, a)
    ensures !Present(ReleaseSample(ss, b), a)
  {
    var i := SampleAt(ss, b);
    if i < |ss| {
      var s := ss[i].(refs := ss[i].refs - 1);
      SameAddresses(ss, ss[i := s], a);
      UpdateKeeps(ss, i, s, multiset{});
      SampleFound(ss[i := s], i);
      if s.eraseWhenDone && s.refs == 0 { SampleGone(ss[i := s], i); }
    }
  }

  /** A sample freed by its owner is still there after an event exactly when it
      still has a player: it disappears with its last player and not before. */
  lemma WaitingSample(r: Registry, ev: Event, a: nat)
    requires Inv(r) && Waits(r.samples, a)
    ensures Present(Apply(r, ev).samples, a) <==> a in Playing(Apply(r, ev))
  {
    ApplyKeeps(r, ev);
    WaitsApply(r, ev, a);
    WaitingPlays(Apply(r, ev), a);
  }

  lemma WaitingPlays(t: Registry, a: nat)
    requires Inv(t) && (Present(t.samples, a) ==> Waits(t.samples, a))
    ensures Present(t.samples, a) <==> a in Playing(t)
  {
    var i := SampleAt(t.samples, a);
    if i < |t.samples| { assert SampleOk(t.samples[i], Playing(t), t.nextId); }
  }

  lemma WaitsApply(r: Registry, ev: Event, a: nat)
    requires Inv(r) && Waits(r.samples, a)
    ensures Present(Apply(r, ev).samples, a) ==> Waits(Apply(r, ev).samples, a)
  {
    hide Sweep, FreshEntry, EraseSample, EraseClient, Waits, Present, SetState, Served, Inv, DistinctSamples;
    SamplesDistinct(r);
    match ev
    case Accept(_) =>
    case Close(c) => EraseClientSamples(r, c);
    case Open(k, c, e) =>
      WithSamples(r, k, [Entry(e, Stream, c)] + r.List(k));
      SetStateSamples(r.With(k, [Entry(e, Stream, c)] + r.List(k)), c, Streaming);
    case RecordRefused(c, e) =>
      EraseClientSamples(r, NULL);
      EraseClientSamples(EraseClient(r, NULL), c);
    case Cache(c, s, done) =>
      var u := r.(samples := [Cached(s, r.nextId, 0, false)] + r.samples, nextId := r.nextId + 1);
      SetStateSamples(u, c, if done then NextRequest else Caching);
      WaitsCons(Cached(s, r.nextId, 0, false), r.samples, a);
    case CacheFailed =>
    case Free(id) => WaitsErase(r.samples, id, a);
    case PlaySample(id, e, made) =>
      var i := SampleWithId(r.samples, id);
      if i < |r.samples| { WaitsUpdate(r.samples, i, r.samples[i].(refs := r.samples[i].refs + 1), a); }
    case Walk(k, fails) => WaitsSweep(r, k, r.List(k), fails, a);
  }

  lemma SamplesDistinct(r: Registry)
    requires Inv(r)
    ensures DistinctSamples(r.samples)
  {
  }

  lemma WaitsCons(s: Cached, ss: seq<Cached>, a: nat)
    requires Waits(ss, a)
    ensures SampleAt(ss, s.addr) == |ss| ==> Waits([s] + ss, a)
  {
    assert ([s] + ss)[1..] == ss;
  }

  lemma SetStateSamples(r: Registry, c: nat, st: ClientState)
    ensures SetState(r, c, st).samples == r.samples
  {
  }

  lemma EraseClientSamples(r: Registry, c: nat)
    ensures EraseClient(r, c).samples == r.samples
  {
  }

  lemma WithSamples(r: Registry, k: Kind, l: seq<Entry>)
    ensures r.With(k, l).samples == r.samples
  {
  }
}
