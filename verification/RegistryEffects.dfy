/** What the registry's events bring about, and what becomes of a freed sample over
    the rest of a run. */
module RegistryEffects {
  import opened RegistrySpec
  import opened RegistryProofs

  // ---- what each event does ----

  predicate KnownClient(r: Registry, a: nat) { ClientAt(r.clients, a) < |r.clients| }

  predicate StateIs(r: Registry, a: nat, st: ClientState) {
    KnownClient(r, a) && r.clients[ClientAt(r.clients, a)].state == st
  }

  /** An address is free for a new entry when no list uses it. */
  lemma FreshIff(r: Registry, a: nat)
    ensures FreshEntry(r, a) <==> a != NULL && forall k: Kind, i :: 0 <= i < |r.List(k)| ==> r.List(k)[i].addr != a
  {
    if a != NULL && forall k: Kind, i :: 0 <= i < |r.List(k)| ==> r.List(k)[i].addr != a {
      forall k: Kind
        ensures EntryAt(r.List(k), a) == |r.List(k)|
      {
        assert forall i :: 0 <= i < |r.List(k)| ==> r.List(k)[i].addr != a;
      }
    }
  }

  /** A client that connects is known, and its request will be served. */
  lemma AcceptAdds(r: Registry, a: nat)
    requires a != NULL && !KnownClient(r, a)
    ensures StateIs(Apply(r, Accept(a)), a, NeedsData) && Served(Apply(r, Accept(a)), a)
    ensures Apply(r, Accept(a)).clients[1..] == r.clients
  {
  }

  /** A client whose request failed is gone, the others are still known. */
  lemma CloseRemoves(r: Registry, a: nat, b: nat)
    requires Inv(r) && Served(r, a)
    ensures !KnownClient(Apply(r, Close(a)), a)
    ensures b != a ==> (KnownClient(Apply(r, Close(a)), b) <==> KnownClient(r, b))
  {
    hide StreamingAddrs, StreamParents, SamplesMatch, KindsMatch, ListsDistinct;
    ClientGone(r.clients, a);
    if b != a && KnownClient(r, b) { StillKnown(r.clients, ClientAt(r.clients, a), b); }
  }

  lemma StillKnown(cs: seq<Client>, i: nat, b: nat)
    requires i < |cs| && cs[i].addr != b && ClientAt(cs, b) < |cs|
    ensures ClientAt(Unlink(cs, i), b) < |Unlink(cs, i)|
  {
    var j := ClientAt(cs, b);
    UnlinkAt(cs, i, if j < i then j else j - 1);
  }

  /** A stream request puts one entry at the head of its list, for its client, which
      streams from then on; the other lists are as they were. */
  lemma OpenAdds(r: Registry, k: Kind, a: nat, e: nat, other: Kind)
    requires Inv(r) && Served(r, a) && FreshEntry(r, e)
    ensures var t := Apply(r, Open(k, a, e));
            && t.List(k) == [Entry(e, Stream, a)] + r.List(k) && StateIs(t, a, Streaming)
            && (other != k ==> t.List(other) == r.List(other)) && t.samples == r.samples && t.playing == r.playing
  {
    hide Inv, FreshEntry;
    SameClients(r.clients, ClientAt(r.clients, a), Streaming);
  }

  lemma SameClients(cs: seq<Client>, i: nat, st: ClientState)
    requires i < |cs| && ClientAt(cs, cs[i].addr) == i
    ensures ClientAt(cs[i := cs[i].(state := st)], cs[i].addr) == i
  {
    var tt := cs[i := cs[i].(state := st)];
    var j := ClientAt(tt, cs[i].addr);
    assert forall k :: 0 <= k < i ==> tt[k] == cs[k];
  }

  /** A recorder that is refused loses its client and leaves nothing behind. */
  lemma RefusedGone(r: Registry, a: nat, e: nat)
    requires Inv(r) && Served(r, a)
    ensures Apply(r, RecordRefused(a, e)) == Apply(r, Close(a))
  {
    NullUnknown(r);
    EraseUnknown(r, NULL);
  }

  /** A cached sample is listed under a new id, with no player and not to be erased. */
  lemma CacheAdds(r: Registry, a: nat, s: nat, done: bool)
    requires Inv(r) && Served(r, a) && SampleAt(r.samples, s) == |r.samples|
    ensures var t := Apply(r, Cache(a, s, done));
            && t.samples == [Cached(s, r.nextId, 0, false)] + r.samples && t.nextId == r.nextId + 1
            && SampleWithId(r.samples, r.nextId) == |r.samples| && SampleWithId(t.samples, r.nextId) == 0
            && StateIs(t, a, if done then NextRequest else Caching)
  {
    hide StreamsMatch, KindsMatch, ListsDistinct;
    IdsBelow(r);
    SameClients(r.clients, ClientAt(r.clients, a), if done then NextRequest else Caching);
  }

  lemma IdsBelow(r: Registry)
    requires Inv(r)
    ensures forall k :: 0 <= k < |r.samples| ==> r.samples[k].id < r.nextId
  {
    hide StreamsMatch, KindsMatch, ListsDistinct, Parents;
    forall k | 0 <= k < |r.samples|
      ensures r.samples[k].id < r.nextId
    {
      assert SampleOk(r.samples[k], Playing(r), r.nextId);
    }
  }

  /** Playing a sample adds one player of it, at the head of the list. */
  lemma PlayAdds(r: Registry, id: int, e: nat)
    requires Inv(r) && FreshEntry(r, e) && SampleWithId(r.samples, id) < |r.samples|
    ensures var t, a := Apply(r, PlaySample(id, e, true)), r.samples[SampleWithId(r.samples, id)].addr;
            && t.players == [Entry(e, Sample, a)] + r.players && t.playing == r.playing + 1
            && Playing(t) == Playing(r) + multiset{a}
    ensures Apply(r, PlaySample(id, e, false)) == r
  {
    hide Inv, FreshEntry;
    var a := r.samples[SampleWithId(r.samples, id)].addr;
    ParentsCons(Entry(e, Sample, a), r.players, Sample);
  }

  // ---- freeing a sample ----

  /** Freeing a sample that is being played marks it; one that is not goes at once. */
  lemma FreeMarks(r: Registry, id: int)
    requires Inv(r) && SampleWithId(r.samples, id) < |r.samples|
    ensures var a, t := r.samples[SampleWithId(r.samples, id)].addr, Apply(r, Free(id));
            && (a in Playing(r) ==> Waits(t.samples, a))
            && (a !in Playing(r) ==> !Present(t.samples, a) && SampleWithId(t.samples, id) == |t.samples|)
            && Playing(t) == Playing(r)
  {
    hide StreamsMatch, KindsMatch, ListsDistinct, Parents, Unlink, Waits, Present;
    var i := SampleWithId(r.samples, id);
    assert SampleOk(r.samples[i], Playing(r), r.nextId);
    SampleFound(r.samples, i);
    if r.samples[i].refs == 0 {
      Gone(r.samples, i);
    } else {
      Marked(r.samples, i);
    }
  }

  lemma Gone(ss: seq<Cached>, i: nat)
    requires DistinctSamples(ss) && i < |ss|
    ensures !Present(Unlink(ss, i), ss[i].addr)
    ensures SampleWithId(Unlink(ss, i), ss[i].id) == |Unlink(ss, i)|
  {
    hide Unlink;
    SampleGone(ss, i);
    IdGone(ss, i);
  }

  lemma Marked(ss: seq<Cached>, i: nat)
    requires i < |ss| && SampleAt(ss, ss[i].addr) == i
    ensures Waits(ss[i := ss[i].(eraseWhenDone := true)], ss[i].addr)
  {
    SameAddresses(ss, ss[i := ss[i].(eraseWhenDone := true)], ss[i].addr);
  }

  lemma IdGone(ss: seq<Cached>, i: nat)
    requires DistinctSamples(ss) && i < |ss|
    ensures SampleWithId(Unlink(ss, i), ss[i].id) == |Unlink(ss, i)|
  {
    var u := Unlink(ss, i);
    forall k | 0 <= k < |u|
      ensures u[k].id != ss[i].id
    {
      UnlinkAt(ss, i, k);
    }
  }

  // ---- samples keep their id and address, and stay marked ----

  predicate Same(s: Cached, t: Cached) { s.id == t.id && s.addr == t.addr && (s.eraseWhenDone ==> t.eraseWhenDone) }

  ghost predicate ComesFrom(ss: seq<Cached>, t: Cached) { exists i :: 0 <= i < |ss| && Same(ss[i], t) }

  /** Every sample of tt was in ss, or is new: with an id from n on, at an address
      that is none of those to avoid. */
  ghost predicate Descends(ss: seq<Cached>, tt: seq<Cached>, n: int, avoid: set<nat>) {
    forall k :: 0 <= k < |tt| ==> ComesFrom(ss, tt[k]) || (tt[k].id >= n && tt[k].addr !in avoid)
  }

  lemma DescendsSelf(ss: seq<Cached>, n: int, avoid: set<nat>)
    ensures Descends(ss, ss, n, avoid)
  {
    forall k | 0 <= k < |ss|
      ensures ComesFrom(ss, ss[k])
    {
      assert Same(ss[k], ss[k]);
    }
  }

  lemma DescendsOn(ss: seq<Cached>, tt: seq<Cached>, uu: seq<Cached>, n: int, avoid: set<nat>)
    requires Descends(ss, tt, n, avoid) && Descends(tt, uu, n, avoid)
    ensures Descends(ss, uu, n, avoid)
  {
    forall k | 0 <= k < |uu| && ComesFrom(tt, uu[k])
      ensures ComesFrom(ss, uu[k]) || (uu[k].id >= n && uu[k].addr !in avoid)
    {
      var j :| 0 <= j < |tt| && Same(tt[j], uu[k]);
      if ComesFrom(ss, tt[j]) {
        var i :| 0 <= i < |ss| && Same(ss[i], tt[j]);
        assert Same(ss[i], uu[k]);
      }
    }
  }

  lemma DescendsUnlink(ss: seq<Cached>, i: nat, n: int, avoid: set<nat>)
    requires i <= |ss|
    ensures Descends(ss, Unlink(ss, i), n, avoid)
  {
    DescendsSelf(ss, n, avoid);
    if i < |ss| {
      forall k | 0 <= k < |ss| - 1
        ensures ComesFrom(ss, Unlink(ss, i)[k])
      {
        UnlinkAt(ss, i, k);
        assert Same(ss[if k < i then k else k + 1], Unlink(ss, i)[k]);
      }
    }
  }

  lemma DescendsUpdate(ss: seq<Cached>, i: nat, s: Cached, n: int, avoid: set<nat>)
    requires i < |ss| && Same(ss[i], s)
    ensures Descends(ss, ss[i := s], n, avoid)
  {
    var tt := ss[i := s];
    forall k | 0 <= k < |tt|
      ensures ComesFrom(ss, tt[k])
    {
      assert Same(ss[k], tt[k]);
    }
  }

  lemma DescendsErase(ss: seq<Cached>, id: int, n: int, avoid: set<nat>)
    ensures Descends(ss, EraseSample(ss, id), n, avoid)
  {
    hide Descends, Unlink;
    var i := SampleWithId(ss, id);
    DescendsSelf(ss, n, avoid);
    DescendsUnlink(ss, i, n, avoid);
    if i < |ss| { DescendsUpdate(ss, i, ss[i].(eraseWhenDone := true), n, avoid); }
  }

  lemma DescendsRelease(ss: seq<Cached>, a: nat, n: int, avoid: set<nat>)
    ensures Descends(ss, ReleaseSample(ss, a), n, avoid)
  {
    hide Descends, EraseSample;
    var i := SampleAt(ss, a);
    DescendsSelf(ss, n, avoid);
    if i < |ss| {
      var s := ss[i].(refs := ss[i].refs - 1);
      DescendsUpdate(ss, i, s, n, avoid);
      DescendsErase(ss[i := s], s.id, n, avoid);
      DescendsOn(ss, ss[i := s], EraseSample(ss[i := s], s.id), n, avoid);
    }
  }

  lemma DescendsEntry(r: Registry, k: Kind, a: nat, n: int, avoid: set<nat>)
    ensures Descends(r.samples, EraseEntry(r, k, a).samples, n, avoid)
  {
    hide Descends, ReleaseSample, Unlink;
    var l := r.List(k);
    var i := EntryAt(l, a);
    DescendsSelf(r.samples, n, avoid);
    if i < |l| { DescendsRelease(r.samples, l[i].parent, n, avoid); }
  }

  lemma {:induction false} DescendsSweep(r: Registry, k: Kind, order: seq<Entry>, fails: set<nat>, n: int,
                                         avoid: set<nat>)
    ensures Descends(r.samples, Sweep(r, k, order, fails).samples, n, avoid)
    decreases |order|
  {
    hide Descends, EraseEntry, EraseClient;
    if |order| == 0 {
      DescendsSelf(r.samples, n, avoid);
    } else {
      var u := if order[0].addr in fails then Drop(r, k, order[0].addr) else r;
      DescendsDrop(r, k, order[0].addr, n, avoid);
      DescendsSelf(r.samples, n, avoid);
      DescendsSweep(u, k, order[1..], fails, n, avoid);
      DescendsOn(r.samples, u.samples, Sweep(u, k, order[1..], fails).samples, n, avoid);
    }
  }

  lemma DescendsDrop(r: Registry, k: Kind, a: nat, n: int, avoid: set<nat>)
    ensures Descends(r.samples, Drop(r, k, a).samples, n, avoid)
  {
    hide Descends, EraseEntry;
    DescendsSelf(r.samples, n, avoid);
    var l := r.List(k);
    var i := EntryAt(l, a);
    if i < |l| {
      DescendsEntry(EraseClient(r, l[i].parent), k, a, n, avoid);
      DescendsEntry(r, k, a, n, avoid);
    }
  }

  /** No event puts a new sample at an address to avoid. */
  predicate Avoids(ev: Event, avoid: set<nat>) { ev.Cache? ==> ev.sample !in avoid }

  lemma DescendsApply(r: Registry, ev: Event, n: int, avoid: set<nat>)
    requires n <= r.nextId && Avoids(ev, avoid)
    ensures Descends(r.samples, Apply(r, ev).samples, n, avoid) && n <= Apply(r, ev).nextId
  {
    hide Descends, Sweep, FreshEntry, EraseSample, Served;
    DescendsSelf(r.samples, n, avoid);
    match ev
    case Accept(_) =>
    case Close(_) =>
    case Open(_, _, _) =>
    case RecordRefused(_, _) =>
    case Cache(_, s, _) => DescendsCons(r.samples, Cached(s, r.nextId, 0, false), n, avoid);
    case CacheFailed =>
    case Free(id) => DescendsErase(r.samples, id, n, avoid);
    case PlaySample(id, _, _) =>
      var i := SampleWithId(r.samples, id);
      if i < |r.samples| { DescendsUpdate(r.samples, i, r.samples[i].(refs := r.samples[i].refs + 1), n, avoid); }
    case Walk(k, fails) =>
      DescendsSweep(r, k, r.List(k), fails, n, avoid);
      SweepCounter(r, k, r.List(k), fails);
  }

  lemma DescendsCons(ss: seq<Cached>, s: Cached, n: int, avoid: set<nat>)
    requires s.id >= n && s.addr !in avoid
    ensures Descends(ss, [s] + ss, n, avoid)
  {
    DescendsSelf(ss, n, avoid);
    assert forall k :: 0 < k <= |ss| ==> ([s] + ss)[k] == ss[k - 1];
  }

  lemma {:induction false} SweepCounter(r: Registry, k: Kind, order: seq<Entry>, fails: set<nat>)
    ensures Sweep(r, k, order, fails).nextId == r.nextId
    decreases |order|
  {
    if |order| > 0 {
      SweepCounter(if order[0].addr in fails then Drop(r, k, order[0].addr) else r, k, order[1..], fails);
    }
  }

  lemma {:induction false} DescendsRun(r: Registry, evs: seq<Event>, n: int, avoid: set<nat>)
    requires Inv(r) && n <= r.nextId && forall i :: 0 <= i < |evs| ==> Avoids(evs[i], avoid)
    ensures Inv(Run(r, evs)) && Descends(r.samples, Run(r, evs).samples, n, avoid) && n <= Run(r, evs).nextId
  {
    hide Descends, Apply, Inv, Avoids;
    if |evs| == 0 {
      DescendsSelf(r.samples, n, avoid);
    } else {
      var t := Run(r, evs[..|evs| - 1]);
      var last := evs[|evs| - 1];
      DescendsRun(r, evs[..|evs| - 1], n, avoid);
      DescendsApply(t, last, n, avoid);
      ApplyKeeps(t, last);
      DescendsOn(r.samples, t.samples, Apply(t, last).samples, n, avoid);
    }
  }

  // ---- the rest of a freed sample's life ----

  /** A marked sample that is listed is being played. */
  lemma MarkedIsPlayed(t: Registry, j: nat)
    requires Inv(t) && j < |t.samples| && t.samples[j].eraseWhenDone
    ensures t.samples[j].addr in Playing(t)
  {
    hide StreamsMatch, KindsMatch, ListsDistinct, Parents;
    assert SampleOk(t.samples[j], Playing(t), t.nextId);
  }

  /** Once freed, in every state of the rest of the run: if the id is still listed, the
      sample is marked, at its old address, and being played. */
  lemma FreedLife(r: Registry, id: int, evs: seq<Event>)
    requires Inv(r) && SampleWithId(r.samples, id) < |r.samples|
    ensures var a, t := r.samples[SampleWithId(r.samples, id)].addr, Run(Apply(r, Free(id)), evs);
            var j := SampleWithId(t.samples, id);
            j < |t.samples| ==> t.samples[j].addr == a && t.samples[j].eraseWhenDone && a in Playing(t)
  {
    hide Apply, Descends, Run;
    var u := Apply(r, Free(id));
    var t := Run(u, evs);
    var j := SampleWithId(t.samples, id);
    ApplyKeeps(r, Free(id));
    FreedNow(r, id);
    assert forall i :: 0 <= i < |evs| ==> Avoids(evs[i], {});
    DescendsRun(u, evs, u.nextId, {});
    if j < |t.samples| {
      FreedStays(u, t, id, r.samples[SampleWithId(r.samples, id)].addr, j);
      MarkedIsPlayed(t, j);
    }
  }

  /** Right after it was freed: the id, if listed, is marked and where it was. */
  ghost predicate FreedAt(u: Registry, id: int, a: nat) {
    && id < u.nextId
    && forall k :: 0 <= k < |u.samples| && (u.samples[k].id == id || u.samples[k].addr == a) ==>
         u.samples[k].id == id && u.samples[k].addr == a && u.samples[k].eraseWhenDone
  }

  lemma FreedNow(r: Registry, id: int)
    requires Inv(r) && SampleWithId(r.samples, id) < |r.samples|
    ensures FreedAt(Apply(r, Free(id)), id, r.samples[SampleWithId(r.samples, id)].addr)
  {
    hide StreamsMatch, KindsMatch, ListsDistinct, Parents;
    var i := SampleWithId(r.samples, id);
    var u := Apply(r, Free(id));
    assert SampleOk(r.samples[i], Playing(r), r.nextId);
    if r.samples[i].refs == 0 {
      forall k | 0 <= k < |u.samples|
        ensures u.samples[k].id != id && u.samples[k].addr != r.samples[i].addr
      {
        UnlinkAt(r.samples, i, k);
      }
    }
  }

  lemma FreedStays(u: Registry, t: Registry, id: int, a: nat, j: nat)
    requires FreedAt(u, id, a) && Descends(u.samples, t.samples, u.nextId, {})
    requires j < |t.samples| && t.samples[j].id == id
    ensures t.samples[j].addr == a && t.samples[j].eraseWhenDone
  {
    var i :| 0 <= i < |u.samples| && Same(u.samples[i], t.samples[j]);
  }

  /** As long as its address is not used again: listed exactly while it is played. */
  lemma FreedIff(r: Registry, id: int, evs: seq<Event>)
    requires Inv(r) && SampleWithId(r.samples, id) < |r.samples|
    requires forall i :: 0 <= i < |evs| ==> Avoids(evs[i], {r.samples[SampleWithId(r.samples, id)].addr})
    ensures var a, t := r.samples[SampleWithId(r.samples, id)].addr, Run(Apply(r, Free(id)), evs);
            SampleWithId(t.samples, id) < |t.samples| <==> a in Playing(t)
  {
    hide Apply, Descends, Run, Avoids;
    var a, u := r.samples[SampleWithId(r.samples, id)].addr, Apply(r, Free(id));
    var t := Run(u, evs);
    ApplyKeeps(r, Free(id));
    FreedNow(r, id);
    FreedLife(r, id, evs);
    DescendsRun(u, evs, u.nextId, {a});
    if a in Playing(t) { PlayedIsListed(u, t, id, a); }
  }

  lemma PlayedIsListed(u: Registry, t: Registry, id: int, a: nat)
    requires FreedAt(u, id, a) && Inv(t) && Descends(u.samples, t.samples, u.nextId, {a}) && a in Playing(t)
    ensures SampleWithId(t.samples, id) < |t.samples|
  {
    hide StreamsMatch, KindsMatch, ListsDistinct, Parents;
    var j := SampleAt(t.samples, a);
    assert j < |t.samples|;
    assert ComesFrom(u.samples, t.samples[j]);
    var i :| 0 <= i < |u.samples| && Same(u.samples[i], t.samples[j]);
    assert t.samples[j].id == id;
  }
}
