/** The daemon's lists as they are in memory: nodes linked by `next`, unlinked in
    place with the help of their predecessor. Clients, players, recorders,
    monitors, filters and samples are all kept this way. */
module LinkedLists {
  import opened RegistrySpec

  class Node<T> {
    var value: T
    var next: Node?<T>

    constructor (value: T, next: Node?<T>)
      ensures this.value == value && this.next == next
    {
      this.value, this.next := value, next;
    }
  }

  /** Where the first value that satisfies p is, or the length. */
  function First<T>(s: seq<T>, p: T -> bool): (i: nat)
    ensures i <= |s| && (i < |s| ==> p(s[i])) && forall k :: 0 <= k < i ==> !p(s[k])
  {
    if |s| == 0 || p(s[0]) then 0 else 1 + First(s[1..], p)
  }

  lemma FirstIs<T>(s: seq<T>, p: T -> bool, i: nat)
    requires i <= |s| && (i < |s| ==> p(s[i])) && forall k :: 0 <= k < i ==> !p(s[k])
    ensures First(s, p) == i
  {
  }

  ghost function NodeAt<T>(ns: seq<Node<T>>, i: nat): Node?<T> { if i < |ns| then ns[i] else null }

  ghost predicate Distinct<T>(ns: seq<Node<T>>) {
    forall i, j :: 0 <= i < j < |ns| ==> ns[i] != ns[j]
  }

  /** Each node points to the next one, the last to nothing. */
  ghost predicate Chained<T>(ns: seq<Node<T>>)
    reads ns
  {
    forall i :: 0 <= i < |ns| ==> ns[i].next == NodeAt(ns, i + 1)
  }

  ghost function ValuesOf<T>(ns: seq<Node<T>>): (vs: seq<T>)
    reads ns
    ensures |vs| == |ns| && forall i :: 0 <= i < |ns| ==> vs[i] == ns[i].value
  {
    seq(|ns|, i requires 0 <= i < |ns| reads ns => ns[i].value)
  }

  lemma Consed<T>(n: Node<T>, ns: seq<Node<T>>)
    requires Distinct(ns) && Chained(ns) && n !in ns && n.next == NodeAt(ns, 0)
    ensures Distinct([n] + ns) && Chained([n] + ns) && ValuesOf([n] + ns) == [n.value] + ValuesOf(ns)
  {
    var u := [n] + ns;
    forall k | 0 <= k < |u|
      ensures u[k].next == NodeAt(u, k + 1)
    {
      if k > 0 { assert u[k] == ns[k - 1]; }
    }
  }

  lemma UnlinkIndex<T>(ns: seq<Node<T>>, i: nat)
    requires i < |ns|
    ensures |Unlink(ns, i)| == |ns| - 1
    ensures forall k :: 0 <= k < |ns| - 1 ==> Unlink(ns, i)[k] == ns[if k < i then k else k + 1]
  {
  }

  lemma UnlinkDistinct<T>(ns: seq<Node<T>>, i: nat)
    requires Distinct(ns) && i < |ns|
    ensures Distinct(Unlink(ns, i))
  {
    hide Unlink;
    UnlinkIndex(ns, i);
  }

  /** Relinking the predecessor of node i chains the others. */
  lemma Relinked<T>(ns: seq<Node<T>>, i: nat)
    requires i < |ns| && (i > 0 ==> ns[i - 1].next == NodeAt(ns, i + 1))
    requires forall k :: 0 <= k < |ns| && k + 1 != i ==> ns[k].next == NodeAt(ns, k + 1)
    ensures Chained(Unlink(ns, i))
  {
    hide Unlink;
    UnlinkIndex(ns, i);
    var u := Unlink(ns, i);
    forall k | 0 <= k < |u|
      ensures u[k].next == NodeAt(u, k + 1)
    {
      assert k + 1 < |u| ==> u[k + 1] == ns[if k + 1 < i then k + 1 else k + 2];
    }
  }

  lemma UnlinkValues<T>(ns: seq<Node<T>>, i: nat)
    requires i < |ns|
    ensures ValuesOf(Unlink(ns, i)) == Unlink(ValuesOf(ns), i)
  {
  }

  class List<T> {
    var head: Node?<T>
    ghost var nodes: seq<Node<T>>
    ghost var repr: set<object>

    ghost predicate Valid()
      reads this, repr
    {
      && this in repr && (forall i :: 0 <= i < |nodes| ==> nodes[i] in repr)
      && Distinct(nodes) && head == NodeAt(nodes, 0) && Chained(nodes)
    }

    ghost function Values(): seq<T>
      reads this, repr
      requires Valid()
    {
      ValuesOf(nodes)
    }

    constructor ()
      ensures Valid() && nodes == [] && repr == {this}
    {
      head, nodes, repr := null, [], {this};
    }

    /** Link a new node in at the head. */
    method Push(v: T)
      requires Valid()
      modifies this
      ensures Valid() && Values() == [v] + old(Values())
      ensures |nodes| > 0 && nodes[1..] == old(nodes) && fresh(repr - old(repr)) && old(repr) <= repr
    {
      hide Distinct, Chained, ValuesOf;
      var n := new Node(v, head);
      assert ValuesOf(nodes) == old(Values());
      Consed(n, nodes);
      nodes := [n] + nodes;
      repr := repr + {n};
      head := n;
    }

    /** Walk to the first value that satisfies p, keeping the predecessor. */
    method Find(p: T -> bool) returns (previous: Node?<T>, current: Node?<T>, ghost i: nat)
      requires Valid()
      ensures i == First(Values(), p) && current == NodeAt(nodes, i)
      ensures previous == if i == 0 then null else nodes[i - 1]
    {
      hide Distinct, First, ValuesOf;
      previous, current, i := null, head, 0;
      ghost var vs := Values();
      while current != null && !p(current.value)
        invariant i <= |nodes| && current == NodeAt(nodes, i)
        invariant previous == if i == 0 then null else nodes[i - 1]
        invariant forall k :: 0 <= k < i ==> !p(vs[k])
        decreases |nodes| - i
      {
        previous := current;
        current := current.next;
        i := i + 1;
      }
      FirstIs(vs, p, i);
    }

    /** Take node i out, between its predecessor and its successor. */
    method LinkAround(previous: Node?<T>, current: Node<T>, ghost i: nat)
      requires Valid() && i < |nodes| && current == nodes[i]
      requires previous == if i == 0 then null else nodes[i - 1]
      modifies this, previous
      ensures Valid() && repr == old(repr) && nodes == Unlink(old(nodes), i) && Values() == Unlink(old(Values()), i)
      ensures previous != null ==> previous.value == old(previous.value)
    {
      hide Unlink;
      if previous != null {
        previous.next := current.next;
      } else {
        head := current.next;
      }
      Relinked(nodes, i);
      UnlinkDistinct(nodes, i);
      UnlinkIndex(nodes, i);
      UnlinkValues(nodes, i);
      assert ValuesOf(nodes) == old(Values());
      nodes := Unlink(nodes, i);
    }

    /** Take out the first node whose value satisfies p, if there is one. */
    method EraseFirst(p: T -> bool)
      requires Valid()
      modifies repr
      ensures Valid() && repr == old(repr)
      ensures nodes == Unlink(old(nodes), First(old(Values()), p))
      ensures Values() == Unlink(old(Values()), First(old(Values()), p))
      ensures forall k :: 0 <= k < |old(nodes)| ==> old(nodes)[k].value == old(nodes[k].value)
    {
      hide First;
      var previous, current, i := Find(p);
      if current != null {
        LinkAround(previous, current, i);
      }
    }

    /** Change the value in node i. */
    method Put(n: Node<T>, v: T, ghost i: nat)
      requires Valid() && i < |nodes| && n == nodes[i]
      modifies n
      ensures Valid() && Values() == old(Values())[i := v]
    {
      n.value := v;
    }
  }
}
