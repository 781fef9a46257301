/** `exchange` (getopt.c:296-374): rotating two adjacent segments in place. */
module GetoptExchange {

  /** s with the segments [b, m) and [m, t) exchanged. */
  function Rotated<T>(s: seq<T>, b: nat, m: nat, t: nat): seq<T>
    requires b <= m <= t <= |s|
  {
    s[..b] + s[m..t] + s[b..m] + s[t..]
  }

  /** s with the blocks of length n at i and j swapped. */
  function Swapped<T>(s: seq<T>, i: nat, j: nat, n: nat): seq<T>
    requires i + n <= j && j + n <= |s|
  {
    s[..i] + s[j..j + n] + s[i + n..j] + s[i..i + n] + s[j + n..]
  }

  lemma RotateParts<T>(p: seq<T>, a: seq<T>, c: seq<T>, q: seq<T>)
    ensures var s := p + a + c + q;
            Rotated(s, |p|, |p| + |a|, |p| + |a| + |c|) == p + c + a + q
  {
    var s := p + a + c + q;
    assert s[..|p|] == p;
    assert s[|p|..|p| + |a|] == a;
    assert s[|p| + |a|..|p| + |a| + |c|] == c;
    assert s[|p| + |a| + |c|..] == q;
  }

  lemma SwapParts<T>(p: seq<T>, a: seq<T>, x: seq<T>, c: seq<T>, q: seq<T>)
    requires |a| == |c|
    ensures var s := p + a + x + c + q;
            Swapped(s, |p|, |p| + |a| + |x|, |a|) == p + c + x + a + q
  {
    var s := p + a + x + c + q;
    assert s[..|p|] == p;
    assert s[|p|..|p| + |a|] == a;
    assert s[|p| + |a|..|p| + |a| + |x|] == x;
    assert s[|p| + |a| + |x|..|p| + |a| + |x| + |c|] == c;
    assert s[|p| + |a| + |x| + |c|..] == q;
  }

  lemma Assoc<T>(p: seq<T>, a: seq<T>, b: seq<T>, c: seq<T>, q: seq<T>)
    ensures p + a + b + c + q == p + a + b + (c + q) == p + a + (b + c) + q == p + (a + b) + c + q
    ensures p + a + b + c + q == (p + a) + b + c + q
  {
  }

  /** Swapping the short bottom segment with the end of the top one leaves a
      smaller rotation to do below it. */
  lemma BottomShort<T>(s: seq<T>, b: nat, m: nat, t: nat)
    requires b <= m <= t <= |s| && m - b < t - m
    ensures var n := m - b;
            Rotated(Swapped(s, b, t - n, n), b, m, t - n) == Rotated(s, b, m, t)
  {
    hide Rotated, Swapped;
    var n := m - b;
    var p, a, x, y, q := s[..b], s[b..m], s[m..t - n], s[t - n..t], s[t..];
    assert s == p + a + x + y + q;
    SwapParts(p, a, x, y, q);
    Assoc(p, y, x, a, q);
    Assoc(p, a, x, y, q);
    Assoc(p, x, y, a, q);
    RotateParts(p, y, x, a + q);
    RotateParts(p, a, x + y, q);
  }

  /** The same when the top segment is the short one. */
  lemma TopShort<T>(s: seq<T>, b: nat, m: nat, t: nat)
    requires b <= m <= t <= |s| && t - m <= m - b
    ensures var n := t - m;
            Rotated(Swapped(s, b, m, n), b + n, m, t) == Rotated(s, b, m, t)
  {
    hide Rotated, Swapped;
    var n := t - m;
    var p, x, y, c, q := s[..b], s[b..b + n], s[b + n..m], s[m..t], s[t..];
    assert s == p + x + y + c + q;
    SwapParts(p, x, y, c, q);
    Assoc(p, x, y, c, q);
    Assoc(p, c, y, x, q);
    Assoc(p, c, x, y, q);
    RotateParts(p + c, y, x, q);
    RotateParts(p, x + y, c, q);
  }

  /** Nothing moves when a segment is empty; otherwise the first segment ends up last. */
  lemma RotatedNothing<T>(s: seq<T>, b: nat, m: nat, t: nat)
    requires b <= m <= t <= |s| && (b == m || m == t)
    ensures Rotated(s, b, m, t) == s
  {
  }

  lemma RotatedMoves<T>(s: seq<T>, b: nat, m: nat, t: nat)
    requires b <= m <= t <= |s|
    ensures var r := Rotated(s, b, m, t);
            && |r| == |s| && r[..b] == s[..b] && r[t..] == s[t..]
            && r[b..b + (t - m)] == s[m..t] && r[b + (t - m)..t] == s[b..m]
  {
  }

  /** One `for` loop of `exchange`. */
  method SwapBlocks<T>(argv: array<T>, i: nat, j: nat, n: nat)
    requires i + n <= j && j + n <= argv.Length
    modifies argv
    ensures argv[..] == Swapped(old(argv[..]), i, j, n)
  {
    var k := 0;
    while k < n
      invariant 0 <= k <= n
      invariant forall x :: i <= x < i + k ==> argv[x] == old(argv[x + (j - i)])
      invariant forall x :: j <= x < j + k ==> argv[x] == old(argv[x - (j - i)])
      invariant forall x :: 0 <= x < argv.Length && !(i <= x < i + k) && !(j <= x < j + k) ==> argv[x] == old(argv[x])
    {
      var tem := argv[i + k];
      argv[i + k] := argv[j + k];
      argv[j + k] := tem;
      k := k + 1;
    }
    ghost var was := old(argv[..]);
    SwappedAt(was, argv[..], i, j, n);
  }

  lemma SwappedAt<T>(was: seq<T>, now: seq<T>, i: nat, j: nat, n: nat)
    requires i + n <= j && j + n <= |was| == |now|
    requires forall x :: i <= x < i + n ==> now[x] == was[x + (j - i)]
    requires forall x :: j <= x < j + n ==> now[x] == was[x - (j - i)]
    requires forall x :: 0 <= x < |was| && !(i <= x < i + n) && !(j <= x < j + n) ==> now[x] == was[x]
    ensures now == Swapped(was, i, j, n)
  {
  }

  /** `exchange`: [first, last) and [last, optind) change places, nothing else moves. */
  method Exchange<T>(argv: array<T>, first: nat, last: nat, optind: nat) returns (first': nat, last': nat)
    requires first <= last <= optind <= argv.Length
    modifies argv
    ensures argv[..] == Rotated(old(argv[..]), first, last, optind)
    ensures first' == first + (optind - last) && last' == optind
    ensures argv[first'..last'] == old(argv[first..last])
  {
    hide Rotated, Swapped;
    var bottom, middle, top := first, last, optind;
    ghost var goal := Rotated(argv[..], first, last, optind);
    while top > middle && middle > bottom
      invariant first <= bottom <= middle <= top <= optind
      invariant Rotated(argv[..], bottom, middle, top) == goal
      decreases top - bottom
    {
      ghost var s := argv[..];
      if top - middle > middle - bottom {
        var len := middle - bottom;
        SwapBlocks(argv, bottom, top - len, len);
        BottomShort(s, bottom, middle, top);
        top := top - len;
      } else {
        var len := top - middle;
        SwapBlocks(argv, bottom, middle, len);
        TopShort(s, bottom, middle, top);
        bottom := bottom + len;
      }
    }
    RotatedNothing(argv[..], bottom, middle, top);
    RotatedMoves(old(argv[..]), first, last, optind);
    first', last' := first + (optind - last), optind;
  }
}
