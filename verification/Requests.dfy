/** Reading requests from a client, a piece at a time (proto.c:51-84, 840-1002),
    for clients of the server's own byte order. */
module Requests {
  import opened CTypes
  import opened Wire
  import opened Options

  const KEY_LEN := 16
  const PROTO_DATA_MAX := 1024

  // esd_proto_t
  const CONNECT := 0
  const LOCK := 1
  const UNLOCK := 2
  const STREAM_REC := 4
  const SAMPLE_CACHE := 6
  const STANDBY := 12
  const RESUME := 13
  const PROTO_MAX := 24

  /** `esd_proto_map`: the bytes of parameters each request has; -1 marks those
      that are not implemented. */
  const TABLE: seq<int> := [
    KEY_LEN + 4, KEY_LEN + 4, KEY_LEN + 4,
    NAME_MAX + 8, NAME_MAX + 8, NAME_MAX + 8,
    NAME_MAX + 12, 4, 4, 4, 4, -1,
    KEY_LEN + 4, KEY_LEN + 4,
    NAME_MAX, NAME_MAX + 8,
    4, 4, -1, -1,
    12, 12,
    4, 0]

  predicate Known(request: int) { 0 <= request < PROTO_MAX }

  /** The parameter length of a known request. */
  function DataLength(request: int): (n: int)
    requires Known(request)
    ensures -1 <= n <= PROTO_DATA_MAX && (request == CONNECT ==> n == 20)
  {
    assert |TABLE| == PROTO_MAX;
    TABLE[request]
  }

  /** What a handler itself reads after its parameters: the sound, for a sample
      to be cached. */
  function PayloadLength(request: int, params: seq<byte>): nat
    requires Known(request) && |params| == DataLength(request)
  {
    if request == SAMPLE_CACHE then
      var n := DecodeInt(params[8..12]);
      if n > 0 then n else 0
    else 0
  }

  datatype Phase = NeedsData | NextRequest | Streaming | Closed
  datatype Conn = Conn(phase: Phase, request: int, data: seq<byte>)

  /** What a read from the client returns. */
  datatype Input = Bytes(bytes: seq<byte>) | Eof | Failed

  /** A handler's verdict, whether the client streams from now on, and what the
      handler read itself. */
  datatype Verdict = Verdict(ok: bool, streams: bool, payload: seq<byte>)

  /** One run of a handler. */
  datatype Handled = Handled(request: int, params: seq<byte>, payload: seq<byte>)

  predicate Valid(c: Conn) {
    && Known(c.request) && |c.data| <= PROTO_DATA_MAX
    && (c.phase == NeedsData ==>
          var n := DataLength(c.request);
          n != 0 && (|c.data| < n || (n < 0 && c.data == [])))
  }

  function Accepted(): Conn { Conn(NeedsData, CONNECT, []) }

  /** How many bytes are asked for: -1 when nothing is read. */
  function Wanted(c: Conn): int
    requires Valid(c)
  {
    match c.phase
    case NeedsData => if |c.data| > DataLength(c.request) then -1 else DataLength(c.request) - |c.data|
    case NextRequest => 4
    case Streaming => -1
    case Closed => -1
  }

  /** Any part of what was asked for may arrive, except that request words are whole. */
  predicate Possible(c: Conn, input: Input)
    requires Valid(c)
  {
    input.Bytes? ==> 0 < |input.bytes| <= Wanted(c) && (c.phase == NextRequest ==> |input.bytes| == 4)
  }

  /** A handler that accepts its request has read all of its payload. */
  predicate Complete(request: int, params: seq<byte>, v: Verdict)
    requires Known(request) && |params| == DataLength(request)
  {
    v.ok ==> |v.payload| == PayloadLength(request, params)
  }

  datatype Polled = Polled(conn: Conn, handled: Option<Handled>)

  /** Run the handler of a request whose parameters are complete. */
  function RunHandler(request: int, params: seq<byte>, v: Verdict): Polled {
    var phase := if !v.ok then Closed else if v.streams then Streaming else NextRequest;
    Polled(Conn(phase, request, params), Some(Handled(request, params, v.payload)))
  }

  function Poll(c: Conn, input: Input, v: Verdict): Polled
    requires Valid(c) && Possible(c, input)
  {
    match c.phase
    case NeedsData =>
      if |c.data| > DataLength(c.request) || !input.Bytes? then Polled(c.(phase := Closed), None)
      else
        var data := c.data + input.bytes;
        if |data| == DataLength(c.request) then RunHandler(c.request, data, v)
        else Polled(c.(data := data), None)
    case NextRequest =>
      if !input.Bytes? then Polled(c.(phase := Closed), None)
      else
        var request := DecodeInt(input.bytes);
        if CONNECT < request < PROTO_MAX then
          if DataLength(request) == 0 then RunHandler(request, [], v)
          else Polled(Conn(NeedsData, request, []), None)
        else Polled(c.(phase := Closed), None)
    case Streaming => Polled(c, None)
    case Closed => Polled(c, None)
  }

  lemma PollValid(c: Conn, input: Input, v: Verdict)
    requires Valid(c) && Possible(c, input)
    ensures Valid(Poll(c, input, v).conn)
    ensures Poll(c, input, v).handled.Some? ==>
      var h := Poll(c, input, v).handled.value;
      Known(h.request) && |h.params| == DataLength(h.request) && DataLength(h.request) >= 0
  {
  }

  /** Requests that are not implemented close the client at the next poll, before
      anything is read and without a handler. */
  lemma UnimplementedCloses(c: Conn, input: Input, v: Verdict)
    requires Valid(c) && Possible(c, input) && c.phase == NeedsData && DataLength(c.request) < 0
    ensures Poll(c, input, v) == Polled(c.(phase := Closed), None) && !input.Bytes?
  {
  }

  // ---- whole conversations ----

  datatype Step = Step(input: Input, verdict: Verdict)
  datatype Trace = Trace(conn: Conn, log: seq<Handled>, consumed: seq<byte>)

  function TakeStep(t: Trace, s: Step): Trace
    requires Valid(t.conn)
  {
    if t.conn.phase == Streaming || t.conn.phase == Closed || !Possible(t.conn, s.input) then t
    else
      var p := Poll(t.conn, s.input, s.verdict);
      var read := if s.input.Bytes? then s.input.bytes else [];
      if p.handled.None? then Trace(p.conn, t.log, t.consumed + read)
      else
        var h := p.handled.value;
        PollValid(t.conn, s.input, s.verdict);
        if Complete(h.request, h.params, s.verdict) then Trace(p.conn, t.log + [h], t.consumed + read + h.payload)
        else t
  }

  /** A conversation on one connection. A handler that accepts its request has read
      the whole payload: samples cached over several polls are not modelled. */
  function Talk(steps: seq<Step>): (t: Trace)
    ensures Valid(t.conn)
  {
    if |steps| == 0 then Trace(Accepted(), [], [])
    else
      var t := Talk(steps[..|steps| - 1]);
      var s := steps[|steps| - 1];
      if Possible(t.conn, s.input) then PollValid(t.conn, s.input, s.verdict);
        TakeStep(t, s)
      else TakeStep(t, s)
  }

  // ---- nothing is lost, repeated or read ahead ----

  /** A request as it came over the wire; the first one has no request word. */
  function Frame(h: Handled): seq<byte> {
    (if CONNECT < h.request < PROTO_MAX then EncodeInt(h.request) else []) + h.params + h.payload
  }

  function Flat(log: seq<Handled>): seq<byte> {
    if |log| == 0 then [] else Frame(log[0]) + Flat(log[1..])
  }

  lemma {:induction false} FlatAppend(log: seq<Handled>, h: Handled)
    ensures Flat(log + [h]) == Flat(log) + Frame(h)
  {
    if |log| == 0 {
      assert log + [h] == [h] && [h][1..] == [];
      assert Frame(h) + [] == Frame(h) && [] + Frame(h) == Frame(h);
    } else {
      FlatAppend(log[1..], h);
      assert (log + [h])[1..] == log[1..] + [h];
      assert Frame(log[0]) + (Flat(log[1..]) + Frame(h)) == Frame(log[0]) + Flat(log[1..]) + Frame(h);
    }
  }

  /** The bytes of the request being read. */
  function Pending(c: Conn): seq<byte>
    requires Known(c.request)
  {
    if c.phase != NeedsData then []
    else (if CONNECT < c.request < PROTO_MAX then EncodeInt(c.request) else []) + c.data
  }

  /** A handled request with all of its parameters and payload. */
  predicate Whole(h: Handled) {
    && Known(h.request) && DataLength(h.request) >= 0 && |h.params| == DataLength(h.request)
    && |h.payload| == PayloadLength(h.request, h.params)
  }

  /** A request whose handler saw exactly its parameters, accepted or not. */
  predicate Parametrized(h: Handled) { Known(h.request) && |h.params| == DataLength(h.request) }

  /** The same of a whole log, with CONNECT first and only first. */
  predicate Orderly(log: seq<Handled>) {
    forall i :: 0 <= i < |log| ==> Parametrized(log[i]) && (log[i].request == CONNECT <==> i == 0)
  }

  /** CONNECT first, and only first. */
  predicate WellFormed(log: seq<Handled>) {
    forall i :: 0 <= i < |log| ==> Whole(log[i]) && (log[i].request == CONNECT <==> i == 0)
  }

  /** Before the first request only CONNECT can be pending, after it any other. */
  predicate Expected(t: Trace) { t.conn.phase == NeedsData ==> (t.conn.request == CONNECT <==> |t.log| == 0) }

  /** On every connection, open or closed, handlers ran on whole requests only, in
      the order they came. On an open one nothing else was consumed but the
      beginning of the next request. */
  predicate Sound(t: Trace) {
    && Valid(t.conn) && Orderly(t.log) && Flat(t.log) <= t.consumed
    && (t.conn.phase != Closed ==>
          && WellFormed(t.log) && Expected(t) && (|t.log| == 0 ==> t.conn.phase == NeedsData)
          && t.consumed == Flat(t.log) + Pending(t.conn))
  }

  lemma RequestWord(b: seq<byte>)
    requires |b| == 4
    ensures EncodeInt(DecodeInt(b)) == b
  {
    WordRoundTrip(b);
  }

  /** A handler that ran, whatever it said, was given the next request, and
      everything consumed so far is the requests handled. */
  predicate Accounted(t: Trace, u: Trace) {
    t.log <= u.log && (u.log != t.log ==> |u.log| == |t.log| + 1 && u.consumed == Flat(u.log))
  }

  lemma StepSound(t: Trace, s: Step)
    requires Sound(t)
    ensures Sound(TakeStep(t, s)) && Accounted(t, TakeStep(t, s))
  {
    if t.conn.phase != Streaming && t.conn.phase != Closed && Possible(t.conn, s.input) {
      PollValid(t.conn, s.input, s.verdict);
      if t.conn.phase == NeedsData { DataStep(t, s); } else { WordStep(t, s); }
    }
  }

  /** What is left to show once a handler ran and every byte is accounted for. */
  lemma HandledSound(c: Conn, log: seq<Handled>)
    requires Valid(c) && c.phase != NeedsData && |log| > 0 && Orderly(log)
    requires c.phase != Closed ==> WellFormed(log)
    ensures Sound(Trace(c, log, Flat(log)))
  {
    hide Flat;
    assert Flat(log) + [] == Flat(log);
  }

  /** A connection closed without a handler. */
  lemma ClosedSound(t: Trace, c: Conn, read: seq<byte>)
    requires Sound(t) && Valid(c) && c.phase == Closed
    ensures Sound(Trace(c, t.log, t.consumed + read))
  {
    hide Flat, Orderly, WellFormed;
  }

  /** More of a request, but not all of it. */
  lemma PartSound(t: Trace, c: Conn, read: seq<byte>)
    requires Sound(t) && t.conn.phase != Closed && Valid(c) && c.phase == NeedsData
    requires (c.request == CONNECT <==> |t.log| == 0) && Pending(c) == Pending(t.conn) + read
    ensures Sound(Trace(c, t.log, t.consumed + read))
  {
    hide Flat, Orderly, WellFormed, EncodeInt, Pending;
    assert Flat(t.log) + Pending(t.conn) + read == Flat(t.log) + (Pending(t.conn) + read);
  }

  lemma DataStep(t: Trace, s: Step)
    requires Sound(t) && t.conn.phase == NeedsData && Possible(t.conn, s.input)
    ensures Sound(TakeStep(t, s)) && Accounted(t, TakeStep(t, s))
  {
    hide EncodeInt, DecodeInt, Flat, DataLength, PayloadLength, Orderly, WellFormed;
    var c := t.conn;
    PollValid(c, s.input, s.verdict);
    var p := Poll(c, s.input, s.verdict);
    if !s.input.Bytes? {
      ClosedSound(t, p.conn, []);
    } else if |c.data + s.input.bytes| == DataLength(c.request) {
      if Complete(c.request, c.data + s.input.bytes, s.verdict) {
        HandlerRan(t, c.request, c.data, s.input.bytes, s.verdict);
      }
    } else {
      assert Pending(p.conn) == Pending(c) + s.input.bytes;
      PartSound(t, p.conn, s.input.bytes);
    }
  }

  /** A completed request moves from pending to handled, byte for byte. */
  lemma HandlerStep(log: seq<Handled>, request: int, data: seq<byte>, b: seq<byte>, v: Verdict, before: seq<byte>)
    requires WellFormed(log) && Known(request) && DataLength(request) >= 0 && (request == CONNECT <==> |log| == 0)
    requires |data + b| == DataLength(request) && Complete(request, data + b, v)
    requires before == Flat(log) + Pending(Conn(NeedsData, request, data))
    ensures var h := Handled(request, data + b, v.payload);
            && Orderly(log + [h]) && before + b + h.payload == Flat(log + [h])
            && (v.ok ==> WellFormed(log + [h]))
  {
    hide EncodeInt, Flat, WellFormed, PayloadLength;
    var h := Handled(request, data + b, v.payload);
    FlatAppend(log, h);
    var head := if CONNECT < request < PROTO_MAX then EncodeInt(request) else [];
    Regroup(Flat(log), head, data, b, h.payload);
    OrderlyAppend(log, h);
    if v.ok { WholeAppend(log, h); }
  }

  lemma Regroup(f: seq<byte>, h: seq<byte>, d: seq<byte>, b: seq<byte>, p: seq<byte>)
    ensures f + (h + d) + b + p == f + (h + (d + b) + p)
  {
  }

  lemma OrderlyAppend(log: seq<Handled>, h: Handled)
    requires WellFormed(log) && Parametrized(h) && (h.request == CONNECT <==> |log| == 0)
    ensures Orderly(log + [h])
  {
    hide DataLength, PayloadLength;
  }

  lemma WholeAppend(log: seq<Handled>, h: Handled)
    requires WellFormed(log) && Whole(h) && (h.request == CONNECT <==> |log| == 0)
    ensures WellFormed(log + [h])
  {
    hide Whole;
  }

  /** The same over the whole trace, accepted or refused. */
  lemma HandlerRan(t: Trace, request: int, data: seq<byte>, b: seq<byte>, v: Verdict)
    requires Sound(t) && t.conn.phase != Closed && Known(request) && DataLength(request) >= 0
    requires (request == CONNECT <==> |t.log| == 0) && |data + b| == DataLength(request)
    requires Valid(RunHandler(request, data + b, v).conn) && Complete(request, data + b, v)
    requires Pending(t.conn) == Pending(Conn(NeedsData, request, data))
    ensures var h := Handled(request, data + b, v.payload);
            && Sound(Trace(RunHandler(request, data + b, v).conn, t.log + [h], t.consumed + b + h.payload))
            && Accounted(t, Trace(RunHandler(request, data + b, v).conn, t.log + [h], t.consumed + b + h.payload))
  {
    hide EncodeInt, Flat, Orderly, WellFormed, PayloadLength, DataLength, Pending, Valid;
    HandlerStep(t.log, request, data, b, v, t.consumed);
    HandledSound(RunHandler(request, data + b, v).conn, t.log + [Handled(request, data + b, v.payload)]);
  }

  /** A request without parameters is handled as soon as its word arrives. */
  lemma WordHandled(t: Trace, request: int, b: seq<byte>, v: Verdict)
    requires Sound(t) && t.conn.phase == NextRequest && CONNECT < request < PROTO_MAX && b == EncodeInt(request)
    requires DataLength(request) == 0 && Complete(request, [], v)
    requires Valid(RunHandler(request, [], v).conn)
    ensures var h := Handled(request, [], v.payload);
            && Sound(Trace(RunHandler(request, [], v).conn, t.log + [h], t.consumed + b + h.payload))
            && Accounted(t, Trace(RunHandler(request, [], v).conn, t.log + [h], t.consumed + b + h.payload))
  {
    hide EncodeInt, Flat, Orderly, WellFormed, PayloadLength, DataLength, Valid;
    assert Flat(t.log) + [] + b == Flat(t.log) + (b + []) && t.consumed + b + [] == t.consumed + b;
    var none: seq<byte> := [];
    assert none + none == none;
    HandlerStep(t.log, request, [], [], v, t.consumed + b);
    HandledSound(RunHandler(request, [], v).conn, t.log + [Handled(request, [], v.payload)]);
  }

  lemma WordStep(t: Trace, s: Step)
    requires Sound(t) && t.conn.phase == NextRequest && Possible(t.conn, s.input)
    ensures Sound(TakeStep(t, s)) && Accounted(t, TakeStep(t, s))
  {
    hide EncodeInt, DecodeInt, Flat, DataLength, PayloadLength, Orderly, WellFormed;
    PollValid(t.conn, s.input, s.verdict);
    var p := Poll(t.conn, s.input, s.verdict);
    if !s.input.Bytes? {
      ClosedSound(t, p.conn, []);
    } else {
      var b := s.input.bytes;
      RequestWord(b);
      var request := DecodeInt(b);
      if !(CONNECT < request < PROTO_MAX) {
        ClosedSound(t, p.conn, b);
      } else if DataLength(request) == 0 {
        if Complete(request, [], s.verdict) { WordHandled(t, request, b, s.verdict); }
      } else {
        assert Pending(p.conn) == Pending(t.conn) + b;
        PartSound(t, p.conn, b);
      }
    }
  }

  /** For every way the bytes are split into reads, and whatever the handlers say:
      handlers run on whole requests only, each once and in order. While the
      connection is open, what has been consumed is exactly the requests handled
      followed by the part of the next one that has arrived; and whenever a
      handler runs, even one that refuses, it is exactly the requests handled. */
  lemma {:induction false} TalkSound(steps: seq<Step>)
    ensures Sound(Talk(steps))
    ensures |steps| > 0 ==> Accounted(Talk(steps[..|steps| - 1]), Talk(steps))
  {
    hide Sound, Poll, Accounted;
    if |steps| == 0 {
      StartSound();
    } else {
      var t, s := Talk(steps[..|steps| - 1]), steps[|steps| - 1];
      TalkSound(steps[..|steps| - 1]);
      StepSound(t, s);
    }
  }

  lemma StartSound()
    ensures Sound(Trace(Accepted(), [], []))
  {
  }

  // ---- the log depends on the bytes alone ----

  /** The pending part of a request is never a whole one. */
  predicate Partial(p: seq<byte>, first: bool) {
    if first then |p| < DataLength(CONNECT)
    else p == [] || (|p| >= 4 && var r := DecodeInt(p[..4]);
                     CONNECT < r < PROTO_MAX && DataLength(r) != 0 && (DataLength(r) < 0 || |p| - 4 < DataLength(r)))
  }

  predicate Sequence(log: seq<Handled>, first: bool) {
    forall i :: 0 <= i < |log| ==> Whole(log[i]) && (log[i].request == CONNECT <==> first && i == 0)
  }

  lemma PendingPartial(t: Trace)
    requires Sound(t) && t.conn.phase != Closed
    ensures Partial(Pending(t.conn), |t.log| == 0)
  {
    hide EncodeInt, DecodeInt;
    var c := t.conn;
    if c.phase == NeedsData && c.request != CONNECT {
      IntRoundTrip(c.request);
      assert Pending(c)[..4] == EncodeInt(c.request);
    }
  }

  lemma FrameParts(h: Handled, rest: seq<byte>, first: bool)
    requires Whole(h) && (h.request == CONNECT <==> first)
    ensures var b := Frame(h) + rest;
            var k := if first then 0 else 4;
            var n := DataLength(h.request);
            && |b| >= k + n + |h.payload| && (first || DecodeInt(b[..4]) == h.request)
            && b[k..k + n] == h.params && b[k + n..k + n + |h.payload|] == h.payload
            && b[k + n + |h.payload|..] == rest
  {
    hide EncodeInt, DecodeInt;
    if !first {
      IntRoundTrip(h.request);
      assert (Frame(h) + rest)[..4] == EncodeInt(h.request);
    }
  }

  /** No partial request begins with a whole one. */
  lemma NotBoth(h: Handled, rest: seq<byte>, p: seq<byte>, first: bool)
    requires Whole(h) && (h.request == CONNECT <==> first) && Partial(p, first)
    ensures Frame(h) + rest != p
  {
    hide Frame, DecodeInt;
    FrameParts(h, rest, first);
  }

  lemma SameFrame(h: Handled, r1: seq<byte>, g: Handled, r2: seq<byte>, first: bool)
    requires Whole(h) && Whole(g) && (h.request == CONNECT <==> first) && (g.request == CONNECT <==> first)
    requires Frame(h) + r1 == Frame(g) + r2
    ensures h == g && r1 == r2
  {
    hide Frame, DecodeInt, PayloadLength;
    FrameParts(h, r1, first);
    FrameParts(g, r2, first);
  }

  lemma {:induction false} UniqueParse(a: seq<Handled>, p: seq<byte>, b: seq<Handled>, q: seq<byte>, first: bool)
    requires Sequence(a, first) && Sequence(b, first)
    requires Partial(p, first && |a| == 0) && Partial(q, first && |b| == 0)
    requires Flat(a) + p == Flat(b) + q
    ensures a == b && p == q
  {
    hide Frame, Partial, Whole;
    if |a| == 0 && |b| == 0 {
      assert [] + p == p && [] + q == q;
    } else if |a| == 0 {
      assert Flat(b) + q == Frame(b[0]) + (Flat(b[1..]) + q) && [] + p == p;
      NotBoth(b[0], Flat(b[1..]) + q, p, first);
    } else if |b| == 0 {
      assert Flat(a) + p == Frame(a[0]) + (Flat(a[1..]) + p) && [] + q == q;
      NotBoth(a[0], Flat(a[1..]) + p, q, first);
    } else {
      assert Flat(a) + p == Frame(a[0]) + (Flat(a[1..]) + p);
      assert Flat(b) + q == Frame(b[0]) + (Flat(b[1..]) + q);
      SameFrame(a[0], Flat(a[1..]) + p, b[0], Flat(b[1..]) + q, first);
      UniqueParse(a[1..], p, b[1..], q, false);
    }
  }

  /** Two open connections that consumed the same bytes have handled the same
      requests, however the bytes were split and whatever the handlers said. */
  lemma SplitIrrelevant(steps: seq<Step>, other: seq<Step>)
    requires Talk(steps).conn.phase != Closed && Talk(other).conn.phase != Closed
    requires Talk(steps).consumed == Talk(other).consumed
    ensures Talk(steps).log == Talk(other).log
    ensures Pending(Talk(steps).conn) == Pending(Talk(other).conn)
  {
    hide Talk, Flat, Partial;
    TalkSound(steps);
    TalkSound(other);
    var t, u := Talk(steps), Talk(other);
    PendingPartial(t);
    PendingPartial(u);
    UniqueParse(t.log, Pending(t.conn), u.log, Pending(u.conn), true);
  }

  // ---- the connection as an object ----

  class Connection {
    var phase: Phase
    var request: int
    const protoData: array<byte>
    var protoDataLength: nat

    ghost predicate Ready()
      reads this, protoData
    {
      && protoData.Length == PROTO_DATA_MAX && protoDataLength <= PROTO_DATA_MAX && Valid(Now())
      && (phase == NeedsData && DataLength(request) >= 0 ==> protoDataLength <= DataLength(request))
    }

    ghost function Now(): Conn
      reads this, protoData
      requires protoDataLength <= protoData.Length
    {
      Conn(phase, request, protoData[..protoDataLength])
    }

    /** A client as `get_new_clients` sets it up (clients.c:235-247). */
    constructor ()
      ensures Ready() && Now() == Accepted() && fresh(protoData)
    {
      phase, request, protoDataLength := NeedsData, CONNECT, 0;
      protoData := new byte[PROTO_DATA_MAX];
    }

    /** One turn of `poll_client_requests` for this client. The verdict is the
        handler's, should one run. */
    method PollRequest(input: Input, v: Verdict) returns (handled: Option<Handled>)
      requires Ready() && Possible(Now(), input)
      modifies this, protoData
      ensures Ready()
      ensures Polled(Now(), handled) == Poll(old(Now()), input, v)
    {
      PollValid(Now(), input, v);
      handled := None;
      match phase {
        case NeedsData =>
          if protoDataLength > DataLength(request) || !input.Bytes? {
            phase := Closed;
            return;
          }
          Store(input.bytes);
          if protoDataLength == DataLength(request) {
            handled := Handle(v);
          }
        case NextRequest =>
          if !input.Bytes? {
            phase := Closed;
            return;
          }
          var word := DecodeInt(input.bytes);
          if word > CONNECT && word < PROTO_MAX {
            request, phase, protoDataLength := word, NeedsData, 0;
            if DataLength(request) == 0 {
              handled := Handle(v);
            }
          } else {
            phase := Closed;
          }
        case Streaming =>
        case Closed =>
      }
    }

    /** Put the bytes just read behind those already there. */
    method Store(bytes: seq<byte>)
      requires protoData.Length == PROTO_DATA_MAX && protoDataLength + |bytes| <= PROTO_DATA_MAX
      modifies `protoDataLength, protoData
      ensures protoDataLength == old(protoDataLength) + |bytes|
      ensures protoData[..protoDataLength] == old(protoData[..protoDataLength]) + bytes
    {
      forall i | 0 <= i < |bytes| { protoData[protoDataLength + i] := bytes[i]; }
      protoDataLength := protoDataLength + |bytes|;
    }

    /** Run the request's handler on the parameters. */
    method Handle(v: Verdict) returns (handled: Option<Handled>)
      requires protoDataLength <= protoData.Length
      modifies `phase
      ensures Polled(Now(), handled) == RunHandler(request, protoData[..protoDataLength], v)
    {
      phase := NextRequest;
      if v.streams { phase := Streaming; }
      if !v.ok { phase := Closed; }
      handled := Some(Handled(request, protoData[..protoDataLength], v.payload));
    }
  }
}
