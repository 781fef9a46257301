/** That requests are answered: what each request consists of, when a client is
    closed, and that every conversation a client holds reaches its handlers however
    its bytes are split. */
module Conversations {
  import opened CTypes
  import opened Options
  import opened Wire
  import opened Requests

  // ---- what a request consists of ----

  /** The fields the handlers take from a request's parameters. */
  datatype Field = Key | Endian | Format | Rate | Length | Name | Id | Left | Right | Version

  function Size(f: Field): nat {
    match f
    case Key => 16
    case Name => 128
    case Endian => 4
    case Format => 4
    case Rate => 4
    case Length => 4
    case Id => 4
    case Left => 4
    case Right => 4
    case Version => 4
  }

  function Sizes(fs: seq<Field>): nat { if |fs| == 0 then 0 else Size(fs[0]) + Sizes(fs[1..]) }

  /** What a request is for; None for those that are not implemented. */
  function Fields(request: int): Option<seq<Field>>
    requires Known(request)
  {
    if request in {0, 1, 2, 12, 13} then Some([Key, Endian])            // connect, lock, unlock, standby, resume
    else if request in {3, 4, 5, 15} then Some([Format, Rate, Name])    // stream play, record, monitor, filter
    else if request == 6 then Some([Format, Rate, Length, Name])        // sample cache
    else if request in {7, 8, 9, 10} then Some([Id])                    // sample free, play, loop, stop
    else if request == 14 then Some([Name])                             // sample getid
    else if request in {16, 17, 22} then Some([Version])                // server info, all info, standby mode
    else if request in {20, 21} then Some([Id, Left, Right])            // stream pan, sample pan
    else if request == 23 then Some([])                                 // latency
    else None                                                           // sample kill, subscribe, unsubscribe
  }

  /** The requests that other modules name are those of esd.h. */
  lemma RequestNumbers()
    ensures CONNECT == 0 && LOCK == 1 && UNLOCK == 2 && STREAM_REC == 4 && SAMPLE_CACHE == 6
    ensures STANDBY == 12 && RESUME == 13 && PROTO_MAX == 24
  {
  }

  /** Each table entry is the size of the request's fields. */
  lemma TableIs(request: int)
    requires Known(request)
    ensures DataLength(request) == if Fields(request).Some? then Sizes(Fields(request).value) else -1
  {
    assert Sizes([]) == 0;
    SizesOne(Id);
    SizesOne(Name);
    SizesOne(Version);
    SizesTwo(Key, Endian);
    SizesThree(Format, Rate, Name);
    SizesThree(Id, Left, Right);
    SizesThree(Rate, Length, Name);
    assert [Format, Rate, Length, Name][1..] == [Rate, Length, Name];
  }

  lemma SizesOne(a: Field)
    ensures Sizes([a]) == Size(a)
  {
    assert [a][1..] == [];
  }

  lemma SizesTwo(a: Field, b: Field)
    ensures Sizes([a, b]) == Size(a) + Size(b)
  {
    assert [a, b][1..] == [b];
    SizesOne(b);
  }

  lemma SizesThree(a: Field, b: Field, c: Field)
    ensures Sizes([a, b, c]) == Size(a) + Size(b) + Size(c)
  {
    assert [a, b, c][1..] == [b, c];
    SizesTwo(b, c);
  }

  /** The payload of a sample to be cached is as long as its third field says, and
      nothing else has one. */
  lemma PayloadIs(request: int, params: seq<byte>, n: int32)
    requires Known(request) && |params| == DataLength(request)
    ensures Fields(request).Some? && Length !in Fields(request).value ==> PayloadLength(request, params) == 0
    ensures request == SAMPLE_CACHE ==>
              && Fields(request).value[2] == Length && Sizes(Fields(request).value[..2]) == 8
              && (params[8..12] == EncodeInt(n) ==> PayloadLength(request, params) == if n < 0 then 0 else n)
  {
    IntRoundTrip(n);
    assert [Format, Rate, Length, Name][..2] == [Format, Rate];
    SizesTwo(Format, Rate);
  }

  // ---- when a client is closed ----

  /** Exactly when a poll closes a client: nothing more comes, the request is not
      implemented or not known, or its handler refuses it. */
  lemma ClosedIff(c: Conn, input: Input, v: Verdict)
    requires Valid(c) && Possible(c, input) && (c.phase == NeedsData || c.phase == NextRequest)
    ensures Poll(c, input, v).conn.phase == Closed <==>
            || !input.Bytes?
            || (Poll(c, input, v).handled.Some? && !v.ok)
            || (c.phase == NextRequest && !(CONNECT < DecodeInt(input.bytes) < PROTO_MAX))
  {
  }

  /** Exactly when a poll runs a handler. */
  lemma HandledIff(c: Conn, input: Input, v: Verdict)
    requires Valid(c) && Possible(c, input) && (c.phase == NeedsData || c.phase == NextRequest)
    ensures Poll(c, input, v).handled.Some? <==>
            && input.Bytes?
            && if c.phase == NeedsData then |c.data| + |input.bytes| == DataLength(c.request)
               else CONNECT < DecodeInt(input.bytes) < PROTO_MAX && DataLength(DecodeInt(input.bytes)) == 0
  {
  }

  // ---- every way of sending a request reaches its handler ----

  function Concat(pieces: seq<seq<byte>>): seq<byte> {
    if |pieces| == 0 then [] else pieces[0] + Concat(pieces[1..])
  }

  predicate NonEmpty(pieces: seq<seq<byte>>) { forall i :: 0 <= i < |pieces| ==> |pieces[i]| > 0 }

  /** The pieces arrive one after the other. */
  function Arrive(t: Trace, pieces: seq<seq<byte>>, v: Verdict): (u: Trace)
    requires Valid(t.conn)
    ensures Valid(u.conn)
    decreases |pieces|
  {
    if |pieces| == 0 then t
    else
      if Possible(t.conn, Bytes(pieces[0])) then PollValid(t.conn, Bytes(pieces[0]), v);
        Arrive(TakeStep(t, Step(Bytes(pieces[0]), v)), pieces[1..], v)
      else Arrive(t, pieces[1..], v)
  }

  /** Where a handler's verdict leaves the connection. */
  function PhaseAfter(v: Verdict): Phase { if !v.ok then Closed else if v.streams then Streaming else NextRequest }

  /** What a request leaves behind when its handler has run. */
  function Served(t: Trace, request: int, params: seq<byte>, read: seq<byte>, v: Verdict): Trace {
    Trace(Conn(PhaseAfter(v), request, params), t.log + [Handled(request, params, v.payload)],
          t.consumed + read + v.payload)
  }

  /** Parameters split into any non-empty pieces: the handler runs exactly once, on
      exactly their bytes, and an accepted request leaves the connection open. */
  lemma {:induction false} EverySplitRuns(t: Trace, pieces: seq<seq<byte>>, v: Verdict)
    requires Valid(t.conn) && t.conn.phase == NeedsData && NonEmpty(pieces)
    requires |t.conn.data| + |Concat(pieces)| == DataLength(t.conn.request)
    requires Complete(t.conn.request, t.conn.data + Concat(pieces), v)
    ensures Arrive(t, pieces, v) == Served(t, t.conn.request, t.conn.data + Concat(pieces), Concat(pieces), v)
    decreases |pieces|
  {
    hide DataLength, PayloadLength;
    var c, p, rest := t.conn, pieces[0], Concat(pieces[1..]);
    assert c.data + Concat(pieces) == c.data + p + rest;
    if |pieces| == 1 {
      assert rest == [] && pieces[1..] == [] && p + [] == p;
      assert Concat(pieces) == p && c.data + p + rest == c.data + p;
    } else {
      assert pieces[1] == pieces[1..][0];
      assert |rest| > 0;
      var u := TakeStep(t, Step(Bytes(p), v));
      assert u == Trace(c.(data := c.data + p), t.log, t.consumed + p);
      EverySplitRuns(u, pieces[1..], v);
      assert t.consumed + p + rest + v.payload == t.consumed + (p + rest) + v.payload;
    }
  }

  /** A whole request as a client sends it: its word, then its parameters in pieces. */
  datatype Sent = Sent(request: int, pieces: seq<seq<byte>>, verdict: Verdict)

  /** A request with all its parameters, accepted or refused. */
  predicate WellSent(s: Sent) {
    && CONNECT < s.request < PROTO_MAX && NonEmpty(s.pieces) && |Concat(s.pieces)| == DataLength(s.request)
    && Complete(s.request, Concat(s.pieces), s.verdict)
  }

  function Send(t: Trace, s: Sent): (u: Trace)
    requires Valid(t.conn) && CONNECT < s.request < PROTO_MAX
    ensures Valid(u.conn)
  {
    Arrive(t, [EncodeInt(s.request)] + s.pieces, s.verdict)
  }

  /** From where the next request is expected, every request that is sent is handled. */
  lemma EveryRequestRuns(t: Trace, s: Sent)
    requires Valid(t.conn) && t.conn.phase == NextRequest && WellSent(s)
    ensures Send(t, s) == Served(t, s.request, Concat(s.pieces), EncodeInt(s.request) + Concat(s.pieces), s.verdict)
  {
    if DataLength(s.request) == 0 { NoParameters(t, s); } else { WithParameters(t, s); }
  }

  /** The word alone makes the connection wait for the request's parameters. */
  lemma WordArrives(t: Trace, s: Sent)
    requires Valid(t.conn) && t.conn.phase == NextRequest && WellSent(s) && DataLength(s.request) != 0
    ensures var u := Trace(Conn(NeedsData, s.request, []), t.log, t.consumed + EncodeInt(s.request));
            Valid(u.conn) && Send(t, s) == Arrive(u, s.pieces, s.verdict)
  {
    hide PayloadLength, EncodeInt, DecodeInt, Concat;
    var word := EncodeInt(s.request);
    IntRoundTrip(s.request);
    var all := [word] + s.pieces;
    assert all[0] == word && all[1..] == s.pieces;
  }

  lemma WithParameters(t: Trace, s: Sent)
    requires Valid(t.conn) && t.conn.phase == NextRequest && WellSent(s) && DataLength(s.request) != 0
    ensures Send(t, s) == Served(t, s.request, Concat(s.pieces), EncodeInt(s.request) + Concat(s.pieces), s.verdict)
  {
    hide DataLength, PayloadLength, EncodeInt, Concat, Arrive, Send;
    var word, all := EncodeInt(s.request), Concat(s.pieces);
    var u := Trace(Conn(NeedsData, s.request, []), t.log, t.consumed + word);
    WordArrives(t, s);
    assert [] + all == all;
    EverySplitRuns(u, s.pieces, s.verdict);
    assert t.consumed + word + all + s.verdict.payload == t.consumed + (word + all) + s.verdict.payload;
  }

  /** Only no pieces at all are empty together. */
  lemma {:induction false} ConcatLength(pieces: seq<seq<byte>>)
    requires NonEmpty(pieces)
    ensures |pieces| > 0 ==> |Concat(pieces)| > 0
    ensures |pieces| == 0 ==> Concat(pieces) == []
  {
  }

  lemma NoParameters(t: Trace, s: Sent)
    requires Valid(t.conn) && t.conn.phase == NextRequest && WellSent(s) && DataLength(s.request) == 0
    ensures Send(t, s) == Served(t, s.request, Concat(s.pieces), EncodeInt(s.request) + Concat(s.pieces), s.verdict)
  {
    hide PayloadLength, EncodeInt, DecodeInt;
    var word := EncodeInt(s.request);
    IntRoundTrip(s.request);
    ConcatLength(s.pieces);
    var all := [word] + s.pieces;
    assert all == [word] && all[0] == word && all[1..] == s.pieces && Concat(s.pieces) == [];
    assert word + [] == word && t.consumed + (word + []) == t.consumed + word;
    var u := TakeStep(t, Step(Bytes(word), s.verdict));
    assert u == Served(t, s.request, [], word, s.verdict);
    assert Arrive(t, all, s.verdict) == Arrive(u, all[1..], s.verdict) == u;
  }

  // ---- whole conversations ----

  function Converse(t: Trace, ss: seq<Sent>): Trace
    requires Valid(t.conn) && forall i :: 0 <= i < |ss| ==> CONNECT < ss[i].request < PROTO_MAX
    decreases |ss|
  {
    if |ss| == 0 then t else Converse(Send(t, ss[0]), ss[1..])
  }

  /** The handler runs a list of requests should lead to. */
  function Answers(ss: seq<Sent>): seq<Handled> {
    if |ss| == 0 then []
    else [Handled(ss[0].request, Concat(ss[0].pieces), ss[0].verdict.payload)] + Answers(ss[1..])
  }

  /** Requests one after the other, each accepted without becoming a stream, except
      perhaps the last. */
  predicate GoesOn(ss: seq<Sent>) {
    && (forall i :: 0 <= i < |ss| ==> WellSent(ss[i]))
    && forall i :: 0 <= i < |ss| - 1 ==> PhaseAfter(ss[i].verdict) == NextRequest
  }

  lemma GoesOnFrom(ss: seq<Sent>)
    requires GoesOn(ss) && |ss| > 0
    ensures WellSent(ss[0]) && GoesOn(ss[1..]) && (|ss| > 1 ==> PhaseAfter(ss[0].verdict) == NextRequest)
    ensures forall i :: 0 <= i < |ss| ==> CONNECT < ss[i].request < PROTO_MAX
  {
  }

  lemma {:induction false} EveryConversation(t: Trace, ss: seq<Sent>)
    requires Valid(t.conn) && t.conn.phase == NextRequest && GoesOn(ss)
    ensures Converse(t, ss).log == t.log + Answers(ss)
    decreases |ss|
  {
    hide Send, Concat, WellSent, GoesOn, Valid, PhaseAfter;
    if |ss| == 0 {
      assert t.log + [] == t.log;
    } else {
      GoesOnFrom(ss);
      EveryRequestRuns(t, ss[0]);
      var u := Send(t, ss[0]);
      if |ss| == 1 {
        assert ss[1..] == [] && Answers([]) == [];
      } else {
        EveryConversation(u, ss[1..]);
      }
      Onward(t.log, Handled(ss[0].request, Concat(ss[0].pieces), ss[0].verdict.payload), Answers(ss[1..]));
    }
  }

  lemma Onward(log: seq<Handled>, h: Handled, rest: seq<Handled>)
    ensures log + [h] + rest == log + ([h] + rest)
  {
  }

  /** From the moment a client is accepted: whatever the pieces its bytes come in,
      connect and then each request runs its handler, once, in order, on exactly its
      parameters. */
  lemma WholeConversation(connect: seq<seq<byte>>, v: Verdict, ss: seq<Sent>)
    requires NonEmpty(connect) && |Concat(connect)| == DataLength(CONNECT) && Complete(CONNECT, Concat(connect), v)
    requires PhaseAfter(v) == NextRequest && GoesOn(ss)
    ensures Converse(Arrive(Trace(Accepted(), [], []), connect, v), ss).log
         == [Handled(CONNECT, Concat(connect), v.payload)] + Answers(ss)
  {
    hide GoesOn, Concat, DataLength, PayloadLength, Arrive, Converse;
    var t := Trace(Accepted(), [], []);
    assert [] + Concat(connect) == Concat(connect);
    EverySplitRuns(t, connect, v);
    EveryConversation(Arrive(t, connect, v), ss);
  }
}
