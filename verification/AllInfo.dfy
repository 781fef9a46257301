/** The server's information printer and the client's parser for it
    (proto.c:618-722, esdmgr.c:121-224). */
module AllInfo {
  import opened CTypes
  import opened Wire
  import opened Options

  /** A NUL-terminated name in a 128-byte field, as the server stores it. */
  type Name = n: seq<byte> | |n| == NAME_MAX && n[NAME_MAX - 1] == 0 witness seq(128, _ => 0)

  datatype ServerInfo = ServerInfo(version: int32, rate: int32, format: int32)
  datatype PlayerInfo = PlayerInfo(id: int32, name: Name, rate: int32, left: int32, right: int32, format: int32)
  datatype SampleInfo = SampleInfo(id: int32, name: Name, rate: int32, left: int32, right: int32, format: int32,
      length: int32)
  datatype Info = Info(server: ServerInfo, players: seq<PlayerInfo>, samples: seq<SampleInfo>)

  const PLAYER_SIZE := 148
  const SAMPLE_SIZE := 152

  function NoName(): Name { seq(NAME_MAX, _ => 0) }

  // ---- printing ----

  function PrintServer(s: ServerInfo): (r: seq<byte>)
    ensures |r| == 12
  {
    EncodeInt(s.version) + EncodeInt(s.rate) + EncodeInt(s.format)
  }

  function PrintPlayer(p: PlayerInfo): (r: seq<byte>)
    ensures |r| == PLAYER_SIZE
  {
    EncodeInt(p.id) + p.name + EncodeInt(p.rate) + EncodeInt(p.left) + EncodeInt(p.right) + EncodeInt(p.format)
  }

  function PrintSample(s: SampleInfo): (r: seq<byte>)
    ensures |r| == SAMPLE_SIZE
  {
    EncodeInt(s.id) + s.name + EncodeInt(s.rate) + EncodeInt(s.left) + EncodeInt(s.right) + EncodeInt(s.format)
        + EncodeInt(s.length)
  }

  function PrintPlayers(ps: seq<PlayerInfo>): seq<byte> {
    if |ps| == 0 then [] else PrintPlayer(ps[0]) + PrintPlayers(ps[1..])
  }

  function PrintSamples(ss: seq<SampleInfo>): seq<byte> {
    if |ss| == 0 then [] else PrintSample(ss[0]) + PrintSamples(ss[1..])
  }

  /** The record with id 0 that ends a list. Its volumes are whatever the last
      record, or the stack, left behind. */
  function PlayerEnd(left: int32, right: int32): PlayerInfo { PlayerInfo(0, NoName(), 0, left, right, 0) }
  function SampleEnd(left: int32, right: int32): SampleInfo { SampleInfo(0, NoName(), 0, left, right, 0, 0) }

  /** What the printer writes, given the leftover volumes. */
  ghost predicate Printed(out: seq<byte>, info: Info) {
    exists l1: int32, r1: int32, l2: int32, r2: int32 :: out == Layout(info, l1, r1, l2, r2)
  }

  function Layout(info: Info, l1: int32, r1: int32, l2: int32, r2: int32): seq<byte> {
    PrintServer(info.server) + (PrintPlayers(info.players) + (PrintPlayer(PlayerEnd(l1, r1))
    + (PrintSamples(info.samples) + PrintSample(SampleEnd(l2, r2)))))
  }

  /** The player loop of `esd_proto_all_info`: left and right keep their values
      from one record to the next, and are not set before the first. */
  method WritePlayers(ps: seq<PlayerInfo>, head: seq<byte>, l0: int32, r0: int32)
    returns (out: seq<byte>, left: int32, right: int32)
    ensures out == head + PrintPlayers(ps) + PrintPlayer(PlayerEnd(left, right))
  {
    out, left, right := head, l0, r0;
    var i := 0;
    while i < |ps|
      invariant 0 <= i <= |ps| && head + PrintPlayers(ps) == out + PrintPlayers(ps[i..])
    {
      var p := ps[i];
      left, right := p.left, p.right;
      assert ps[i..][1..] == ps[i + 1..];
      assert out + (PrintPlayer(p) + PrintPlayers(ps[i + 1..])) == (out + PrintPlayer(p)) + PrintPlayers(ps[i + 1..]);
      out := out + PrintPlayer(p);
      i := i + 1;
    }
    assert ps[i..] == [] && out + [] == out;
    out := out + PrintPlayer(PlayerEnd(left, right));
  }

  method WriteSamples(ss: seq<SampleInfo>, head: seq<byte>, l0: int32, r0: int32)
    returns (out: seq<byte>, left: int32, right: int32)
    ensures out == head + PrintSamples(ss) + PrintSample(SampleEnd(left, right))
  {
    out, left, right := head, l0, r0;
    var i := 0;
    while i < |ss|
      invariant 0 <= i <= |ss| && head + PrintSamples(ss) == out + PrintSamples(ss[i..])
    {
      var s := ss[i];
      left, right := s.left, s.right;
      assert ss[i..][1..] == ss[i + 1..];
      assert out + (PrintSample(s) + PrintSamples(ss[i + 1..])) == (out + PrintSample(s)) + PrintSamples(ss[i + 1..]);
      out := out + PrintSample(s);
      i := i + 1;
    }
    assert ss[i..] == [] && out + [] == out;
    out := out + PrintSample(SampleEnd(left, right));
  }

  /** `esd_proto_all_info` */
  method PrintAllInfo(info: Info, junkLeft: int32, junkRight: int32) returns (out: seq<byte>)
    ensures Printed(out, info)
  {
    out := PrintServer(info.server);
    var l1, r1, l2, r2;
    out, l1, r1 := WritePlayers(info.players, out, junkLeft, junkRight);
    out, l2, r2 := WriteSamples(info.samples, out, l1, r1);
    Joined(PrintServer(info.server), PrintPlayers(info.players), PrintPlayer(PlayerEnd(l1, r1)),
           PrintSamples(info.samples), PrintSample(SampleEnd(l2, r2)));
    assert out == Layout(info, l1, r1, l2, r2);
  }

  lemma Joined(a: seq<byte>, b: seq<byte>, c: seq<byte>, d: seq<byte>, e: seq<byte>)
    ensures a + b + c + d + e == a + (b + (c + (d + e)))
  {
  }

  // ---- parsing ----

  function IntAt(b: seq<byte>, i: nat): int32
    requires i + 4 <= |b|
  {
    DecodeInt(b[i..i + 4])
  }

  /** A name field with its last byte set to NUL. */
  function NameAt(b: seq<byte>, i: nat): Name
    requires i + NAME_MAX <= |b|
  {
    b[i..i + NAME_MAX - 1] + [0]
  }

  function ReadServer(b: seq<byte>): ServerInfo
    requires |b| >= 12
  {
    ServerInfo(IntAt(b, 0), IntAt(b, 4), IntAt(b, 8))
  }

  function ReadPlayer(b: seq<byte>): PlayerInfo
    requires |b| >= PLAYER_SIZE
  {
    PlayerInfo(IntAt(b, 0), NameAt(b, 4), IntAt(b, 132), IntAt(b, 136), IntAt(b, 140), IntAt(b, 144))
  }

  function ReadSample(b: seq<byte>): SampleInfo
    requires |b| >= SAMPLE_SIZE
  {
    SampleInfo(IntAt(b, 0), NameAt(b, 4), IntAt(b, 132), IntAt(b, 136), IntAt(b, 140), IntAt(b, 144), IntAt(b, 148))
  }

  datatype Parsed<T> = Parsed(items: seq<T>, rest: seq<byte>)

  /** Records are put in front of those read before; one whose id is not positive
      ends the list and is dropped. A stream that ends early is an error. */
  function ParsePlayers(b: seq<byte>, acc: seq<PlayerInfo>): Option<Parsed<PlayerInfo>>
    decreases |b|
  {
    if |b| < PLAYER_SIZE then None
    else if ReadPlayer(b).id > 0 then ParsePlayers(b[PLAYER_SIZE..], [ReadPlayer(b)] + acc)
    else Some(Parsed(acc, b[PLAYER_SIZE..]))
  }

  function ParseSamples(b: seq<byte>, acc: seq<SampleInfo>): Option<Parsed<SampleInfo>>
    decreases |b|
  {
    if |b| < SAMPLE_SIZE then None
    else if ReadSample(b).id > 0 then ParseSamples(b[SAMPLE_SIZE..], [ReadSample(b)] + acc)
    else Some(Parsed(acc, b[SAMPLE_SIZE..]))
  }

  /** The information, and the bytes not consumed. */
  datatype Reply = Reply(info: Info, rest: seq<byte>)

  function ParseAll(b: seq<byte>): Option<Reply> {
    if |b| < 12 then None
    else
      var p := ParsePlayers(b[12..], []);
      if p.None? then None
      else
        var s := ParseSamples(p.value.rest, []);
        if s.None? then None
        else Some(Reply(Info(ReadServer(b), p.value.items, s.value.items), s.value.rest))
  }

  /** `esd_get_all_info`: the two do/while loops over the stream. */
  method GetAllInfo(input: seq<byte>) returns (r: Option<Reply>)
    ensures r == ParseAll(input)
  {
    hide ReadPlayer, ReadSample, ReadServer;
    if |input| < 12 { return None; }
    var b := input[12..];
    var players: seq<PlayerInfo> := [];
    var more := true;
    while more
      invariant if more then ParsePlayers(input[12..], []) == ParsePlayers(b, players)
                else ParsePlayers(input[12..], []) == Some(Parsed(players, b))
      decreases |b|, more
    {
      if |b| < PLAYER_SIZE { return None; }
      var p := ReadPlayer(b);
      b := b[PLAYER_SIZE..];
      if p.id > 0 { players := [p] + players; }
      more := p.id > 0;
    }
    ghost var b2 := b;
    var samples: seq<SampleInfo> := [];
    more := true;
    while more
      invariant if more then ParseSamples(b2, []) == ParseSamples(b, samples)
                else ParseSamples(b2, []) == Some(Parsed(samples, b))
      decreases |b|, more
    {
      if |b| < SAMPLE_SIZE { return None; }
      var s := ReadSample(b);
      b := b[SAMPLE_SIZE..];
      if s.id > 0 { samples := [s] + samples; }
      more := s.id > 0;
    }
    r := Some(Reply(Info(ReadServer(input), players, samples), b));
  }

  // ---- where each field is ----

  lemma ServerLayout(s: ServerInfo)
    ensures var b := PrintServer(s);
            b[0..4] == EncodeInt(s.version) && b[4..8] == EncodeInt(s.rate) && b[8..12] == EncodeInt(s.format)
  {
    hide EncodeInt;
  }

  /** A player's record: id, name, rate, left and right volume, format. */
  lemma PlayerLayout(p: PlayerInfo)
    ensures var b := PrintPlayer(p);
            && |b| == 148 && b[0..4] == EncodeInt(p.id) && b[4..132] == p.name && b[132..136] == EncodeInt(p.rate)
            && b[136..140] == EncodeInt(p.left) && b[140..144] == EncodeInt(p.right)
            && b[144..148] == EncodeInt(p.format)
  {
    hide EncodeInt;
  }

  /** A sample's record has its length behind that. */
  lemma SampleLayout(s: SampleInfo)
    ensures var b := PrintSample(s);
            && |b| == 152 && b[0..4] == EncodeInt(s.id) && b[4..132] == s.name && b[132..136] == EncodeInt(s.rate)
            && b[136..140] == EncodeInt(s.left) && b[140..144] == EncodeInt(s.right)
            && b[144..148] == EncodeInt(s.format) && b[148..152] == EncodeInt(s.length)
  {
    hide EncodeInt;
  }

  // ---- the parser undoes the printer ----

  /** Every id is positive. */
  predicate PlayerIds(ps: seq<PlayerInfo>) { forall i :: 0 <= i < |ps| ==> ps[i].id > 0 }
  predicate SampleIds(ss: seq<SampleInfo>) { forall i :: 0 <= i < |ss| ==> ss[i].id > 0 }

  function Reversed<T>(s: seq<T>): seq<T> { if |s| == 0 then [] else Reversed(s[1..]) + [s[0]] }

  lemma IntAtEncoded(b: seq<byte>, i: nat, x: int32)
    requires i + 4 <= |b| && b[i..i + 4] == EncodeInt(x)
    ensures IntAt(b, i) == x
  {
    IntRoundTrip(x);
  }

  lemma ReadPrintedServer(s: ServerInfo, rest: seq<byte>)
    ensures ReadServer(PrintServer(s) + rest) == s && (PrintServer(s) + rest)[12..] == rest
  {
    hide EncodeInt, IntAt;
    var b := PrintServer(s) + rest;
    assert b[0..4] == EncodeInt(s.version) && b[4..8] == EncodeInt(s.rate) && b[8..12] == EncodeInt(s.format);
    IntAtEncoded(b, 0, s.version);
    IntAtEncoded(b, 4, s.rate);
    IntAtEncoded(b, 8, s.format);
  }

  lemma ReadPrintedPlayer(p: PlayerInfo, rest: seq<byte>)
    ensures ReadPlayer(PrintPlayer(p) + rest) == p && (PrintPlayer(p) + rest)[PLAYER_SIZE..] == rest
  {
    hide EncodeInt, IntAt;
    var b := PrintPlayer(p) + rest;
    assert b[0..4] == EncodeInt(p.id) && b[4..132] == p.name && b[132..136] == EncodeInt(p.rate);
    assert b[136..140] == EncodeInt(p.left) && b[140..144] == EncodeInt(p.right) && b[144..148] == EncodeInt(p.format);
    assert b[4..131] == b[4..132][..127] && p.name == p.name[..127] + [0];
    IntAtEncoded(b, 0, p.id);
    IntAtEncoded(b, 132, p.rate);
    IntAtEncoded(b, 136, p.left);
    IntAtEncoded(b, 140, p.right);
    IntAtEncoded(b, 144, p.format);
  }

  lemma ReadPrintedSample(s: SampleInfo, rest: seq<byte>)
    ensures ReadSample(PrintSample(s) + rest) == s && (PrintSample(s) + rest)[SAMPLE_SIZE..] == rest
  {
    hide EncodeInt, IntAt;
    var b := PrintSample(s) + rest;
    assert b[0..4] == EncodeInt(s.id) && b[4..132] == s.name && b[132..136] == EncodeInt(s.rate);
    assert b[136..140] == EncodeInt(s.left) && b[140..144] == EncodeInt(s.right) && b[144..148] == EncodeInt(s.format);
    assert b[148..152] == EncodeInt(s.length);
    assert b[4..131] == b[4..132][..127] && s.name == s.name[..127] + [0];
    IntAtEncoded(b, 0, s.id);
    IntAtEncoded(b, 132, s.rate);
    IntAtEncoded(b, 136, s.left);
    IntAtEncoded(b, 140, s.right);
    IntAtEncoded(b, 144, s.format);
    IntAtEncoded(b, 148, s.length);
  }

  lemma {:induction false} PlayersRoundTrip(ps: seq<PlayerInfo>, l: int32, r: int32, acc: seq<PlayerInfo>,
                                            rest: seq<byte>)
    requires PlayerIds(ps)
    ensures ParsePlayers(PrintPlayers(ps) + (PrintPlayer(PlayerEnd(l, r)) + rest), acc)
         == Some(Parsed(Reversed(ps) + acc, rest))
  {
    hide PrintPlayer, ReadPlayer;
    var tail := PrintPlayer(PlayerEnd(l, r)) + rest;
    if |ps| == 0 {
      assert [] + tail == tail && [] + acc == acc;
      ReadPrintedPlayer(PlayerEnd(l, r), rest);
    } else {
      var more := PrintPlayers(ps[1..]) + tail;
      assert PrintPlayers(ps) + tail == PrintPlayer(ps[0]) + more;
      ReadPrintedPlayer(ps[0], more);
      PlayersRoundTrip(ps[1..], l, r, [ps[0]] + acc, rest);
      assert Reversed(ps[1..]) + ([ps[0]] + acc) == Reversed(ps) + acc;
    }
  }

  /** A record whose id is not positive ends the list early. */
  lemma {:induction false} CutAtNonPositive(ps: seq<PlayerInfo>, i: nat, acc: seq<PlayerInfo>, tail: seq<byte>)
    requires i < |ps| && ps[i].id <= 0 && forall j :: 0 <= j < i ==> ps[j].id > 0
    ensures ParsePlayers(PrintPlayers(ps) + tail, acc)
         == Some(Parsed(Reversed(ps[..i]) + acc, PrintPlayers(ps[i + 1..]) + tail))
  {
    hide PrintPlayer, ReadPlayer;
    var more := PrintPlayers(ps[1..]) + tail;
    assert PrintPlayers(ps) + tail == PrintPlayer(ps[0]) + more;
    ReadPrintedPlayer(ps[0], more);
    if i == 0 {
      assert ps[..0] == [] && [] + acc == acc;
    } else {
      CutAtNonPositive(ps[1..], i - 1, [ps[0]] + acc, tail);
      assert ps[1..][i..] == ps[i + 1..] && ps[..i][1..] == ps[1..][..i - 1];
      assert Reversed(ps[1..][..i - 1]) + ([ps[0]] + acc) == Reversed(ps[..i]) + acc;
    }
  }

  lemma {:induction false} CutAtSample(ss: seq<SampleInfo>, i: nat, acc: seq<SampleInfo>, tail: seq<byte>)
    requires i < |ss| && ss[i].id <= 0 && forall j :: 0 <= j < i ==> ss[j].id > 0
    ensures ParseSamples(PrintSamples(ss) + tail, acc)
         == Some(Parsed(Reversed(ss[..i]) + acc, PrintSamples(ss[i + 1..]) + tail))
  {
    hide PrintSample, ReadSample;
    var more := PrintSamples(ss[1..]) + tail;
    assert PrintSamples(ss) + tail == PrintSample(ss[0]) + more;
    ReadPrintedSample(ss[0], more);
    if i == 0 {
      assert ss[..0] == [] && [] + acc == acc;
    } else {
      CutAtSample(ss[1..], i - 1, [ss[0]] + acc, tail);
      assert ss[1..][i..] == ss[i + 1..] && ss[..i][1..] == ss[1..][..i - 1];
      assert Reversed(ss[1..][..i - 1]) + ([ss[0]] + acc) == Reversed(ss[..i]) + acc;
    }
  }

  lemma {:induction false} SamplesRoundTrip(ss: seq<SampleInfo>, l: int32, r: int32, acc: seq<SampleInfo>,
                                            rest: seq<byte>)
    requires SampleIds(ss)
    ensures ParseSamples(PrintSamples(ss) + (PrintSample(SampleEnd(l, r)) + rest), acc)
         == Some(Parsed(Reversed(ss) + acc, rest))
  {
    hide PrintSample, ReadSample;
    var tail := PrintSample(SampleEnd(l, r)) + rest;
    if |ss| == 0 {
      assert [] + tail == tail && [] + acc == acc;
      ReadPrintedSample(SampleEnd(l, r), rest);
    } else {
      var more := PrintSamples(ss[1..]) + tail;
      assert PrintSamples(ss) + tail == PrintSample(ss[0]) + more;
      ReadPrintedSample(ss[0], more);
      SamplesRoundTrip(ss[1..], l, r, [ss[0]] + acc, rest);
      assert Reversed(ss[1..]) + ([ss[0]] + acc) == Reversed(ss) + acc;
    }
  }

  /** Parsing what was printed gives back the same records, each list reversed,
      and leaves exactly the bytes that follow, whatever the terminators hold. */
  lemma InfoRoundTrip(info: Info, l1: int32, r1: int32, l2: int32, r2: int32, rest: seq<byte>)
    requires PlayerIds(info.players) && SampleIds(info.samples)
    ensures ParseAll(Layout(info, l1, r1, l2, r2) + rest)
         == Some(Reply(Info(info.server, Reversed(info.players), Reversed(info.samples)), rest))
  {
    hide PrintServer, ReadServer, PrintPlayer, PrintSample, PrintPlayers, PrintSamples, ParsePlayers, ParseSamples;
    var p, e, s, f := PrintPlayers(info.players), PrintPlayer(PlayerEnd(l1, r1)),
                      PrintSamples(info.samples), PrintSample(SampleEnd(l2, r2));
    var tail := s + (f + rest);
    Regroup(PrintServer(info.server), p, e, s, f, rest);
    ReadPrintedServer(info.server, p + (e + tail));
    PlayersRoundTrip(info.players, l1, r1, [], tail);
    SamplesRoundTrip(info.samples, l2, r2, [], rest);
    assert Reversed(info.players) + [] == Reversed(info.players);
    assert Reversed(info.samples) + [] == Reversed(info.samples);
  }

  lemma {:induction false} ReversedLength<T>(s: seq<T>)
    ensures |Reversed(s)| == |s|
  {
    if |s| > 0 { ReversedLength(s[1..]); }
  }

  /** The last record printed is the first in the client's list. */
  lemma {:induction false} ReversedAt<T>(s: seq<T>, k: nat)
    requires k < |s|
    ensures |Reversed(s)| == |s| && Reversed(s)[k] == s[|s| - 1 - k]
  {
    ReversedLength(s);
    ReversedLength(s[1..]);
    if k < |s| - 1 { ReversedAt(s[1..], k); }
  }

  /** The first record whose id is not positive. */
  lemma FirstBadPlayer(ps: seq<PlayerInfo>) returns (i: nat)
    requires !PlayerIds(ps)
    ensures i < |ps| && ps[i].id <= 0 && forall j :: 0 <= j < i ==> ps[j].id > 0
  {
    i := 0;
    while i < |ps| && ps[i].id > 0
      invariant i <= |ps| && forall j :: 0 <= j < i ==> ps[j].id > 0
    {
      i := i + 1;
    }
  }

  lemma FirstBadSample(ss: seq<SampleInfo>) returns (i: nat)
    requires !SampleIds(ss)
    ensures i < |ss| && ss[i].id <= 0 && forall j :: 0 <= j < i ==> ss[j].id > 0
  {
    i := 0;
    while i < |ss| && ss[i].id > 0
      invariant i <= |ss| && forall j :: 0 <= j < i ==> ss[j].id > 0
    {
      i := i + 1;
    }
  }

  /** With a bad player id the players come back short. */
  lemma BadPlayer(info: Info, l1: int32, r1: int32, l2: int32, r2: int32, rest: seq<byte>)
    requires !PlayerIds(info.players)
    ensures var b := Layout(info, l1, r1, l2, r2) + rest;
            |b| >= 12 && ParsePlayers(b[12..], []).Some?
            && |ParsePlayers(b[12..], []).value.items| < |info.players|
  {
    hide PrintServer, PrintPlayer, PrintSample, PrintPlayers, PrintSamples, ParsePlayers;
    var i := FirstBadPlayer(info.players);
    var p, e, s, f := PrintPlayers(info.players), PrintPlayer(PlayerEnd(l1, r1)),
                      PrintSamples(info.samples), PrintSample(SampleEnd(l2, r2));
    Regroup(PrintServer(info.server), p, e, s, f, rest);
    ReadPrintedServer(info.server, p + (e + (s + (f + rest))));
    CutAtNonPositive(info.players, i, [], e + (s + (f + rest)));
    ReversedLength(info.players[..i]);
    assert Reversed(info.players[..i]) + [] == Reversed(info.players[..i]);
  }

  /** With good players but a bad sample id the samples do. */
  lemma BadSample(info: Info, l1: int32, r1: int32, l2: int32, r2: int32, rest: seq<byte>)
    requires PlayerIds(info.players) && !SampleIds(info.samples)
    ensures var r := ParseAll(Layout(info, l1, r1, l2, r2) + rest);
            r.Some? && |r.value.info.samples| < |info.samples|
  {
    hide PrintServer, ReadServer, PrintPlayer, PrintSample, PrintPlayers, PrintSamples, ParsePlayers, ParseSamples;
    var i := FirstBadSample(info.samples);
    var p, e, s, f := PrintPlayers(info.players), PrintPlayer(PlayerEnd(l1, r1)),
                      PrintSamples(info.samples), PrintSample(SampleEnd(l2, r2));
    Regroup(PrintServer(info.server), p, e, s, f, rest);
    ReadPrintedServer(info.server, p + (e + (s + (f + rest))));
    PlayersRoundTrip(info.players, l1, r1, [], s + (f + rest));
    CutAtSample(info.samples, i, [], f + rest);
    ReversedLength(info.samples[..i]);
    assert Reversed(info.samples[..i]) + [] == Reversed(info.samples[..i]);
  }

  /** The client gets everything back, and nothing more is consumed, exactly when
      every id is positive. */
  lemma RoundTripIff(info: Info, l1: int32, r1: int32, l2: int32, r2: int32, rest: seq<byte>)
    ensures ParseAll(Layout(info, l1, r1, l2, r2) + rest)
            == Some(Reply(Info(info.server, Reversed(info.players), Reversed(info.samples)), rest))
       <==> PlayerIds(info.players) && SampleIds(info.samples)
  {
    hide Layout, ParsePlayers, ParseSamples, ReadServer;
    ReversedLength(info.players);
    ReversedLength(info.samples);
    if !PlayerIds(info.players) {
      BadPlayer(info, l1, r1, l2, r2, rest);
    } else if !SampleIds(info.samples) {
      BadSample(info, l1, r1, l2, r2, rest);
    } else {
      InfoRoundTrip(info, l1, r1, l2, r2, rest);
    }
  }

  // ---- a reply that is cut short ----

  lemma ReadPrefixPlayer(p: PlayerInfo, b: seq<byte>)
    requires |b| >= PLAYER_SIZE && b[..PLAYER_SIZE] == PrintPlayer(p)
    ensures ReadPlayer(b) == p
  {
    hide PrintPlayer, ReadPlayer;
    ReadPrintedPlayer(p, b[PLAYER_SIZE..]);
    assert PrintPlayer(p) + b[PLAYER_SIZE..] == b;
  }

  lemma ReadPrefixSample(s: SampleInfo, b: seq<byte>)
    requires |b| >= SAMPLE_SIZE && b[..SAMPLE_SIZE] == PrintSample(s)
    ensures ReadSample(b) == s
  {
    hide PrintSample, ReadSample;
    ReadPrintedSample(s, b[SAMPLE_SIZE..]);
    assert PrintSample(s) + b[SAMPLE_SIZE..] == b;
  }

  lemma {:induction false} PlayersCut(ps: seq<PlayerInfo>, l: int32, r: int32, acc: seq<PlayerInfo>, k: nat)
    requires PlayerIds(ps) && k < |PrintPlayers(ps) + PrintPlayer(PlayerEnd(l, r))|
    ensures ParsePlayers((PrintPlayers(ps) + PrintPlayer(PlayerEnd(l, r)))[..k], acc) == None
    decreases |ps|
  {
    hide PrintPlayer, ReadPlayer;
    var all := PrintPlayers(ps) + PrintPlayer(PlayerEnd(l, r));
    if |ps| > 0 && k >= PLAYER_SIZE {
      var rest := PrintPlayers(ps[1..]) + PrintPlayer(PlayerEnd(l, r));
      assert all == PrintPlayer(ps[0]) + rest;
      assert all[..k][..PLAYER_SIZE] == PrintPlayer(ps[0]);
      ReadPrefixPlayer(ps[0], all[..k]);
      assert all[..k][PLAYER_SIZE..] == rest[..k - PLAYER_SIZE];
      PlayersCut(ps[1..], l, r, [ps[0]] + acc, k - PLAYER_SIZE);
    }
  }

  lemma {:induction false} SamplesCut(ss: seq<SampleInfo>, l: int32, r: int32, acc: seq<SampleInfo>, k: nat)
    requires SampleIds(ss) && k < |PrintSamples(ss) + PrintSample(SampleEnd(l, r))|
    ensures ParseSamples((PrintSamples(ss) + PrintSample(SampleEnd(l, r)))[..k], acc) == None
    decreases |ss|
  {
    hide PrintSample, ReadSample;
    var all := PrintSamples(ss) + PrintSample(SampleEnd(l, r));
    if |ss| > 0 && k >= SAMPLE_SIZE {
      var rest := PrintSamples(ss[1..]) + PrintSample(SampleEnd(l, r));
      assert all == PrintSample(ss[0]) + rest;
      assert all[..k][..SAMPLE_SIZE] == PrintSample(ss[0]);
      ReadPrefixSample(ss[0], all[..k]);
      assert all[..k][SAMPLE_SIZE..] == rest[..k - SAMPLE_SIZE];
      SamplesCut(ss[1..], l, r, [ss[0]] + acc, k - SAMPLE_SIZE);
    }
  }

  /** A stream that ends anywhere inside the reply is an error. */
  lemma CutReplyFails(info: Info, l1: int32, r1: int32, l2: int32, r2: int32, k: nat)
    requires PlayerIds(info.players) && SampleIds(info.samples) && k < |Layout(info, l1, r1, l2, r2)|
    ensures ParseAll(Layout(info, l1, r1, l2, r2)[..k]) == None
  {
    hide PrintServer, ReadServer, PrintPlayer, PrintSample, PrintPlayers, PrintSamples, ParsePlayers, ParseSamples;
    var p, e := PrintPlayers(info.players), PrintPlayer(PlayerEnd(l1, r1));
    var tail := PrintSamples(info.samples) + PrintSample(SampleEnd(l2, r2));
    var all, body := Layout(info, l1, r1, l2, r2), p + e;
    assert all == PrintServer(info.server) + (body + tail);
    if k >= 12 {
      assert all[..k][12..] == (body + tail)[..k - 12];
      if k - 12 < |body| {
        assert (body + tail)[..k - 12] == body[..k - 12];
        PlayersCut(info.players, l1, r1, [], k - 12);
      } else {
        var m := k - 12 - |body|;
        assert (body + tail)[..k - 12] == p + (e + tail[..m]);
        PlayersRoundTrip(info.players, l1, r1, [], tail[..m]);
        SamplesCut(info.samples, l2, r2, [], m);
      }
    }
  }

  /** The server prints, the client parses. */
  method Query(info: Info, junkLeft: int32, junkRight: int32, later: seq<byte>) returns (r: Option<Reply>)
    requires PlayerIds(info.players) && SampleIds(info.samples)
    ensures r == Some(Reply(Info(info.server, Reversed(info.players), Reversed(info.samples)), later))
  {
    hide Layout, ParseAll;
    var out := PrintAllInfo(info, junkLeft, junkRight);
    ghost var l1: int32, r1: int32, l2: int32, r2: int32 :| out == Layout(info, l1, r1, l2, r2);
    InfoRoundTrip(info, l1, r1, l2, r2, later);
    r := GetAllInfo(out + later);
  }

  lemma Regroup(a: seq<byte>, p: seq<byte>, e: seq<byte>, s: seq<byte>, f: seq<byte>, rest: seq<byte>)
    ensures a + (p + (e + (s + f))) + rest == a + (p + (e + (s + (f + rest))))
  {
  }
}
