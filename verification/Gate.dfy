/** Who may use the daemon and whether it plays: ownership, locking and standby
    over whole runs (proto.c:121-292, 317-329, 815-835; esd.c:578-618;
    clients.c:358-388). */
module Gate {
  import opened Options
  import opened CTypes
  import opened Wire
  import opened Requests

  /** The global flags. */
  datatype Globals = Globals(owned: bool, locked: bool, key: seq<byte>, onStandby: bool, onAuto: bool, forced: bool)

  /** At start; -promiscuous starts owned and unlocked. */
  function StartUp(promiscuous: bool): Globals {
    Globals(promiscuous, !promiscuous, seq(KEY_LEN, _ => 0), false, false, false)
  }

  datatype Answer = Answer(g: Globals, ok: bool)

  /** `esd_validate_source`: the first client claims the daemon. */
  function Validate(g: Globals, key: seq<byte>, ownerOnly: bool): Answer {
    if !g.owned then Answer(g.(locked := true, key := key, owned := true), true)
    else if !g.locked && !ownerOnly then Answer(g, true)
    else Answer(g, g.key == key)
  }

  /** `esd_server_standby` and `esd_server_resume`; `device` is whether it opens. */
  function GoStandby(g: Globals): Globals { g.(onStandby := true) }

  function GoResume(g: Globals, device: bool): Answer {
    if !g.onStandby then Answer(g, true)
    else if !device then Answer(g, false)
    else Answer(g.(onStandby := false, onAuto := false, forced := false), true)
  }

  const ENDIAN_KEY := 0x454E444E
  const SWAPPED_KEY := 0x4E444E45

  /** `esd_check_endian` */
  predicate EndianOk(word: int) { word == ENDIAN_KEY || word == SWAPPED_KEY }

  function KeyOf(params: seq<byte>): seq<byte>
    requires |params| == KEY_LEN + 4
  {
    params[..KEY_LEN]
  }

  function EndianOf(params: seq<byte>): int
    requires |params| == KEY_LEN + 4
  {
    DecodeInt(params[KEY_LEN..])
  }

  predicate Keyed(request: int) {
    request == CONNECT || request == LOCK || request == UNLOCK || request == STANDBY || request == RESUME
  }

  /** What the handler of a request does to the flags, and whether the client
      stays. `v` is the verdict of the parts not modelled here. */
  function Serve(g: Globals, request: int, params: seq<byte>, device: bool, v: Verdict): Answer
    requires Keyed(request) ==> |params| == KEY_LEN + 4
  {
    if request == CONNECT then
      var a := Validate(g, KeyOf(params), false);
      Answer(a.g, a.ok && EndianOk(EndianOf(params)))
    else if request == LOCK then
      var a := Validate(g, KeyOf(params), true);
      if a.ok then Answer(a.g.(locked := true), true) else a
    else if request == UNLOCK then
      var a := Validate(g, KeyOf(params), true);
      if a.ok then Answer(a.g.(locked := false), true) else a
    else if request == STANDBY then
      var a := Validate(g, KeyOf(params), true);
      var h := if a.ok then GoStandby(a.g) else a.g;
      Answer(if !h.onAuto then h.(forced := true) else h, a.ok)
    else if request == RESUME then
      var a := Validate(g, KeyOf(params), true);
      var b := if a.ok then GoResume(a.g, device) else a;
      if b.ok then Answer(b.g.(forced := false), true) else b
    else if request == STREAM_REC then
      var h := if g.onAuto && !g.forced then GoResume(g, device).g else g;
      Answer(h, !h.onStandby && v.ok)
    else Answer(g, v.ok)
  }

  datatype Mode = OnStandby | OnAutoStandby | Running

  /** `esd_proto_standby_mode` */
  function ModeOf(g: Globals): Mode {
    if g.onAuto && !g.forced then OnAutoStandby else if g.onStandby then OnStandby else Running
  }

  // ---- the daemon and its connections ----

  /** One run of a handler, with the flags before and after. */
  datatype Entry = Entry(client: nat, request: int, params: seq<byte>, ok: bool, before: Globals, after: Globals)

  /** Connections by number, never reused; those of the other byte order; the
      flags; every handler run so far. */
  datatype Server = Server(conns: seq<Conn>, swapped: set<nat>, g: Globals, log: seq<Entry>)

  datatype Event =
    | Accept
    | PollClient(client: nat, input: Input, device: bool, verdict: Verdict)
    | Bored                                   // nothing to do for longer than the timeout
    | Mixed(length: nat, device: bool)        // a round was mixed

  /** A request word as the server sees it. */
  function Seen(s: Server, c: nat, input: Input): Input
    requires c < |s.conns|
  {
    if c in s.swapped && s.conns[c].phase == NextRequest && input.Bytes? && |input.bytes| == 4 then
      Bytes([input.bytes[3], input.bytes[2], input.bytes[1], input.bytes[0]])
    else input
  }

  function Begin(promiscuous: bool): Server { Server([], {}, StartUp(promiscuous), []) }

  predicate ConnsValid(s: Server) { forall c :: 0 <= c < |s.conns| ==> Valid(s.conns[c]) }

  predicate CanPoll(s: Server, c: nat, input: Input) {
    && c < |s.conns| && Valid(s.conns[c]) && Possible(s.conns[c], Seen(s, c, input))
    && (s.conns[c].phase == NeedsData || s.conns[c].phase == NextRequest)
  }

  /** The request that this poll completes, if any. */
  function Completed(s: Server, c: nat, input: Input): Option<Handled>
    requires CanPoll(s, c, input)
  {
    Poll(s.conns[c], Seen(s, c, input), Verdict(true, false, [])).handled
  }

  /** One poll of one client. */
  function PollOne(s: Server, c: nat, input: Input, device: bool, v: Verdict): Server
    requires CanPoll(s, c, input)
  {
    var h := Completed(s, c, input);
    if h.None? then s.(conns := s.conns[c := Poll(s.conns[c], Seen(s, c, input), v).conn])
    else
      PollValid(s.conns[c], Seen(s, c, input), Verdict(true, false, []));
      var a := Serve(s.g, h.value.request, h.value.params, device, v);
      var conn := Poll(s.conns[c], Seen(s, c, input), Verdict(a.ok, v.streams, [])).conn;
      var entry := Entry(c, h.value.request, h.value.params, a.ok, s.g, a.g);
      var swaps := h.value.request == CONNECT && EndianOf(h.value.params) == SWAPPED_KEY;
      Server(s.conns[c := conn], if swaps then s.swapped + {c} else s.swapped, a.g, s.log + [entry])
  }

  function Apply(s: Server, ev: Event): Server {
    match ev
    case Accept => s.(conns := s.conns + [Accepted()])
    case PollClient(c, input, device, v) => if CanPoll(s, c, input) then PollOne(s, c, input, device, v) else s
    case Bored => s.(g := GoStandby(s.g).(onAuto := true))
    case Mixed(length, device) =>
      if s.g.onAuto && length > 0 && !s.g.forced then s.(g := GoResume(s.g, device).g) else s
  }

  function Run(s: Server, evs: seq<Event>): Server {
    if |evs| == 0 then s else Apply(Run(s, evs[..|evs| - 1]), evs[|evs| - 1])
  }

  // ---- what holds of every handler run ----

  /** connect accepted the client: the daemon was free, open, or the key matched,
      and the endian word is one of the two known ones. */
  predicate Admits(g: Globals, params: seq<byte>) {
    && |params| == KEY_LEN + 4
    && (!g.owned || !g.locked || g.key == KeyOf(params))
    && EndianOk(EndianOf(params))
  }

  predicate Changes(e: Entry) { e.before.locked != e.after.locked || e.before.onStandby != e.after.onStandby }

  predicate OwnerOnly(request: int) { request == LOCK || request == UNLOCK || request == STANDBY || request == RESUME }

  predicate EntryOk(e: Entry) {
    && (e.request == CONNECT && e.ok ==> Admits(e.before, e.params) && e.after.owned)
    && (OwnerOnly(e.request) && e.before.owned && Changes(e) ==>
          |e.params| == KEY_LEN + 4 && e.before.key == KeyOf(e.params))
    && (e.before.owned ==> e.after.owned && e.after.key == e.before.key)
    && (!Keyed(e.request) && e.request != STREAM_REC ==> e.after == e.before)
    && (e.before.locked != e.after.locked ==> e.request == LOCK || e.request == UNLOCK)
  }

  /** Flags that fit together. */
  predicate Coherent(g: Globals) {
    (g.onAuto ==> g.onStandby) && (!g.owned ==> g.locked) && (g.forced ==> g.owned)
  }

  lemma ServeKeeps(c: nat, g: Globals, request: int, params: seq<byte>, device: bool, v: Verdict)
    requires Coherent(g) && (Keyed(request) ==> |params| == KEY_LEN + 4)
    ensures var a := Serve(g, request, params, device, v);
            Coherent(a.g) && EntryOk(Entry(c, request, params, a.ok, g, a.g))
    ensures var a := Serve(g, request, params, device, v);
            g.forced && g.onStandby && !a.g.onStandby ==>
              request == RESUME && a.ok && KeyOf(params) == g.key
  {
    hide DecodeInt;
    if request == CONNECT {
    } else if request == LOCK || request == UNLOCK {
    } else if request == STANDBY {
    } else if request == RESUME {
    }
  }

  /** The mode query answers RUNNING exactly when the daemon is not on standby. */
  lemma ModeRunning(g: Globals)
    requires Coherent(g)
    ensures ModeOf(g) == Running <==> !g.onStandby
  {
  }

  // ---- what the requests decide ----

  /** connect lets a client in exactly when the daemon is free, open or its own, and
      the endian word is known; the first client to ask becomes the owner and locks
      the daemon, even if its endian word is then refused. */
  lemma ConnectDecides(g: Globals, params: seq<byte>, device: bool, v: Verdict)
    requires |params| == KEY_LEN + 4
    ensures var a := Serve(g, CONNECT, params, device, v);
            && (a.ok <==> Admits(g, params))
            && a.g == if g.owned then g else g.(owned := true, locked := true, key := params[..16])
  {
  }

  /** A free daemon lets in anyone who knows one of the two endian words. */
  lemma FreeAdmits(promiscuous: bool, params: seq<byte>)
    requires |params| == KEY_LEN + 4
    ensures Admits(StartUp(promiscuous), params) <==> EndianOk(DecodeInt(params[16..20]))
  {
    assert params[16..20] == params[16..];
  }

  /** After LOCK by the owner nobody else gets in; after UNLOCK everybody does. */
  lemma LockDecides(g: Globals, own: seq<byte>, other: seq<byte>, device: bool, v: Verdict)
    requires g.owned && |own| == |other| == KEY_LEN + 4 && own[..16] == g.key && other[..16] != g.key
    ensures var a := Serve(g, LOCK, own, device, v);
            && a.ok && a.g == g.(locked := a.g.locked)
            && !Serve(a.g, CONNECT, other, device, v).ok
            && (Serve(a.g, CONNECT, own, device, v).ok <==> EndianOk(EndianOf(own)))
    ensures var a := Serve(g, UNLOCK, own, device, v);
            && a.ok && a.g == g.(locked := a.g.locked)
            && (Serve(a.g, CONNECT, other, device, v).ok <==> EndianOk(EndianOf(other)))
  {
  }

  /** STANDBY by the owner puts the daemon on standby, RESUME takes it off if the
      device can be had, and otherwise changes nothing. */
  lemma StandbyDecides(g: Globals, own: seq<byte>, device: bool, v: Verdict)
    requires g.owned && |own| == KEY_LEN + 4 && own[..16] == g.key
    ensures var a := Serve(g, STANDBY, own, device, v);
            && a.ok && a.g.onStandby && (a.g.forced <==> g.forced || !g.onAuto)
            && a.g == g.(onStandby := true, forced := a.g.forced)
    ensures var a := Serve(g, RESUME, own, device, v);
            && (a.ok <==> !g.onStandby || device)
            && (a.ok ==> !a.g.onStandby && !a.g.forced && (g.onStandby ==> !a.g.onAuto))
            && (!a.ok ==> a.g == g)
  {
  }

  /** With any other key the four owner's requests are refused and change nothing,
      except that STANDBY is remembered as forced unless the daemon is on autostandby. */
  lemma StrangerRefused(g: Globals, request: int, other: seq<byte>, device: bool, v: Verdict)
    requires g.owned && OwnerOnly(request) && |other| == KEY_LEN + 4 && other[..16] != g.key
    ensures var a := Serve(g, request, other, device, v);
            !a.ok && a.g == if request == STANDBY then g.(forced := g.forced || !g.onAuto) else g
  {
  }

  /** A recorder is admitted exactly when the daemon plays or can be woken for it. */
  lemma RecorderDecides(g: Globals, params: seq<byte>, device: bool, v: Verdict)
    ensures Serve(g, STREAM_REC, params, device, v).ok <==>
            v.ok && (!g.onStandby || (g.onAuto && !g.forced && device))
  {
  }

  /** Boredom leads to autostandby, and sound out of it: exactly when standby was not
      forced and the device can be had. */
  lemma BoredAndWoken(s: Server, length: nat, device: bool)
    ensures var g := Apply(s, Bored).g;
            && g == s.g.(onStandby := true, onAuto := true)
            && ModeOf(g) == if s.g.forced then OnStandby else OnAutoStandby
    ensures var g := Apply(s, Mixed(length, device)).g;
            && (g.onStandby <==> s.g.onStandby && !(s.g.onAuto && length > 0 && !s.g.forced && device))
            && (g.onStandby == s.g.onStandby && s.g.onStandby ==> g == s.g)
  {
  }

  // ---- the two byte orders ----

  function Reversed(b: seq<byte>): seq<byte>
    requires |b| == 4
  {
    [b[3], b[2], b[1], b[0]]
  }

  /** A client of the other byte order announces itself by the endian word reversed,
      and its request words are read as it meant them. */
  lemma OtherByteOrder(s: Server, c: nat, request: int32)
    requires c < |s.conns| && c in s.swapped && s.conns[c].phase == NextRequest
    ensures EncodeInt(SWAPPED_KEY) == Reversed(EncodeInt(ENDIAN_KEY))
    ensures Seen(s, c, Bytes(Reversed(EncodeInt(request)))) == Bytes(EncodeInt(request))
  {
    var b := EncodeInt(request);
    assert b == [b[0], b[1], b[2], b[3]];
  }

  /** Nobody else's words are touched, and parameters never are. */
  lemma OwnByteOrder(s: Server, c: nat, input: Input)
    requires c < |s.conns| && (c !in s.swapped || s.conns[c].phase != NextRequest)
    ensures Seen(s, c, input) == input
  {
  }

  /** A poll makes a client one of the other byte order exactly when it completes a
      CONNECT with the reversed word. */
  lemma SwapsIff(s: Server, c: nat, input: Input, device: bool, v: Verdict)
    requires CanPoll(s, c, input)
    ensures var h := Completed(s, c, input);
            PollOne(s, c, input, device, v).swapped
            == if h.Some? && h.value.request == CONNECT && |h.value.params| == KEY_LEN + 4
                  && EndianOf(h.value.params) == SWAPPED_KEY
               then s.swapped + {c} else s.swapped
  {
    hide Poll, DecodeInt, Serve;
    if Completed(s, c, input).Some? { LoudPoll(s, c, input, Verdict(true, false, [])); }
  }

  /** A new connection is the last one, and starts by expecting CONNECT. */
  lemma AcceptJoins(s: Server)
    ensures var t := Apply(s, Accept);
            && t.conns[..|s.conns|] == s.conns && |t.conns| == |s.conns| + 1
            && t.conns[|s.conns|] == Conn(NeedsData, 0, []) && t.g == s.g && t.log == s.log
  {
  }

  /** Every client that is not streaming or closed is polled, whatever part of its
      request it sends; without a complete request only its own state changes. */
  lemma PollsReach(s: Server, c: nat, input: Input, device: bool, v: Verdict)
    requires Inv(s) && c < |s.conns| && c !in s.swapped && Possible(s.conns[c], input)
    requires s.conns[c].phase == NeedsData || s.conns[c].phase == NextRequest
    ensures CanPoll(s, c, input)
    ensures Completed(s, c, input) == Poll(s.conns[c], input, Verdict(true, false, [])).handled
    ensures var t := Apply(s, PollClient(c, input, device, v));
            && t == PollOne(s, c, input, device, v)
            && (Completed(s, c, input).None? ==> t == s.(conns := s.conns[c := Poll(s.conns[c], input, v).conn]))
  {
    hide Poll, Guarded, EntryOk, Possible, Serve;
  }

  /** A completed request is served by its handler, which alone decides the flags and
      whether this client stays; nobody else is touched. */
  lemma HandlerDecides(s: Server, c: nat, input: Input, device: bool, v: Verdict)
    requires CanPoll(s, c, input) && Completed(s, c, input).Some?
    ensures var h, t := Completed(s, c, input).value, PollOne(s, c, input, device, v);
            && (Keyed(h.request) ==> |h.params| == KEY_LEN + 4)
            && var a := Serve(s.g, h.request, h.params, device, v);
            && t.g == a.g && t.log == s.log + [Entry(c, h.request, h.params, a.ok, s.g, a.g)]
            && t.conns == s.conns[c := t.conns[c]]
            && t.conns[c].phase == if !a.ok then Closed else if v.streams then Streaming else NextRequest
  {
    hide Serve, DecodeInt;
    LoudPoll(s, c, input, v);
  }

  // ---- over whole runs ----

  /** Entry j is the connect request that let client c in. */
  predicate LetIn(log: seq<Entry>, c: nat, j: nat) {
    j < |log| && log[j].client == c && log[j].request == CONNECT && log[j].ok
  }

  ghost predicate Connected(log: seq<Entry>, c: nat) { exists j: nat :: LetIn(log, c, j) }

  /** Every handler but connect ran for a client that connect had let in. */
  ghost predicate Guarded(log: seq<Entry>) {
    forall i :: 0 <= i < |log| && log[i].request != CONNECT ==> exists j: nat :: j < i && LetIn(log, log[i].client, j)
  }

  /** A connection past its first request. */
  predicate Past(c: Conn) { c.phase != Closed && !(c.phase == NeedsData && c.request == CONNECT) }

  ghost predicate Inv(s: Server) {
    && ConnsValid(s) && Coherent(s.g) && Guarded(s.log)
    && (forall c :: 0 <= c < |s.conns| && Past(s.conns[c]) ==> Connected(s.log, c))
    && (forall i :: 0 <= i < |s.log| ==> EntryOk(s.log[i]) && (s.log[i].request != CONNECT ==> s.log[i].before.owned))
    && (forall c :: 0 <= c < |s.conns| && Past(s.conns[c]) ==> s.g.owned)
  }

  lemma LogGrows(log: seq<Entry>, e: Entry, c: nat)
    requires Connected(log, c)
    ensures Connected(log + [e], c)
  {
    var j: nat :| LetIn(log, c, j);
    assert LetIn(log + [e], c, j);
  }

  lemma GuardedGrows(log: seq<Entry>, e: Entry)
    requires Guarded(log) && (e.request != CONNECT ==> Connected(log, e.client))
    ensures Guarded(log + [e])
  {
    var more := log + [e];
    forall i | 0 <= i < |more| && more[i].request != CONNECT
      ensures exists j: nat :: j < i && LetIn(more, more[i].client, j)
    {
      if i < |log| {
        var j: nat :| j < i && LetIn(log, log[i].client, j);
        assert LetIn(more, more[i].client, j);
      } else {
        var j: nat :| LetIn(log, e.client, j);
        assert LetIn(more, e.client, j);
      }
    }
  }

  /** A poll without a handler leaves a client on its side of the gate. */
  lemma QuietPoll(s: Server, c: nat, input: Input, v: Verdict)
    requires CanPoll(s, c, input) && Completed(s, c, input).None?
    ensures var p := Poll(s.conns[c], Seen(s, c, input), v);
            p.handled.None? && Valid(p.conn) && (Past(p.conn) ==> Past(s.conns[c]))
  {
    PollValid(s.conns[c], Seen(s, c, input), v);
  }

  lemma LoudPoll(s: Server, c: nat, input: Input, v: Verdict)
    requires CanPoll(s, c, input) && Completed(s, c, input).Some?
    ensures var h := Completed(s, c, input).value;
            var p := Poll(s.conns[c], Seen(s, c, input), v);
            && Valid(p.conn) && (h.request != CONNECT ==> Past(s.conns[c])) && (Past(p.conn) ==> v.ok)
            && (Keyed(h.request) ==> |h.params| == KEY_LEN + 4)
  {
    PollValid(s.conns[c], Seen(s, c, input), v);
  }

  lemma PollKeeps(s: Server, c: nat, input: Input, device: bool, v: Verdict)
    requires Inv(s) && CanPoll(s, c, input)
    ensures Inv(PollOne(s, c, input, device, v))
  {
    hide Poll, Serve, Coherent, EntryOk, Guarded, Valid;
    var h := Completed(s, c, input);
    if h.None? {
      QuietPoll(s, c, input, v);
    } else {
      LoudPoll(s, c, input, v);
      var a := Serve(s.g, h.value.request, h.value.params, device, v);
      LoudPoll(s, c, input, Verdict(a.ok, v.streams, []));
      ServeKeeps(c, s.g, h.value.request, h.value.params, device, v);
      var e := Entry(c, h.value.request, h.value.params, a.ok, s.g, a.g);
      GuardedGrows(s.log, e);
      OwnedStays(e);
      forall d | 0 <= d < |s.conns| && Connected(s.log, d)
        ensures Connected(s.log + [e], d)
      {
        LogGrows(s.log, e, d);
      }
      if e.request == CONNECT && e.ok { assert LetIn(s.log + [e], c, |s.log|); }
    }
  }

  lemma OwnedStays(e: Entry)
    requires EntryOk(e)
    ensures e.before.owned ==> e.after.owned && e.after.key == e.before.key
    ensures e.request == CONNECT && e.ok ==> e.after.owned
  {
  }

  lemma ApplyKeeps(s: Server, ev: Event)
    requires Inv(s)
    ensures Inv(Apply(s, ev))
  {
    hide PollOne, EntryOk, Guarded;
    match ev
    case Accept =>
    case PollClient(c, input, device, v) => if CanPoll(s, c, input) { PollKeeps(s, c, input, device, v); }
    case Bored =>
    case Mixed(length, device) =>
  }

  /** In every run: no handler but connect runs for a client before connect
      accepted its key and endian word; every change of the lock or of standby by
      a keyed request was asked for with the owner's key; autostandby implies
      standby. */
  lemma {:induction false} RunKeeps(promiscuous: bool, evs: seq<Event>)
    ensures Inv(Run(Begin(promiscuous), evs))
  {
    hide Apply;
    if |evs| > 0 {
      RunKeeps(promiscuous, evs[..|evs| - 1]);
      ApplyKeeps(Run(Begin(promiscuous), evs[..|evs| - 1]), evs[|evs| - 1]);
    }
  }

  lemma KeyStep(s: Server, ev: Event)
    requires Inv(s) && s.g.owned
    ensures Apply(s, ev).g.owned && Apply(s, ev).g.key == s.g.key
  {
    hide Poll, Serve;
    match ev
    case Accept =>
    case PollClient(c, input, device, v) =>
      if CanPoll(s, c, input) {
        var h := Completed(s, c, input);
        if h.Some? {
          LoudPoll(s, c, input, v);
          ServeKeeps(c, s.g, h.value.request, h.value.params, device, v);
        }
      }
    case Bored =>
    case Mixed(length, device) =>
  }

  /** Once the daemon is claimed its owner never changes. */
  lemma {:induction false} OwnerFixed(s: Server, evs: seq<Event>)
    requires Inv(s) && s.g.owned
    ensures Inv(Run(s, evs)) && Run(s, evs).g.owned && Run(s, evs).g.key == s.g.key
  {
    hide Apply, Inv;
    if |evs| > 0 {
      OwnerFixed(s, evs[..|evs| - 1]);
      ApplyKeeps(Run(s, evs[..|evs| - 1]), evs[|evs| - 1]);
      KeyStep(Run(s, evs[..|evs| - 1]), evs[|evs| - 1]);
    }
  }

  /** The lock changes only by a LOCK or UNLOCK request with the owner's key. */
  lemma LockNeedsKey(s: Server, ev: Event)
    requires Inv(s) && Apply(s, ev).g.locked != s.g.locked
    ensures ev.PollClient? && CanPoll(s, ev.client, ev.input)
    ensures var h := Completed(s, ev.client, ev.input);
            && h.Some? && (h.value.request == LOCK || h.value.request == UNLOCK)
            && |h.value.params| == KEY_LEN + 4 && KeyOf(h.value.params) == s.g.key
  {
    hide Poll, Serve;
    var h := Completed(s, ev.client, ev.input);
    LoudPoll(s, ev.client, ev.input, ev.verdict);
    ServeKeeps(ev.client, s.g, h.value.request, h.value.params, ev.device, ev.verdict);
    assert Past(s.conns[ev.client]);
  }

  /** The event runs the RESUME handler, which accepts the owner's key. */
  predicate Resumes(s: Server, ev: Event) {
    && ev.PollClient? && CanPoll(s, ev.client, ev.input)
    && var h := Completed(s, ev.client, ev.input);
    && h.Some? && h.value.request == RESUME && |h.value.params| == KEY_LEN + 4 && KeyOf(h.value.params) == s.g.key
    && Serve(s.g, RESUME, h.value.params, ev.device, ev.verdict).ok
  }

  /** While standby is forced only an accepted RESUME ends it. */
  lemma ForcedUntilResume(s: Server, ev: Event)
    requires Inv(s) && s.g.forced && s.g.onStandby && !Apply(s, ev).g.onStandby
    ensures Resumes(s, ev)
  {
    hide Poll, Serve;
    assert ev.PollClient?;
    var h := Completed(s, ev.client, ev.input);
    LoudPoll(s, ev.client, ev.input, ev.verdict);
    ServeKeeps(ev.client, s.g, h.value.request, h.value.params, ev.device, ev.verdict);
  }

  lemma ForcedStep(s: Server, ev: Event)
    requires Inv(s) && s.g.forced && s.g.onStandby && !Resumes(s, ev)
    ensures Apply(s, ev).g.forced && Apply(s, ev).g.onStandby
  {
    hide Poll;
    if ev.PollClient? && CanPoll(s, ev.client, ev.input) && Completed(s, ev.client, ev.input).Some? {
      LoudPoll(s, ev.client, ev.input, ev.verdict);
    }
  }

  /** Over any run in which no RESUME is accepted, a forced standby lasts. */
  lemma {:induction false} ForcedLasts(s: Server, evs: seq<Event>)
    requires Inv(s) && s.g.forced && s.g.onStandby
    requires forall i :: 0 <= i < |evs| ==> !Resumes(Run(s, evs[..i]), evs[i])
    ensures Inv(Run(s, evs)) && Run(s, evs).g.forced && Run(s, evs).g.onStandby
  {
    hide Inv, Apply, Resumes;
    if |evs| > 0 {
      var n := |evs| - 1;
      forall i | 0 <= i < n
        ensures !Resumes(Run(s, evs[..n][..i]), evs[..n][i])
      {
        assert evs[..n][..i] == evs[..i];
      }
      ForcedLasts(s, evs[..n]);
      ForcedStep(Run(s, evs[..n]), evs[n]);
      ApplyKeeps(Run(s, evs[..n]), evs[n]);
    }
  }

  // ---- the handlers as they assign the flags ----

  class Flags {
    var owned: bool
    var locked: bool
    var ownerKey: seq<byte>
    var onStandby: bool
    var onAuto: bool
    var forced: bool

    ghost function Now(): Globals
      reads this
    {
      Globals(owned, locked, ownerKey, onStandby, onAuto, forced)
    }

    constructor (promiscuous: bool)
      ensures Now() == StartUp(promiscuous)
    {
      owned, locked, ownerKey := promiscuous, !promiscuous, seq(KEY_LEN, _ => 0);
      onStandby, onAuto, forced := false, false, false;
    }

    method ValidateSource(submitted: seq<byte>, ownerOnly: bool) returns (ok: bool)
      modifies this
      ensures Answer(Now(), ok) == Validate(old(Now()), submitted, ownerOnly)
    {
      if !owned {
        locked := true;
        ownerKey := submitted;
        owned := true;
        return true;
      }
      if !locked && !ownerOnly { return true; }
      if ownerKey == submitted { return true; }
      return false;
    }

    method ServerStandby()
      modifies this
      ensures Now() == GoStandby(old(Now()))
    {
      if !onStandby { onStandby := true; }
    }

    method ServerResume(device: bool) returns (ok: bool)
      modifies this
      ensures Answer(Now(), ok) == GoResume(old(Now()), device)
    {
      ok := true;
      if onStandby {
        if !device {
          ok := false;
        } else {
          onStandby := false;
          onAuto := false;
          forced := false;
        }
      }
    }

    /** The handlers that touch the flags, by request. The others leave them alone. */
    method ServeRequest(request: int, params: seq<byte>, device: bool, v: Verdict) returns (ok: bool)
      requires Keyed(request) ==> |params| == KEY_LEN + 4
      modifies this
      ensures Answer(Now(), ok) == Serve(old(Now()), request, params, device, v)
    {
      if request == CONNECT {
        ok := ValidateSource(params[..KEY_LEN], false);
        if ok {
          var word := DecodeInt(params[KEY_LEN..]);
          ok := word == ENDIAN_KEY || word == SWAPPED_KEY;
        }
      } else if request == LOCK {
        ok := ValidateSource(params[..KEY_LEN], true);
        if ok { locked := true; }
      } else if request == UNLOCK {
        ok := ValidateSource(params[..KEY_LEN], true);
        if ok { locked := false; }
      } else if request == STANDBY {
        ok := ValidateSource(params[..KEY_LEN], true);
        if ok { ServerStandby(); }
        if !onAuto { forced := true; }
      } else if request == RESUME {
        ok := ValidateSource(params[..KEY_LEN], true);
        if ok { ok := ServerResume(device); }
        if ok { forced := false; }
      } else if request == STREAM_REC {
        if onAuto && !forced { var _ := ServerResume(device); }
        ok := !onStandby && v.ok;
      } else {
        ok := v.ok;
      }
    }

    method StandbyMode() returns (m: Mode)
      requires Coherent(Now())
      ensures m == ModeOf(Now()) && (m == Running <==> !onStandby)
    {
      if onAuto && !forced {
        m := OnAutoStandby;
      } else if onStandby {
        m := OnStandby;
      } else {
        m := Running;
      }
    }

    /** The timeout and wake-up decisions of `esd_comm_loop` (clients.c:358-388). */
    method Timeout()
      modifies this
      ensures forall s: Server :: s.g == old(Now()) ==> Apply(s, Bored).g == Now()
    {
      ServerStandby();
      onAuto := true;
    }

    method AfterMix(length: nat, device: bool)
      modifies this
      ensures forall s: Server :: s.g == old(Now()) ==> Apply(s, Mixed(length, device)).g == Now()
    {
      if onAuto && length != 0 && !forced { var _ := ServerResume(device); }
    }
  }
}
