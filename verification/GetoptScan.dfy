/** Repeated getopt calls in PERMUTE mode: the state machine over argv, a direct
    definition of what the whole scan yields, and the proof that they agree. */
module GetoptScan {
  import opened Options
  import opened GetoptExchange
  import opened GetoptDecode

  // ---- what a whole scan yields ----

  /** The options found, the elements they used, and the other elements. */
  datatype Parsed = Parsed(options: seq<Decoded>, consumed: seq<string>, others: seq<string>)

  function Next(args: seq<string>): Option<string> { if |args| > 1 then Some(args[1]) else None }

  /** The options in one element, from `text` to its end. */
  function DecodeAll(cfg: Config, e: string, text: string, next: Option<string>): (ds: seq<Decoded>)
    requires !NonOption(e) && |text| > 0
    ensures |ds| > 0 && 1 <= ds[|ds| - 1].taken <= 2 && (ds[|ds| - 1].taken == 2 ==> next.Some?)
    decreases |text|
  {
    var d := Decode(cfg, e, text, next);
    if d.rest == "" then [d] else [d] + DecodeAll(cfg, e, d.rest, next)
  }

  /** Elements used by an option element: itself, and perhaps its argument. */
  function Taken(ds: seq<Decoded>): nat
    requires |ds| > 0
  {
    ds[|ds| - 1].taken
  }

  /** Scan args from left to right. Non-options are set aside; "--" ends the
      options; an option element is decoded to its end. */
  function Scan(cfg: Config, args: seq<string>): Parsed
    decreases |args|, 1
  {
    if |args| == 0 then Parsed([], [], [])
    else if NonOption(args[0]) then
      var p := Scan(cfg, args[1..]);
      p.(others := [args[0]] + p.others)
    else if args[0] == "--" then Parsed([], ["--"], args[1..])
    else
      StartNonEmpty(cfg, args[0]);
      Finish(cfg, args, Start(cfg, args[0]))
  }

  lemma StartNonEmpty(cfg: Config, e: string)
    requires !NonOption(e) && e != "--"
    ensures |Start(cfg, e)| > 0
  {
    if |e| == 2 { assert e == [e[0], e[1]]; assert "--" == ['-', '-']; }
  }

  /** Scan args, of whose first element only `text` is still unread. */
  function Finish(cfg: Config, args: seq<string>, text: string): Parsed
    requires |args| > 0 && !NonOption(args[0]) && |text| > 0
    decreases |args|, 0
  {
    var ds := DecodeAll(cfg, args[0], text, Next(args));
    var p := Scan(cfg, args[Taken(ds)..]);
    Parsed(ds + p.options, args[..Taken(ds)] + p.consumed, p.others)
  }

  // ---- the state machine ----

  /** argv, the bounds of the skipped non-options, the next element to scan, and
      the unread text of the current element ("" between elements). */
  datatype State = State(argv: seq<string>, first: nat, last: nat, optind: nat, text: string) {
    predicate Valid() {
      && 1 <= first <= last <= optind <= |argv|
      && (text != "" ==> optind < |argv| && !NonOption(argv[optind]) && argv[optind] != "--")
    }
    /** Elements used by options so far, and elements skipped so far. */
    function Consumed(): seq<string> requires Valid() { argv[1..first] + argv[last..optind] }
    function Skipped(): seq<string> requires Valid() { argv[first..last] }
    function Left(): nat requires Valid() { |argv| - optind - if text == "" then 0 else 1 }
  }

  function Least(a: nat, b: nat): nat { if a > b then b else a }

  /** What a call makes of the bounds when optind has moved back (getopt.c:540-543). */
  function Clamped(s: State): State {
    s.(first := Least(s.first, s.optind), last := Least(s.last, s.optind))
  }

  function SkipFrom(argv: seq<string>, i: nat): (r: nat)
    requires i <= |argv|
    ensures i <= r <= |argv| && (r < |argv| ==> !NonOption(argv[r]))
    ensures forall k :: i <= k < r ==> NonOption(argv[k])
    decreases |argv| - i
  {
    if i < |argv| && NonOption(argv[i]) then SkipFrom(argv, i + 1) else i
  }

  /** Options processed since some non-options were skipped move before them. */
  function Settled(s: State): State
    requires s.Valid()
  {
    if s.first != s.last && s.last != s.optind then
      s.(argv := Rotated(s.argv, s.first, s.last, s.optind), first := s.first + (s.optind - s.last), last := s.optind)
    else if s.last != s.optind then s.(first := s.optind, last := s.optind)
    else s
  }

  /** After "--": it counts as an option, everything after it as a non-option. */
  function Ended(s: State): State
    requires s.Valid() && s.text == "" && s.last == s.optind < |s.argv|
  {
    var t := s.(optind := s.optind + 1);
    var t := if t.first != t.last then Settled(t) else t.(first := t.optind);
    t.(last := |t.argv|, optind := |t.argv|)
  }

  datatype Advanced = Stop(state: State) | Go(state: State)

  /** Move to the next option element, or to the end (getopt.c:534-609). */
  function Advance(cfg: Config, s: State): Advanced
    requires s.Valid() && s.text == ""
  {
    var t := Settled(s);
    var i := SkipFrom(t.argv, t.optind);
    var t := t.(optind := i, last := i);
    if i < |t.argv| && t.argv[i] == "--" then Stop(Back(Ended(t)))
    else if i == |t.argv| then Stop(Back(t))
    else Go(t.(text := Start(cfg, t.argv[i])))
  }

  /** At the end optind goes back to the first skipped non-option. */
  function Back(s: State): State { if s.first != s.last then s.(optind := s.first) else s }

  datatype Returned = End(state: State) | Got(state: State, option: Decoded)

  function Call(cfg: Config, s: State): Returned
    requires s.Valid()
  {
    if s.text != "" then CallDecode(cfg, s)
    else match Advance(cfg, s)
         case Stop(t) => End(t)
         case Go(t) => AdvanceValid(cfg, s); CallDecode(cfg, t)
  }

  function CallDecode(cfg: Config, s: State): Returned
    requires s.Valid() && s.text != ""
  {
    var d := Decode(cfg, s.argv[s.optind], s.text, Next(s.argv[s.optind..]));
    Got(s.(optind := s.optind + d.taken, text := d.rest), d)
  }

  // ---- the pieces of one call ----

  lemma SettledKeeps(s: State)
    requires s.Valid() && s.text == ""
    ensures var t := Settled(s);
            && t.Valid() && t.last == t.optind == s.optind && |t.argv| == |s.argv| && t.text == s.text
            && t.argv[0] == s.argv[0] && t.argv[t.optind..] == s.argv[s.optind..]
            && t.argv[1..t.first] == s.Consumed() && t.Skipped() == s.Skipped()
  {
    if s.first != s.last && s.last != s.optind {
      RotatedMoves(s.argv, s.first, s.last, s.optind);
      var t := Settled(s);
      assert t.argv[1..t.first] == t.argv[..s.first][1..] + t.argv[s.first..t.first];
    } else if s.last != s.optind {
      assert s.argv[1..s.optind] == s.argv[1..s.first] + s.argv[s.last..s.optind];
    } else {
      assert s.argv[s.last..s.optind] == [];
    }
  }

  lemma AdvanceValid(cfg: Config, s: State)
    requires s.Valid() && s.text == ""
    ensures Advance(cfg, s).Go? ==> Advance(cfg, s).state.Valid() && Advance(cfg, s).state.text != ""
  {
    SettledKeeps(s);
    var t := Settled(s);
    var i := SkipFrom(t.argv, t.optind);
    if i < |t.argv| && t.argv[i] != "--" { StartNonEmpty(cfg, t.argv[i]); }
  }

  /** What the rest of the run will yield. */
  function Rest(cfg: Config, s: State): Parsed
    requires s.Valid()
  {
    if s.text == "" then Scan(cfg, s.argv[s.optind..])
    else Finish(cfg, s.argv[s.optind..], s.text)
  }

  /** Skipping non-options only sets them aside. */
  lemma {:induction false} ScanSkips(cfg: Config, argv: seq<string>, i: nat)
    requires i <= |argv|
    ensures var r := SkipFrom(argv, i);
            Scan(cfg, argv[i..])
            == var p := Scan(cfg, argv[r..]); p.(others := argv[i..r] + p.others)
    decreases |argv| - i
  {
    hide Finish;
    var r := SkipFrom(argv, i);
    if i < |argv| && NonOption(argv[i]) {
      ScanSkips(cfg, argv, i + 1);
      assert argv[i..][1..] == argv[i + 1..];
      assert argv[i..r] == [argv[i]] + argv[i + 1..r];
      var p := Scan(cfg, argv[r..]);
      assert [argv[i]] + (argv[i + 1..r] + p.others) == argv[i..r] + p.others;
    } else {
      var p := Scan(cfg, argv[r..]);
      assert argv[i..r] + p.others == p.others;
    }
  }

  /** Everything the run yields, counting what was done before s. */
  function Whole(cfg: Config, s: State): Parsed
    requires s.Valid()
  {
    var p := Rest(cfg, s);
    Parsed(p.options, s.Consumed() + p.consumed, s.Skipped() + p.others)
  }

  lemma WholeAfterSettling(cfg: Config, s: State)
    requires s.Valid() && s.text == ""
    ensures Settled(s).Valid() && Settled(s).text == "" && Whole(cfg, Settled(s)) == Whole(cfg, s)
  {
    hide Scan, Finish, Settled;
    SettledKeeps(s);
    var t := Settled(s);
    assert t.argv[t.last..t.optind] == [];
    assert t.Consumed() == s.Consumed();
  }

  lemma WholeAfterSkipping(cfg: Config, s: State)
    requires s.Valid() && s.text == "" && s.last == s.optind
    ensures var i := SkipFrom(s.argv, s.optind);
            var t := s.(optind := i, last := i);
            t.Valid() && Whole(cfg, t) == Whole(cfg, s)
  {
    hide Scan, Finish;
    var i := SkipFrom(s.argv, s.optind);
    var t := s.(optind := i, last := i);
    ScanSkips(cfg, s.argv, s.optind);
    assert t.Skipped() == s.Skipped() + s.argv[s.optind..i];
    assert s.argv[s.last..s.optind] == [] == t.argv[t.last..t.optind];
    var p := Scan(cfg, s.argv[i..]);
    assert s.Skipped() + (s.argv[s.optind..i] + p.others) == t.Skipped() + p.others;
  }

  /** Advancing to the next option element changes nothing of the outcome. */
  lemma AdvanceKeeps(cfg: Config, s: State)
    requires s.Valid() && s.text == "" && Advance(cfg, s).Go?
    ensures var t := Advance(cfg, s).state;
            && t.Valid() && t.text != "" && Whole(cfg, t) == Whole(cfg, s)
            && |t.argv| == |s.argv| && t.argv[0] == s.argv[0] && t.optind >= s.optind
  {
    hide Finish, DecodeAll;
    WholeAfterSettling(cfg, s);
    SettledKeeps(s);
    var t := Settled(s);
    WholeAfterSkipping(cfg, t);
    var i := SkipFrom(t.argv, t.optind);
    var u := t.(optind := i, last := i);
    StartNonEmpty(cfg, u.argv[i]);
    var v := u.(text := Start(cfg, u.argv[i]));
    assert u.argv[i..][0] == u.argv[i];
    assert Rest(cfg, v) == Rest(cfg, u);
  }

  lemma FinishOne(cfg: Config, args: seq<string>, text: string)
    requires |args| > 0 && !NonOption(args[0]) && |text| > 0
    ensures var d := Decode(cfg, args[0], text, Next(args));
            && d.taken <= |args|
            && Finish(cfg, args, text) ==
               if d.rest == "" then
                 var p := Scan(cfg, args[d.taken..]);
                 Parsed([d] + p.options, args[..d.taken] + p.consumed, p.others)
               else
                 var p := Finish(cfg, args, d.rest);
                 p.(options := [d] + p.options)
  {
    hide Decode, Scan;
    var d := Decode(cfg, args[0], text, Next(args));
    if d.rest != "" {
      var ds := DecodeAll(cfg, args[0], d.rest, Next(args));
      var p := Scan(cfg, args[Taken(ds)..]);
      assert ([d] + ds) + p.options == [d] + (ds + p.options);
    }
  }

  /** Decoding one option moves it from what is to come to what is done. */
  lemma DecodeKeeps(cfg: Config, s: State)
    requires s.Valid() && s.text != ""
    ensures var r := CallDecode(cfg, s);
            && r.state.Valid() && r.state.argv == s.argv
            && Whole(cfg, s) == (var p := Whole(cfg, r.state); p.(options := [r.option] + p.options))
            && (r.state.optind == s.optind ==> r.state.text != "" && |r.state.text| < |s.text|)
            && (r.state.optind != s.optind ==> r.state.text == "" && r.state.optind > s.optind)
  {
    hide Decode, Scan, Finish;
    var args := s.argv[s.optind..];
    assert args[0] == s.argv[s.optind];
    FinishOne(cfg, args, s.text);
    var d := Decode(cfg, args[0], s.text, Next(args));
    var t := CallDecode(cfg, s).state;
    if d.rest == "" {
      assert args[d.taken..] == t.argv[t.optind..];
      var p := Scan(cfg, args[d.taken..]);
      assert t.argv[t.last..t.optind] == s.argv[s.last..s.optind] + args[..d.taken];
      assert s.Consumed() + (args[..d.taken] + p.consumed) == t.Consumed() + p.consumed;
    }
  }

  lemma CallGot(cfg: Config, s: State)
    requires s.Valid() && Call(cfg, s).Got?
    ensures var r := Call(cfg, s);
            && r.state.Valid() && |r.state.argv| == |s.argv| && r.state.argv[0] == s.argv[0]
            && Whole(cfg, s) == (var p := Whole(cfg, r.state); p.(options := [r.option] + p.options))
            && (r.state.Left() < s.Left() || (r.state.Left() == s.Left() && |r.state.text| < |s.text|))
  {
    hide Whole, CallDecode;
    if s.text == "" {
      AdvanceValid(cfg, s);
      AdvanceKeeps(cfg, s);
      DecodeKeeps(cfg, Advance(cfg, s).state);
    } else {
      DecodeKeeps(cfg, s);
    }
  }

  lemma SliceMore<T>(s: seq<T>, a: nat, i: nat)
    requires a <= i < |s|
    ensures s[a..i + 1] == s[a..i] + [s[i]]
  {
  }

  lemma EndedKeeps(s: State)
    requires s.Valid() && s.text == "" && s.last == s.optind < |s.argv|
    ensures var t := Back(Ended(s));
            && |t.argv| == |s.argv| && t.argv[0] == s.argv[0]
            && t.optind == s.first + 1
            && t.argv[1..t.optind] == s.argv[1..s.first] + [s.argv[s.optind]]
            && t.argv[t.optind..] == s.argv[s.first..s.optind] + s.argv[s.optind + 1..]
  {
    hide Rotated;
    var u := s.(optind := s.optind + 1);
    if s.first != s.last {
      SettledKeeps(u);
      var t := Settled(u);
      assert u.Consumed() == s.argv[1..s.first] + [s.argv[s.optind]];
      assert t.argv[t.first..] == t.argv[t.first..t.last] + t.argv[t.last..];
    } else {
      SliceMore(s.argv, 1, s.optind);
      assert s.argv[s.first..s.optind] == [];
    }
  }

  lemma ScanAtEnd(cfg: Config, args: seq<string>)
    ensures args == [] ==> Scan(cfg, args) == Parsed([], [], [])
    ensures |args| > 0 && args[0] == "--" ==> Scan(cfg, args) == Parsed([], ["--"], args[1..])
  {
    assert "--"[0] == '-' && |"--"| == 2;
  }

  /** argv arranged as the outcome p says, with optind at the boundary. */
  predicate Arranged(t: State, program: string, p: Parsed) {
    p.options == [] && t.optind == 1 + |p.consumed| && t.argv == [program] + p.consumed + p.others
  }

  lemma StopAtDashes(cfg: Config, u: State)
    requires u.Valid() && u.text == "" && u.last == u.optind < |u.argv| && u.argv[u.optind] == "--"
    ensures Arranged(Back(Ended(u)), u.argv[0], Whole(cfg, u))
  {
    hide Scan, Ended;
    var i, e := u.optind, Back(Ended(u));
    ScanAtEnd(cfg, u.argv[i..]);
    EndedKeeps(u);
    assert u.argv[i..][0] == u.argv[i] && u.argv[i..][1..] == u.argv[i + 1..];
    assert u.Consumed() == u.argv[1..u.first];
    assert e.argv == [e.argv[0]] + e.argv[1..e.optind] + e.argv[e.optind..];
  }

  lemma StopAtEnd(cfg: Config, u: State)
    requires u.Valid() && u.text == "" && u.last == u.optind == |u.argv|
    ensures Arranged(Back(u), u.argv[0], Whole(cfg, u))
  {
    hide Scan;
    ScanAtEnd(cfg, []);
    assert u.argv[u.optind..] == [];
    assert u.Consumed() == u.argv[1..u.first];
    assert u.argv == [u.argv[0]] + u.argv[1..u.first] + u.argv[u.first..];
  }

  /** When getopt returns -1: consumed elements first, the others after them, each
      in the order they came, and optind at the boundary. */
  lemma CallEnd(cfg: Config, s: State)
    requires s.Valid() && Call(cfg, s).End?
    ensures Arranged(Call(cfg, s).state, s.argv[0], Whole(cfg, s))
  {
    hide Whole, Settled, Ended, Arranged, Back;
    SettledKeeps(s);
    WholeAfterSettling(cfg, s);
    var t := Settled(s);
    WholeAfterSkipping(cfg, t);
    var i := SkipFrom(t.argv, t.optind);
    var u := t.(optind := i, last := i);
    if i < |u.argv| { StopAtDashes(cfg, u); } else { StopAtEnd(cfg, u); }
  }

  // ---- calls after the end ----

  /** After -1 the next call starts over, at the elements set aside. */
  lemma EndClamped(cfg: Config, s: State)
    requires s.Valid() && Call(cfg, s).End?
    ensures var e := Call(cfg, s).state;
            && Clamped(e) == State(e.argv, e.optind, e.optind, e.optind, "") && Clamped(e).Valid()
  {
    hide Whole, Rotated;
    SettledKeeps(s);
    var t := Settled(s);
    var i := SkipFrom(t.argv, t.optind);
    var u := t.(optind := i, last := i);
    if i < |u.argv| { EndedBounds(u); }
  }

  lemma EndedBounds(s: State)
    requires s.Valid() && s.text == "" && s.last == s.optind < |s.argv|
    ensures var t := Ended(s);
            && 1 <= t.first <= t.last == t.optind == |t.argv| && t.text == "" && |t.argv| == |s.argv|
  {
    hide Rotated;
    var u := s.(optind := s.optind + 1);
    if s.first != s.last { SettledKeeps(u); }
  }

  /** Calls made after -1 scan the elements set aside as if they were new. */
  lemma AgainScans(cfg: Config, s: State)
    requires s.Valid() && Call(cfg, s).End?
    ensures var e, p := Clamped(Call(cfg, s).state), Whole(cfg, s);
            var q := Scan(cfg, p.others);
            && e.Valid() && e.argv[e.optind..] == p.others
            && Whole(cfg, e) == Parsed(q.options, p.consumed + q.consumed, q.others)
  {
    hide Call, Scan;
    CallEnd(cfg, s);
    EndClamped(cfg, s);
    var e, p := Clamped(Call(cfg, s).state), Whole(cfg, s);
    assert e.argv[e.optind..] == p.others;
    assert e.Consumed() == p.consumed && e.Skipped() == [];
    assert [] + Scan(cfg, p.others).others == Scan(cfg, p.others).others;
  }

  /** A call from between elements, with nothing skipped, says -1 and moves
      nothing exactly when no option is left. */
  lemma IdleIff(cfg: Config, argv: seq<string>, o: nat)
    requires 1 <= o <= |argv|
    ensures var e := State(argv, o, o, o, "");
            (Call(cfg, e).End? && Clamped(Call(cfg, e).state) == e) <==>
            forall k :: o <= k < |argv| ==> NonOption(argv[k])
  {
    hide Rotated;
    var e := State(argv, o, o, o, "");
    var i := SkipFrom(argv, o);
    var u := e.(optind := i, last := i);
    if i < |argv| && argv[i] == "--" { EndedKeeps(u); }
  }

  /** Calling again after -1 gives -1 again, with everything as it was, exactly
      when no element set aside looks like an option. */
  lemma AgainIff(cfg: Config, s: State)
    requires s.Valid() && Call(cfg, s).End?
    ensures var e, p := Clamped(Call(cfg, s).state), Whole(cfg, s);
            && e.Valid()
            && (Call(cfg, e).End? && Clamped(Call(cfg, e).state) == e
                <==> forall k :: 0 <= k < |p.others| ==> NonOption(p.others[k]))
  {
    hide Call, Whole;
    EndClamped(cfg, s);
    AgainScans(cfg, s);
    var e, p := Clamped(Call(cfg, s).state), Whole(cfg, s);
    IdleIff(cfg, e.argv, e.optind);
    assert forall k :: 0 <= k < |p.others| ==> p.others[k] == e.argv[e.optind + k];
    assert forall k :: e.optind <= k < |e.argv| ==> e.argv[k] == p.others[k - e.optind];
  }

  /** An input where it does not: "-a" after "--" is set aside, and the next call
      takes it for an option. */
  lemma AgainFinds()
    ensures var cfg, s := Config("a", None, false), Initial(["p", "--", "-a"]);
            && Call(cfg, s).End? && Clamped(Call(cfg, s).state) == State(["p", "--", "-a"], 2, 2, 2, "")
            && Call(cfg, Clamped(Call(cfg, s).state)).Got?
            && Call(cfg, Clamped(Call(cfg, s).state)).option.code == 'a' as int
  {
    var cfg, argv := Config("a", None, false), ["p", "--", "-a"];
    assert !NonOption("--") && !NonOption("-a") && "-a" != "--";
    assert SkipFrom(argv, 1) == 1 && SkipFrom(argv, 2) == 2;
    assert Start(cfg, "-a") == "a" && FirstIndex("a", 'a') == 0;
  }

  // ---- whole runs ----

  datatype Ran = Ran(state: State, options: seq<Decoded>)

  /** Call until the scan is over. */
  function Run(cfg: Config, s: State): Ran
    requires s.Valid()
    decreases s.Left(), |s.text|
  {
    match Call(cfg, s)
    case End(t) => Ran(t, [])
    case Got(t, d) =>
      CallGot(cfg, s);
      var r := Run(cfg, t);
      r.(options := [d] + r.options)
  }

  lemma {:induction false} RunYields(cfg: Config, s: State)
    requires s.Valid()
    ensures var r, p := Run(cfg, s), Whole(cfg, s);
            r.options == p.options && Arranged(r.state, s.argv[0], p.(options := []))
    decreases s.Left(), |s.text|
  {
    hide Whole, Call;
    if Call(cfg, s).Got? {
      CallGot(cfg, s);
      RunYields(cfg, Call(cfg, s).state);
    } else {
      CallEnd(cfg, s);
    }
  }

  function Initial(argv: seq<string>): State
    requires |argv| > 0
  {
    State(argv, 1, 1, 1, "")
  }

  /** From a fresh start, repeated calls end, return exactly the options of the
      scan, and leave argv as the program name, the elements used by options and
      the others, with optind at the first of the others. */
  lemma PermuteRun(cfg: Config, argv: seq<string>)
    requires |argv| > 0
    ensures var r, p := Run(cfg, Initial(argv)), Scan(cfg, argv[1..]);
            && r.options == p.options
            && r.state.argv == [argv[0]] + p.consumed + p.others
            && r.state.optind == 1 + |p.consumed|
  {
    hide Scan, Run;
    RunYields(cfg, Initial(argv));
    var p := Scan(cfg, argv[1..]);
    assert Initial(argv).Consumed() == [] == Initial(argv).Skipped();
    assert [] + p.consumed == p.consumed && [] + p.others == p.others;
  }

  // ---- the partition is stable ----

  /** Which elements are used by options. */
  function Marks(cfg: Config, args: seq<string>): (m: seq<bool>)
    ensures |m| == |args|
  {
    if |args| == 0 then []
    else if NonOption(args[0]) then [false] + Marks(cfg, args[1..])
    else if args[0] == "--" then [true] + seq(|args| - 1, _ => false)
    else
      StartNonEmpty(cfg, args[0]);
      var n := Taken(DecodeAll(cfg, args[0], Start(cfg, args[0]), Next(args)));
      seq(n, _ => true) + Marks(cfg, args[n..])
  }

  /** The elements marked b, in order. */
  function Pick(args: seq<string>, m: seq<bool>, b: bool): seq<string>
    requires |args| == |m|
  {
    if |args| == 0 then []
    else (if m[0] == b then [args[0]] else []) + Pick(args[1..], m[1..], b)
  }

  lemma {:induction false} PickAppend(a: seq<string>, m: seq<bool>, c: seq<string>, n: seq<bool>, b: bool)
    requires |a| == |m| && |c| == |n|
    ensures Pick(a + c, m + n, b) == Pick(a, m, b) + Pick(c, n, b)
  {
    if |a| == 0 {
      assert a + c == c && m + n == n;
    } else {
      PickAppend(a[1..], m[1..], c, n, b);
      assert (a + c)[1..] == a[1..] + c && (m + n)[1..] == m[1..] + n;
      var h := if m[0] == b then [a[0]] else [];
      assert h + (Pick(a[1..], m[1..], b) + Pick(c, n, b)) == Pick(a, m, b) + Pick(c, n, b);
    }
  }

  lemma {:induction false} PickUniform(a: seq<string>, m: seq<bool>, b: bool)
    requires |a| == |m| && forall i :: 0 <= i < |m| ==> m[i] == b
    ensures Pick(a, m, b) == a && Pick(a, m, !b) == []
  {
    if |a| > 0 { PickUniform(a[1..], m[1..], b); }
  }

  /** Scan splits args into two subsequences that together are all of it. */
  lemma {:induction false} ScanStable(cfg: Config, args: seq<string>)
    ensures var p, m := Scan(cfg, args), Marks(cfg, args);
            p.consumed == Pick(args, m, true) && p.others == Pick(args, m, false)
    decreases |args|
  {
    hide DecodeAll, Decode;
    if |args| == 0 {
    } else if NonOption(args[0]) {
      ScanStable(cfg, args[1..]);
    } else if args[0] == "--" {
      PickUniform(args[1..], Marks(cfg, args)[1..], false);
    } else {
      StartNonEmpty(cfg, args[0]);
      var n := Taken(DecodeAll(cfg, args[0], Start(cfg, args[0]), Next(args)));
      ScanStable(cfg, args[n..]);
      PickTaken(args, n, Marks(cfg, args[n..]));
    }
  }

  /** The first n elements are taken, the others as m says. */
  lemma PickTaken(args: seq<string>, n: nat, m: seq<bool>)
    requires n <= |args| && |m| == |args| - n
    ensures Pick(args, seq(n, _ => true) + m, true) == args[..n] + Pick(args[n..], m, true)
    ensures Pick(args, seq(n, _ => true) + m, false) == Pick(args[n..], m, false)
  {
    hide Pick;
    var yes := seq(n, _ => true);
    assert args == args[..n] + args[n..];
    PickAppend(args[..n], yes, args[n..], m, true);
    PickAppend(args[..n], yes, args[n..], m, false);
    PickUniform(args[..n], yes, true);
    assert [] + Pick(args[n..], m, false) == Pick(args[n..], m, false);
  }

  // ---- one scan in full ----

  /** optstring "ab:o::" and one long option, --len, with a required argument. */
  function SampleConfig(): Config { Config("ab:o::", Some([LongOpt("len", 1, false, 300)]), false) }

  function Plain(c: char, arg: Option<string>, rest: string, taken: nat): Decoded {
    Decoded(c as int, arg, None, rest, taken)
  }

  lemma SampleElements()
    ensures var cfg := SampleConfig();
            && DecodeAll(cfg, "-ab", "ab", Some("v")) == [Plain('a', None, "b", 0), Plain('b', Some("v"), "", 2)]
            && DecodeAll(cfg, "--le=3", "le=3", Some("-o")) == [Decoded(300, Some("3"), Some(0), "", 1)]
            && DecodeAll(cfg, "-o", "o", Some("y")) == [Plain('o', None, "", 1)]
            && DecodeAll(cfg, "-oz", "oz", Some("--")) == [Plain('o', Some("z"), "", 1)]
  {
    hide Decode, DecodeAll;
    var cfg := SampleConfig();
    var opt := cfg.optstring;
    assert ListedAt(opt, 'a', 0) && Colons(opt, 0, 0) && ListedAt(opt, 'b', 1) && Colons(opt, 1, 1);
    assert ListedAt(opt, 'o', 3) && Colons(opt, 3, 2);
    assert "ab"[1..] == "b" && "b"[1..] == "" && "o"[1..] == "" && "oz"[1..] == "z";
    SampleShort("-ab", "ab", Some("v"), 0);
    SampleShort("-ab", "b", Some("v"), 1);
    SampleShort("-o", "o", Some("y"), 3);
    SampleShort("-oz", "oz", Some("--"), 3);
    SampleLong();
    DecodeTo(cfg, "-ab", "ab", Some("v"));
    DecodeTo(cfg, "-ab", "b", Some("v"));
    DecodeTo(cfg, "--le=3", "le=3", Some("-o"));
    DecodeTo(cfg, "-o", "o", Some("y"));
    DecodeTo(cfg, "-oz", "oz", Some("--"));
  }

  lemma DecodeTo(cfg: Config, e: string, text: string, next: Option<string>)
    requires !NonOption(e) && |text| > 0
    ensures var d := Decode(cfg, e, text, next);
            DecodeAll(cfg, e, text, next) == if d.rest == "" then [d] else [d] + DecodeAll(cfg, e, d.rest, next)
  {
  }

  lemma SampleShort(e: string, text: string, next: Option<string>, i: nat)
    requires !NonOption(e) && e[1] != '-' && |text| > 0 && ListedAt(SampleConfig().optstring, text[0], i)
    ensures var cfg, c, rest := SampleConfig(), text[0], text[1..];
            var d := Decode(cfg, e, text, next);
            && (Colons(cfg.optstring, i, 0) ==> d == Plain(c, None, rest, if rest == "" then 1 else 0))
            && (Colons(cfg.optstring, i, 1) && rest == "" && next.Some? ==> d == Plain(c, next, "", 2))
            && (Colons(cfg.optstring, i, 2) ==> d == Plain(c, if rest != "" then Some(rest) else None, "", 1))
  {
    hide TakeShort, TakeLong, MatchLong, Decode, Colons;
    ShortCases(SampleConfig(), text, next, i);
    DecodeCases(SampleConfig(), e, text, next);
  }

  lemma SampleLong()
    ensures Decode(SampleConfig(), "--le=3", "le=3", Some("-o")) == Decoded(300, Some("3"), Some(0), "", 1)
  {
    hide MatchLong, NameEnd;
    var cfg := SampleConfig();
    NameEndIs("le=3", 2);
    assert "le=3"[..2] == "le" && "le=3"[3..] == "3" && "le" <= "len" && "len"[..2] == "le";
    MatchCases(cfg.longs.value, "le", 0);
    DecodeCases(cfg, "--le=3", "le=3", Some("-o"));
  }

  lemma NameEndIs(text: string, k: nat)
    requires k < |text| && text[k] == '=' && '=' !in text[..k]
    ensures NameEnd(text) == k
  {
  }

  /** Clusters, separate, attached and optional arguments, an abbreviated long option,
      "--", and non-options in between. */
  lemma SampleScan()
    ensures Scan(SampleConfig(), ["x", "-ab", "v", "--le=3", "-o", "y", "-oz", "--", "-a"])
         == Parsed([Plain('a', None, "b", 0), Plain('b', Some("v"), "", 2), Decoded(300, Some("3"), Some(0), "", 1),
                    Plain('o', None, "", 1), Plain('o', Some("z"), "", 1)],
                   ["-ab", "v", "--le=3", "-o", "-oz", "--"], ["x", "y", "-a"])
  {
    hide DecodeAll, Scan, Finish;
    var cfg := SampleConfig();
    SampleElements();
    var a1 := ["-a"];
    ScanEnd(cfg, a1);
    var a2 := ["-oz", "--", "-a"];
    ScanOption(cfg, a2, "oz");
    assert a2[1..] == ["--"] + a1;
    var a3 := ["y"] + a2;
    ScanOther(cfg, "y", a2);
    var a4 := ["-o"] + a3;
    ScanOption(cfg, a4, "o");
    assert a4[1..] == a3;
    var a5 := ["--le=3"] + a4;
    ScanOption(cfg, a5, "le=3");
    assert a5[1..] == a4;
    var a6 := ["-ab", "v"] + a5;
    ScanOption(cfg, a6, "ab");
    assert a6[2..] == a5 && a6[..2] == ["-ab", "v"];
    ScanOther(cfg, "x", a6);
    assert ["x"] + a6 == ["x", "-ab", "v", "--le=3", "-o", "y", "-oz", "--", "-a"];
  }

  lemma ScanEnd(cfg: Config, rest: seq<string>)
    ensures Scan(cfg, ["--"] + rest) == Parsed([], ["--"], rest)
  {
    assert (["--"] + rest)[1..] == rest;
    ScanAtEnd(cfg, ["--"] + rest);
  }

  lemma ScanOther(cfg: Config, e: string, rest: seq<string>)
    requires NonOption(e)
    ensures Scan(cfg, [e] + rest) == (var p := Scan(cfg, rest); p.(others := [e] + p.others))
  {
    assert ([e] + rest)[1..] == rest;
  }

  lemma ScanOption(cfg: Config, args: seq<string>, text: string)
    requires |args| > 0 && !NonOption(args[0]) && args[0] != "--" && text == Start(cfg, args[0]) && |text| > 0
    ensures var ds := DecodeAll(cfg, args[0], text, Next(args));
            && Taken(ds) <= |args|
            && var p := Scan(cfg, args[Taken(ds)..]);
               Scan(cfg, args) == Parsed(ds + p.options, args[..Taken(ds)] + p.consumed, p.others)
  {
  }
}
