/** `_getopt_internal` (getopt.c:503-955) over an array it permutes in place. */
module Getopt {
  import opened Options
  import opened GetoptExchange
  import opened GetoptDecode
  import opened GetoptScan

  class Scanner {
    const cfg: Config
    const argv: array<string>
    var initialized: bool
    var optind: nat
    var firstNonopt: nat
    var lastNonopt: nat
    var nextchar: string        // "" stands for NULL too
    var optarg: Option<string>

    /** PERMUTE ordering: no '+' or '-' prefix, POSIXLY_CORRECT not set. */
    ghost predicate Permutes() {
      argv.Length > 0 && cfg.Plain() && (|cfg.optstring| > 0 ==> cfg.optstring[0] != '-' && cfg.optstring[0] != '+')
    }

    ghost predicate Valid()
      reads this, argv
    {
      && Permutes() && (if initialized then Now().Valid() else optind <= 1)
      && (initialized && nextchar != "" ==> firstNonopt <= lastNonopt <= optind)
    }

    /** The state a call starts from: after -1 the bounds may lie past optind. */
    ghost function Now(): State
      reads this, argv
      requires argv.Length > 0
    {
      if initialized then Clamped(Fields()) else Initial(argv[..])
    }

    /** The fields as they are. */
    ghost function Fields(): State
      reads this, argv
    {
      State(argv[..], firstNonopt, lastNonopt, optind, nextchar)
    }

    constructor (cfg: Config, argv: array<string>)
      requires argv.Length > 0 && cfg.Plain()
      requires |cfg.optstring| > 0 ==> cfg.optstring[0] != '-' && cfg.optstring[0] != '+'
      ensures Valid() && Now() == Initial(argv[..]) && this.cfg == cfg && this.argv == argv
    {
      this.cfg, this.argv, initialized, optind := cfg, argv, false, 1;
      firstNonopt, lastNonopt, nextchar, optarg := 0, 0, "", None;
    }

    /** `_getopt_initialize`, on the first call only. */
    method Initialize()
      requires Valid()
      modifies `initialized, `optind, `firstNonopt, `lastNonopt, `nextchar
      ensures Valid() && initialized && Now() == old(Now())
    {
      if optind == 0 || !initialized {
        if optind == 0 { optind := 1; }
        firstNonopt, lastNonopt, nextchar := optind, optind, "";
        initialized := true;
      }
    }

    /** Exchange if needed (getopt.c:540-553). */
    method Settle()
      requires Valid() && initialized && nextchar == ""
      modifies `firstNonopt, `lastNonopt, argv
      ensures argv[..] == Settled(old(Now())).argv && firstNonopt == Settled(old(Now())).first
    {
      hide Rotated;
      lastNonopt := Least(lastNonopt, optind);
      firstNonopt := Least(firstNonopt, optind);
      if firstNonopt != lastNonopt && lastNonopt != optind {
        firstNonopt, lastNonopt := Exchange(argv, firstNonopt, lastNonopt, optind);
      } else if lastNonopt != optind {
        firstNonopt := optind;
      }
    }

    /** Exchange if needed, then skip non-options (getopt.c:540-561). */
    method SettleAndSkip()
      requires Valid() && initialized && nextchar == ""
      modifies `optind, `firstNonopt, `lastNonopt, argv
      ensures Valid() && initialized
      ensures var t := Settled(old(Now()));
              t.Valid() && var i := SkipFrom(t.argv, t.optind);
              Fields() == t.(optind := i, last := i) && Fields().Valid()
    {
      hide Settled;
      SettledKeeps(Now());
      ghost var t := Settled(Now());
      Settle();
      SkipNonOptions();
      lastNonopt := optind;
    }

    method SkipNonOptions()
      requires optind <= argv.Length
      modifies `optind
      ensures optind == SkipFrom(argv[..], old(optind))
    {
      while optind < argv.Length && NonOption(argv[optind])
        invariant optind <= argv.Length && SkipFrom(argv[..], old(optind)) == SkipFrom(argv[..], optind)
      {
        optind := optind + 1;
      }
    }

    /** "--" ends the options (getopt.c:568-579). */
    method EndOptions()
      requires Valid() && initialized && nextchar == "" && Fields().Valid() && lastNonopt == optind < argv.Length
      modifies `optind, `firstNonopt, `lastNonopt, argv
      ensures Fields() == Ended(old(Fields()))
    {
      hide Rotated;
      optind := optind + 1;
      if firstNonopt != lastNonopt && lastNonopt != optind {
        firstNonopt, lastNonopt := Exchange(argv, firstNonopt, lastNonopt, optind);
      } else if firstNonopt == lastNonopt {
        firstNonopt := optind;
      }
      lastNonopt := argv.Length;
      optind := argv.Length;
    }

    /** Move to the next option element; false when there is none (getopt.c:534-609). */
    method AdvanceElement() returns (more: bool)
      requires Valid() && initialized && nextchar == ""
      modifies `optind, `firstNonopt, `lastNonopt, `nextchar, argv
      ensures var a := Advance(cfg, old(Now()));
              && more == a.Go? && Fields() == a.state
              && (more ==> Valid() && nextchar != "")
    {
      hide Settled;
      AdvanceValid(cfg, Now());
      SettleAndSkip();
      if optind != argv.Length && argv[optind] == "--" {
        EndOptions();
      }
      if optind == argv.Length {
        if firstNonopt != lastNonopt { optind := firstNonopt; }
        return false;
      }
      nextchar := if cfg.longs.Some? && argv[optind][1] == '-' then argv[optind][2..] else argv[optind][1..];
      return true;
    }

    /** One call: None stands for -1. */
    method Getopt() returns (r: Option<Decoded>)
      requires Valid()
      modifies this, argv
      ensures Permutes() && initialized
      ensures var c := Call(cfg, old(Now()));
              && Fields() == c.state
              && r == (if c.End? then None else Some(c.option))
              && optarg == (if c.End? then None else c.option.optarg)
      ensures Valid()
    {
      hide Advance, CallDecode, Whole;
      ghost var before := Now();
      CallLeaves(cfg, before);
      optarg := None;
      Initialize();
      if nextchar == "" {
        var more := AdvanceElement();
        if !more { return None; }
      }
      var d := DecodeCurrent();
      return Some(d);
    }

    /** Decode the option at nextchar (getopt.c:611-953). */
    method DecodeCurrent() returns (d: Decoded)
      requires Valid() && initialized && nextchar != ""
      modifies `optind, `nextchar, `optarg
      ensures Valid() && CallDecode(cfg, old(Now())) == Got(Fields(), d) && optarg == d.optarg
    {
      hide Whole, Decode;
      ghost var t := Now();
      var next := if optind + 1 < argv.Length then Some(argv[optind + 1]) else None;
      assert t.argv[t.optind..][0] == argv[optind] && next == Next(t.argv[t.optind..]);
      DecodeKeeps(cfg, t);
      d := DecodeOption(cfg, argv[optind], nextchar, next);
      optind, nextchar, optarg := optind + d.taken, d.rest, d.optarg;
    }

    /** The loop every caller writes: call until -1. It ends, returns exactly the
        options of the left-to-right scan of the original arguments, and leaves
        them permuted with optind at the first non-option. */
    method ParseAll() returns (options: seq<Decoded>)
      requires Valid() && !initialized
      modifies this, argv
      ensures Valid() && initialized
      ensures var p := Scan(cfg, old(argv[1..]));
              && options == p.options
              && argv[..] == [old(argv[0])] + p.consumed + p.others
              && optind == 1 + |p.consumed|
    {
      hide Run, Call, Scan, Reaches;
      ghost var start := argv[..];
      PermuteRun(cfg, start);
      assert argv[1..] == start[1..];
      options := [];
      ghost var goal := Run(cfg, Now());
      ReachesStart(cfg, Now());
      while true
        invariant Valid() && Reaches(cfg, Now(), options, goal)
        decreases Now().Left(), |nextchar|, !initialized
      {
        ReachesStep(cfg, Now(), options, goal);
        var r := Getopt();
        if r == None { return; }
        options := options + [r.value];
      }
    }
  }

  /** Whatever a call returns, the next one finds a valid state. */
  lemma CallLeaves(cfg: Config, s: State)
    requires s.Valid()
    ensures var t := Call(cfg, s).state;
            Clamped(t).Valid() && (t.text != "" ==> t.first <= t.last <= t.optind)
    ensures s.text == "" && Advance(cfg, s).Go? ==> Advance(cfg, s).state.Valid() && Advance(cfg, s).state.text != ""
  {
    hide Call, Whole, Advance;
    if s.text == "" { AdvanceValid(cfg, s); }
    if Call(cfg, s).End? { EndClamped(cfg, s); } else { CallGot(cfg, s); }
  }

  /** From s on, the run ends in goal, once the options so far are put in front. */
  ghost predicate Reaches(cfg: Config, s: State, options: seq<Decoded>, goal: Ran)
    requires s.Valid()
  {
    goal == Ran(Run(cfg, s).state, options + Run(cfg, s).options)
  }

  lemma ReachesStart(cfg: Config, s: State)
    requires s.Valid()
    ensures Reaches(cfg, s, [], Run(cfg, s))
  {
    hide Run;
    assert [] + Run(cfg, s).options == Run(cfg, s).options;
  }

  lemma ReachesStep(cfg: Config, s: State, options: seq<Decoded>, goal: Ran)
    requires s.Valid() && Reaches(cfg, s, options, goal)
    ensures Call(cfg, s).End? ==> goal == Ran(Call(cfg, s).state, options)
    ensures Call(cfg, s).Got? ==>
            var c := Call(cfg, s);
            && c.state.Valid() && Reaches(cfg, c.state, options + [c.option], goal)
            && (c.state.Left() < s.Left() || (c.state.Left() == s.Left() && |c.state.text| < |s.text|))
  {
    hide Call, Run;
    RunStep(cfg, s);
    if Call(cfg, s).End? {
      assert options + [] == options;
    } else {
      var c := Call(cfg, s);
      assert options + ([c.option] + Run(cfg, c.state).options) == (options + [c.option]) + Run(cfg, c.state).options;
    }
  }

  lemma RunStep(cfg: Config, s: State)
    requires s.Valid()
    ensures Call(cfg, s).End? ==> Run(cfg, s) == Ran(Call(cfg, s).state, [])
    ensures Call(cfg, s).Got? ==>
            var c := Call(cfg, s);
            && c.state.Valid()
            && Run(cfg, s) == Ran(Run(cfg, c.state).state, [c.option] + Run(cfg, c.state).options)
            && (c.state.Left() < s.Left() || (c.state.Left() == s.Left() && |c.state.text| < |s.text|))
  {
    hide Call;
    if Call(cfg, s).Got? { CallGot(cfg, s); }
  }
}
