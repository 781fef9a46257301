/** Decoding one option out of an option element (getopt.c:611-953). */
module GetoptDecode {
  import opened Options

  /** `struct option`; hasArg is 0, 1 (required) or 2 (optional). */
  datatype LongOpt = LongOpt(name: string, hasArg: int, flag: bool, val: int)

  datatype Config = Config(optstring: string, longs: Option<seq<LongOpt>>, longOnly: bool) {
    /** What a missing argument returns. */
    function Missing(): int { if |optstring| > 0 && optstring[0] == ':' then ':' as int else '?' as int }
    /** Character i of optstring; the terminator past its end. */
    function At(i: nat): char { if i < |optstring| then optstring[i] else '\0' }
    /** No "W;": that branch is not modelled. */
    predicate Plain() { forall i :: 0 <= i < |optstring| && optstring[i] == 'W' ==> At(i + 1) != ';' }
  }

  /** What one call returns, and how far it got: the text left in the element
      ("" when it is finished) and how many elements it used up. */
  datatype Decoded = Decoded(code: int, optarg: Option<string>, longind: Option<nat>, rest: string, taken: nat)

  const BAD: int := '?' as int

  /** An element that is not an option: no leading '-', or nothing after it. */
  predicate NonOption(e: string) { |e| < 2 || e[0] != '-' }

  /** Where decoding of an option element starts. */
  function Start(cfg: Config, e: string): string
    requires !NonOption(e)
  {
    if cfg.longs.Some? && e[1] == '-' then e[2..] else e[1..]
  }

  // ---- long options ----

  datatype Match = NoMatch | Ambiguous | Found(index: nat)

  /** An exact match wins; otherwise the one option that the name abbreviates. */
  function MatchLong(longs: seq<LongOpt>, name: string): Match {
    var exact := FirstExact(longs, name, 0);
    var part := FirstPrefix(longs, name, 0);
    if exact < |longs| then Found(exact)
    else if part == |longs| then NoMatch
    else if FirstPrefix(longs, name, part + 1) < |longs| then Ambiguous
    else Found(part)
  }

  function FirstExact(longs: seq<LongOpt>, name: string, i: nat): (r: nat)
    requires i <= |longs|
    ensures i <= r <= |longs|
    ensures forall k :: i <= k < r ==> longs[k].name != name
    ensures r < |longs| ==> longs[r].name == name
    decreases |longs| - i
  {
    if i == |longs| || longs[i].name == name then i else FirstExact(longs, name, i + 1)
  }

  function FirstPrefix(longs: seq<LongOpt>, name: string, i: nat): (r: nat)
    requires i <= |longs|
    ensures i <= r <= |longs|
    ensures forall k :: i <= k < r ==> !(name <= longs[k].name)
    ensures r < |longs| ==> name <= longs[r].name
    decreases |longs| - i
  {
    if i == |longs| || name <= longs[i].name then i else FirstPrefix(longs, name, i + 1)
  }

  /** Length of the text up to a '='. */
  function NameEnd(text: string): (k: nat)
    ensures k <= |text| && '=' !in text[..k] && (k < |text| ==> text[k] == '=')
  {
    if |text| == 0 || text[0] == '=' then 0 else 1 + NameEnd(text[1..])
  }

  /** A long option, when its name matches. */
  function TakeLong(cfg: Config, p: LongOpt, i: nat, text: string, next: Option<string>): Decoded {
    var k := NameEnd(text);
    var code := if p.flag then 0 else p.val;
    if k < |text| then
      if p.hasArg != 0 then Decoded(code, Some(text[k + 1..]), Some(i), "", 1)
      else Decoded(BAD, None, None, "", 1)
    else if p.hasArg == 1 then
      if next.Some? then Decoded(code, next, Some(i), "", 2)
      else Decoded(cfg.Missing(), None, None, "", 1)
    else Decoded(code, None, Some(i), "", 1)
  }

  // ---- short options ----

  function FirstIndex(s: string, c: char): (r: nat)
    ensures r <= |s| && c !in s[..r] && (r < |s| ==> s[r] == c)
  {
    if |s| == 0 || s[0] == c then 0 else 1 + FirstIndex(s[1..], c)
  }

  function TakeShort(cfg: Config, text: string, next: Option<string>): Decoded
    requires |text| > 0
  {
    var c, rest, i := text[0], text[1..], FirstIndex(cfg.optstring, text[0]);
    var here := if rest == "" then 1 else 0;
    if i == |cfg.optstring| || c == ':' then Decoded(BAD, None, None, rest, here)
    else if cfg.At(i + 1) != ':' then Decoded(c as int, None, None, rest, here)
    else if rest != "" then Decoded(c as int, Some(rest), None, "", 1)
    else if cfg.At(i + 2) == ':' then Decoded(c as int, None, None, "", 1)
    else if next.Some? then Decoded(c as int, next, None, "", 2)
    else Decoded(cfg.Missing(), None, None, "", 1)
  }

  // ---- either ----

  /** Whether the element is tried as a long option first. */
  predicate TriesLong(cfg: Config, e: string)
    requires !NonOption(e)
  {
    cfg.longs.Some? && (e[1] == '-' || (cfg.longOnly && (|e| > 2 || e[1] !in cfg.optstring)))
  }

  /** Decode the option at the front of `text`, the unread part of element e;
      `next` is the element after e, if there is one. */
  function Decode(cfg: Config, e: string, text: string, next: Option<string>): (d: Decoded)
    requires !NonOption(e) && |text| > 0
    ensures d.taken <= 2 && (d.taken == 0 <==> d.rest != "") && (d.taken == 2 ==> next.Some?)
    ensures |d.rest| < |text| && d.rest == (if d.rest == "" then "" else text[1..])
  {
    if TriesLong(cfg, e) then
      var longs := cfg.longs.value;
      match MatchLong(longs, text[..NameEnd(text)])
      case Ambiguous => Decoded(BAD, None, None, "", 1)
      case Found(i) => TakeLong(cfg, longs[i], i, text, next)
      case NoMatch =>
        if !cfg.longOnly || e[1] == '-' || text[0] !in cfg.optstring then Decoded(BAD, None, None, "", 1)
        else TakeShort(cfg, text, next)
    else TakeShort(cfg, text, next)
  }

  // ---- what the decoding means ----

  /** Only a lone dash, or something without one in front, is not an option. */
  lemma ElementCases(cfg: Config, name: string)
    ensures NonOption("") && NonOption("-") && !NonOption("--")
    ensures name != "" ==> !NonOption("-" + name) && !NonOption("--" + name)
    ensures |name| > 0 && name[0] != '-' ==> NonOption(name)
    ensures name != "" && (cfg.longs.None? || name[0] != '-') ==> Start(cfg, "-" + name) == name
    ensures cfg.longs.Some? ==> Start(cfg, "--" + name) == name
  {
    assert "--" + name == ['-', '-'] + name && ("--" + name)[2..] == name;
    assert ("-" + name)[1..] == name;
  }

  /** In optstring the option at i is followed by exactly k colons, as far as two. */
  predicate Colons(opt: string, i: nat, k: nat) {
    && i + k < |opt| && (forall j :: i < j <= i + k ==> opt[j] == ':')
    && (k < 2 ==> i + k + 1 == |opt| || opt[i + k + 1] != ':')
  }

  /** c is a short option, listed first at i. */
  predicate ListedAt(opt: string, c: char, i: nat) { i < |opt| && opt[i] == c && c !in opt[..i] && c != ':' }

  lemma IndexUnique(s: string, c: char, i: nat)
    requires i < |s| && s[i] == c && c !in s[..i]
    ensures FirstIndex(s, c) == i
  {
  }

  /** A short option without a colon takes no argument; with one colon it takes the
      rest of its element, else the next element, and is an error without either;
      with two it takes the rest of its element or nothing. */
  lemma ShortCases(cfg: Config, text: string, next: Option<string>, i: nat)
    requires |text| > 0 && ListedAt(cfg.optstring, text[0], i)
    ensures var d, c, rest := TakeShort(cfg, text, next), text[0] as int, text[1..];
            && (Colons(cfg.optstring, i, 0) ==> d == Decoded(c, None, None, rest, if rest == "" then 1 else 0))
            && (Colons(cfg.optstring, i, 1) ==>
                  d == if rest != "" then Decoded(c, Some(rest), None, "", 1)
                       else if next.Some? then Decoded(c, next, None, "", 2)
                       else Decoded(cfg.Missing(), None, None, "", 1))
            && (Colons(cfg.optstring, i, 2) ==>
                  d == Decoded(c, if rest != "" then Some(rest) else None, None, "", 1))
  {
    hide FirstIndex;
    IndexUnique(cfg.optstring, text[0], i);
  }

  /** One of the three always applies. */
  lemma SomeColons(opt: string, i: nat)
    requires i < |opt|
    ensures Colons(opt, i, 0) || Colons(opt, i, 1) || Colons(opt, i, 2)
  {
  }

  /** A character that is not listed, or a colon, is an error that skips it. */
  lemma UnknownShort(cfg: Config, text: string, next: Option<string>)
    requires |text| > 0 && (text[0] !in cfg.optstring || text[0] == ':')
    ensures TakeShort(cfg, text, next)
         == Decoded('?' as int, None, None, text[1..], if |text| == 1 then 1 else 0)
  {
    IndexIsIn(cfg.optstring, text[0]);
  }

  /** A missing argument is reported as ':' exactly when optstring begins with one. */
  lemma MissingIs(cfg: Config)
    ensures cfg.Missing() == (if cfg.optstring != "" && cfg.optstring[0] == ':' then ':' as int else '?' as int)
  {
  }

  /** A long option that sets a flag returns 0, any other its value. */
  lemma LongCode(cfg: Config, p: LongOpt, i: nat, text: string, next: Option<string>)
    ensures var d := TakeLong(cfg, p, i, text, next);
            d.longind.Some? ==> d.longind.value == i && d.code == if p.flag then 0 else p.val
  {
  }

  /** The table of long options is searched for an exact name first, wherever it is,
      and then for a name that is abbreviated by what was given, if there is one only. */
  lemma MatchCases(longs: seq<LongOpt>, name: string, i: nat)
    ensures MatchLong(longs, name) == NoMatch <==> forall k :: 0 <= k < |longs| ==> !(name <= longs[k].name)
    ensures MatchLong(longs, name) == Found(i) <==>
            && i < |longs| && name <= longs[i].name
            && if longs[i].name == name then forall k :: 0 <= k < i ==> longs[k].name != name
               else forall k :: 0 <= k < |longs| && k != i ==> !(name <= longs[k].name)
  {
    var exact, part := FirstExact(longs, name, 0), FirstPrefix(longs, name, 0);
    if exact < |longs| { assert name <= longs[exact].name; }
  }

  /** Which elements are taken for long options. */
  lemma DecodeCases(cfg: Config, e: string, text: string, next: Option<string>)
    requires !NonOption(e) && |text| > 0
    ensures var d := Decode(cfg, e, text, next);
            if cfg.longs.None? || (e[1] != '-' && (!cfg.longOnly || (|e| == 2 && e[1] in cfg.optstring))) then
              d == TakeShort(cfg, text, next)
            else
              var m := MatchLong(cfg.longs.value, text[..NameEnd(text)]);
              && (m.Found? ==> d == TakeLong(cfg, cfg.longs.value[m.index], m.index, text, next))
              && (m == Ambiguous ==> d == Decoded('?' as int, None, None, "", 1))
              && (m == NoMatch ==>
                    d == if e[1] == '-' || text[0] !in cfg.optstring then Decoded('?' as int, None, None, "", 1)
                         else TakeShort(cfg, text, next))
  {
    hide TakeShort, TakeLong, MatchLong;
  }

  // ---- the loops of getopt.c ----

  /** `my_index`: where c first occurs in s, or |s|. */
  method MyIndex(s: string, c: char) returns (r: nat)
    ensures r == FirstIndex(s, c)
  {
    r := 0;
    while r < |s| && s[r] != c
      invariant r <= |s| && FirstIndex(s, c) == r + FirstIndex(s[r..], c)
    {
      assert s[r..][1..] == s[r + 1..];
      r := r + 1;
    }
  }

  method FindNameEnd(text: string) returns (k: nat)
    ensures k == NameEnd(text)
  {
    k := 0;
    while k < |text| && text[k] != '='
      invariant k <= |text| && NameEnd(text) == k + NameEnd(text[k..])
    {
      assert text[k..][1..] == text[k + 1..];
      k := k + 1;
    }
  }

  /** What the search knows after i entries without an exact match. */
  ghost predicate Seen(longs: seq<LongOpt>, name: string, i: nat, found: Option<nat>, ambig: bool)
    requires i <= |longs|
  {
    if found == None then !ambig && FirstPrefix(longs, name, 0) == FirstPrefix(longs, name, i)
    else
      var p := found.value;
      && p < i && FirstPrefix(longs, name, 0) == p
      && if ambig then FirstPrefix(longs, name, p + 1) < i
         else FirstPrefix(longs, name, p + 1) == FirstPrefix(longs, name, i)
  }

  lemma SeenStep(longs: seq<LongOpt>, name: string, i: nat, found: Option<nat>, ambig: bool)
    requires i < |longs| && Seen(longs, name, i, found, ambig) && longs[i].name != name
    ensures FirstExact(longs, name, i) == FirstExact(longs, name, i + 1)
    ensures if !(name <= longs[i].name) then Seen(longs, name, i + 1, found, ambig)
            else if found == None then Seen(longs, name, i + 1, Some(i), ambig)
            else Seen(longs, name, i + 1, found, true)
  {
  }

  lemma SeenAll(longs: seq<LongOpt>, name: string, found: Option<nat>, ambig: bool)
    requires Seen(longs, name, |longs|, found, ambig) && FirstExact(longs, name, 0) == FirstExact(longs, name, |longs|)
    ensures MatchLong(longs, name) == if ambig then Ambiguous else if found.Some? then Found(found.value) else NoMatch
  {
  }

  lemma SeenExact(longs: seq<LongOpt>, name: string, i: nat)
    requires i < |longs| && longs[i].name == name && FirstExact(longs, name, 0) == FirstExact(longs, name, i)
    ensures MatchLong(longs, name) == Found(i)
  {
  }

  lemma SeenNone(longs: seq<LongOpt>, name: string)
    ensures Seen(longs, name, 0, None, false)
  {
  }

  /** The search over the table of long options (getopt.c:641-664). */
  method FindLong(longs: seq<LongOpt>, name: string) returns (m: Match)
    ensures m == MatchLong(longs, name)
  {
    hide Seen, FirstExact, FirstPrefix, MatchLong;
    var found: Option<nat> := None;
    var ambig := false;
    var i := 0;
    SeenNone(longs, name);
    while i < |longs|
      invariant i <= |longs| && Seen(longs, name, i, found, ambig)
      invariant FirstExact(longs, name, 0) == FirstExact(longs, name, i)
    {
      if name <= longs[i].name && |name| == |longs[i].name| {
        SeenExact(longs, name, i);
        return Found(i);
      }
      SeenStep(longs, name, i, found, ambig);
      if name <= longs[i].name {
        if found == None {
          found := Some(i);
        } else {
          ambig := true;
        }
      }
      i := i + 1;
    }
    SeenAll(longs, name, found, ambig);
    m := if ambig then Ambiguous else if found.Some? then Found(found.value) else NoMatch;
  }

  /** Decoding as getopt.c does it. */
  method DecodeOption(cfg: Config, e: string, text: string, next: Option<string>) returns (d: Decoded)
    requires !NonOption(e) && |text| > 0 && cfg.Plain()
    ensures d == Decode(cfg, e, text, next)
  {
    var long := false;
    if cfg.longs.Some? {
      var i := MyIndex(cfg.optstring, e[1]);
      IndexIsIn(cfg.optstring, e[1]);
      long := e[1] == '-' || (cfg.longOnly && (|e| > 2 || i == |cfg.optstring|));
    }
    if long {
      var k := FindNameEnd(text);
      var m := FindLong(cfg.longs.value, text[..k]);
      match m {
        case Ambiguous => return Decoded(BAD, None, None, "", 1);
        case Found(i) => d := TakeLongOption(cfg, cfg.longs.value[i], i, text, k, next); return;
        case NoMatch =>
          var i := MyIndex(cfg.optstring, text[0]);
          IndexIsIn(cfg.optstring, text[0]);
          if !cfg.longOnly || e[1] == '-' || i == |cfg.optstring| {
            return Decoded(BAD, None, None, "", 1);
          }
      }
    }
    d := TakeShortOption(cfg, text, next);
  }

  lemma IndexIsIn(s: string, c: char)
    ensures FirstIndex(s, c) == |s| <==> c !in s
  {
    assert s[..|s|] == s;
  }

  method TakeLongOption(cfg: Config, p: LongOpt, i: nat, text: string, k: nat, next: Option<string>)
    returns (d: Decoded)
    requires k == NameEnd(text)
    ensures d == TakeLong(cfg, p, i, text, next)
    ensures d.rest == "" && (if p.hasArg == 1 && '=' !in text && next.Some? then d.taken == 2 else d.taken == 1)
    ensures d.longind == None <==> if '=' in text then p.hasArg == 0 else p.hasArg == 1 && next == None
    ensures d.longind.Some? ==>
              d.optarg == if '=' in text then Some(text[k + 1..]) else if p.hasArg == 1 then next else None
  {
    assert text[..k] + text[k..] == text;
    var optarg, taken := None, 1;
    if k < |text| {
      if p.hasArg != 0 {
        optarg := Some(text[k + 1..]);
      } else {
        return Decoded(BAD, None, None, "", 1);
      }
    } else if p.hasArg == 1 {
      if next.Some? {
        optarg, taken := next, taken + 1;
      } else {
        return Decoded(cfg.Missing(), None, None, "", 1);
      }
    }
    d := Decoded(if p.flag then 0 else p.val, optarg, Some(i), "", taken);
  }

  method TakeShortOption(cfg: Config, text: string, next: Option<string>) returns (d: Decoded)
    requires |text| > 0 && cfg.Plain()
    ensures d == TakeShort(cfg, text, next)
    ensures d.longind == None && (d.taken == 2 ==> |text| == 1 && d.optarg == next && next.Some?)
    ensures d.optarg.Some? && d.taken != 2 ==> d.optarg.value == text[1..] && |text| > 1
    ensures d.code == text[0] as int || d.code == BAD || d.code == cfg.Missing()
  {
    var c := text[0];
    var rest := text[1..];
    var i := MyIndex(cfg.optstring, c);
    var taken := if rest == "" then 1 else 0;
    if i == |cfg.optstring| || c == ':' {
      return Decoded(BAD, None, None, rest, taken);
    }
    var code, optarg := c as int, None;
    if cfg.At(i + 1) == ':' {
      if cfg.At(i + 2) == ':' {
        if rest != "" {
          optarg, taken := Some(rest), taken + 1;
        }
      } else {
        if rest != "" {
          optarg, taken := Some(rest), taken + 1;
        } else if next == None {
          code := cfg.Missing();
        } else {
          optarg, taken := next, taken + 1;
        }
      }
      rest := "";
    }
    d := Decoded(code, optarg, None, rest, taken);
  }
}
