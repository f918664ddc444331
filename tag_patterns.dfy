/** The regular expressions the ensemble-tag decoders try against a long tag, each
    as a scanner, and the dictionaries a successful match is turned into.

    A long tag such as `b3.70_ms-0.000_mud-0.020_s32t96-000` names the gauge
    coupling beta, the strange and light quark masses ms and mud, the lattice
    extents NL and NT and a stream label P; the newer ensembles use a charm mass
    mc instead of ms (`b3.6_mc0.25_mud-0.013_s32t64`). `re.match` anchors a
    pattern at the start of the tag only, so every scanner returns the rest of
    the tag as well. */
module TagPatterns {
  import opened Py
  import opened Scan

  // ------------------------------------------------- the lattice extents

  /** `_s(?P<NL>[0-9]q)t(?P<NT>[0-9]q)` followed by `rest`. */
  function SizeText(nl: string, nt: string, rest: string): string
  {
    "_s" + (nl + ("t" + (nt + rest)))
  }

  function ScanSize(q: Quant, s: string): (r: Option<Cut<(string, string)>>)
    ensures r.Some? ==> s == SizeText(r.value.taken.0, r.value.taken.1, r.value.rest)
    ensures r.Some? ==> RunFits(Digit, q, r.value.taken.0) && RunFits(Digit, q, r.value.taken.1)
    ensures r.Some? ==> Stops(Digit, q, r.value.rest)
  {
    var a :- ScanLit("_s", s);
    var nl :- ScanRun(Digit, q, a);
    var b :- ScanLit("t", nl.rest);
    var nt :- ScanRun(Digit, q, b);
    Some(Cut((nl.taken, nt.taken), nt.rest))
  }

  lemma ScanSizeComplete(q: Quant, nl: string, nt: string, rest: string)
    requires RunFits(Digit, q, nl) && RunFits(Digit, q, nt) && Stops(Digit, q, rest)
    ensures ScanSize(q, SizeText(nl, nt, rest)) == Some(Cut((nl, nt), rest))
  {
    ScanLitComplete("_s", nl + ("t" + (nt + rest)));
    assert ("t" + (nt + rest))[0] == 't';
    ScanRunComplete(Digit, q, nl, "t" + (nt + rest));
    ScanLitComplete("t", nt + rest);
    ScanRunComplete(Digit, q, nt, rest);
  }

  // ------------------------------------------- the `_ms` family of patterns

  /** The parts in which the `b..._ms..._mud-..._s..t..` patterns differ: the
      number of decimals of ms and of mud, the width of NL and NT, and whether a
      `-(?P<P>[0-9]{3})` suffix follows. beta is `[0-9]+\.[0-9]+` in all of them. */
  datatype MsShape = MsShape(msFrac: Quant, mudFrac: Quant, size: Quant, withP: bool)

  datatype MsFields = MsFields(beta: Dec, ms: Dec, mud: Dec, nl: string, nt: string, p: Option<string>)

  /** `-(?P<P>...)` when there is a P, then `rest`. */
  function PText(p: Option<string>, rest: string): string
  {
    if p.Some? then "-" + (p.value + rest) else rest
  }

  /** The long tag that `f` describes, followed by `rest`. */
  function MsText(f: MsFields, rest: string): string
  {
    "b" + (DecText(f.beta) + ("_ms" + (DecText(f.ms) + ("_mud-" + (DecText(f.mud) +
      SizeText(f.nl, f.nt, PText(f.p, rest)))))))
  }

  /** `f` is what the pattern of shape `sh` captures. */
  predicate MsFits(sh: MsShape, f: MsFields)
  {
    DecFits(false, Plus, Plus, f.beta) && DecFits(true, Plus, sh.msFrac, f.ms) &&
    DecFits(false, Plus, sh.mudFrac, f.mud) &&
    RunFits(Digit, sh.size, f.nl) && RunFits(Digit, sh.size, f.nt) &&
    (f.p.Some? <==> sh.withP) && (f.p.Some? ==> RunFits(Digit, Exactly(3), f.p.value))
  }

  /** What may follow a match of shape `sh` for the match to end where it does. */
  predicate MsTailOk(sh: MsShape, rest: string)
  {
    sh.withP || Stops(Digit, sh.size, rest)
  }

  function ScanP(withP: bool, s: string): (r: Option<Cut<Option<string>>>)
    ensures r.Some? ==> s == PText(r.value.taken, r.value.rest)
    ensures r.Some? ==> (r.value.taken.Some? <==> withP)
    ensures r.Some? && withP ==> RunFits(Digit, Exactly(3), r.value.taken.value)
  {
    if withP then
      var a :- ScanLit("-", s);
      var p :- ScanRun(Digit, Exactly(3), a);
      Some(Cut(Some(p.taken), p.rest))
    else Some(Cut(None, s))
  }

  /** `re.match` of a pattern of the `_ms` family. */
  function MatchMs(sh: MsShape, s: string): (r: Option<Cut<MsFields>>)
    ensures r.Some? ==> s == MsText(r.value.taken, r.value.rest)
    ensures r.Some? ==> MsFits(sh, r.value.taken)
  {
    var a :- ScanLit("b", s);
    var beta :- ScanDec(false, Plus, Plus, a);
    var b :- ScanLit("_ms", beta.rest);
    var ms :- ScanDec(true, Plus, sh.msFrac, b);
    var c :- ScanLit("_mud-", ms.rest);
    var mud :- ScanDec(false, Plus, sh.mudFrac, c);
    var size :- ScanSize(sh.size, mud.rest);
    var p :- ScanP(sh.withP, size.rest);
    Some(Cut(MsFields(beta.taken, ms.taken, mud.taken, size.taken.0, size.taken.1, p.taken), p.rest))
  }

  lemma MatchMsComplete(sh: MsShape, f: MsFields, rest: string)
    requires MsFits(sh, f) && MsTailOk(sh, rest)
    ensures MatchMs(sh, MsText(f, rest)) == Some(Cut(f, rest))
  {
    var afterSize := PText(f.p, rest);
    var afterMud := SizeText(f.nl, f.nt, afterSize);
    var afterMs := "_mud-" + (DecText(f.mud) + afterMud);
    var afterBeta := "_ms" + (DecText(f.ms) + afterMs);
    ScanLitComplete("b", DecText(f.beta) + afterBeta);
    assert afterBeta[0] == '_';
    ScanDecComplete(false, Plus, Plus, f.beta, afterBeta);
    ScanLitComplete("_ms", DecText(f.ms) + afterMs);
    assert afterMs[0] == '_';
    ScanDecComplete(true, Plus, sh.msFrac, f.ms, afterMs);
    ScanLitComplete("_mud-", DecText(f.mud) + afterMud);
    assert afterMud[0] == '_';
    ScanDecComplete(false, Plus, sh.mudFrac, f.mud, afterMud);
    if sh.withP {
      assert afterSize[0] == '-';
      ScanLitComplete("-", f.p.value + rest);
      ScanRunComplete(Digit, Exactly(3), f.p.value, rest);
    }
    ScanSizeComplete(sh.size, f.nl, f.nt, afterSize);
  }

  // -------------------------------------------------- the `_mc` pattern

  datatype McFields = McFields(beta: Dec, mc: Dec, mud: Dec, nl: string, nt: string)

  function McText(f: McFields, rest: string): string
  {
    "b" + (DecText(f.beta) + ("_mc" + (DecText(f.mc) + ("_mud-" + (DecText(f.mud) +
      SizeText(f.nl, f.nt, rest))))))
  }

  /** `f` is what `b([0-9]+\.[0-9]+)_mc([0-9]+\.[0-9]{2})_mud-([0-9]+\.[0-9]{3})_s([0-9]{2})t([0-9]{2})` captures. */
  predicate McFits(f: McFields)
  {
    DecFits(false, Plus, Plus, f.beta) && DecFits(false, Plus, Exactly(2), f.mc) &&
    DecFits(false, Plus, Exactly(3), f.mud) &&
    RunFits(Digit, Exactly(2), f.nl) && RunFits(Digit, Exactly(2), f.nt)
  }

  /** `re.match` of the `_mc` pattern. */
  function MatchMc(s: string): (r: Option<Cut<McFields>>)
    ensures r.Some? ==> s == McText(r.value.taken, r.value.rest)
    ensures r.Some? ==> McFits(r.value.taken)
  {
    var a :- ScanLit("b", s);
    var beta :- ScanDec(false, Plus, Plus, a);
    var b :- ScanLit("_mc", beta.rest);
    var mc :- ScanDec(false, Plus, Exactly(2), b);
    var c :- ScanLit("_mud-", mc.rest);
    var mud :- ScanDec(false, Plus, Exactly(3), c);
    var size :- ScanSize(Exactly(2), mud.rest);
    Some(Cut(McFields(beta.taken, mc.taken, mud.taken, size.taken.0, size.taken.1), size.rest))
  }

  lemma MatchMcComplete(f: McFields, rest: string)
    requires McFits(f)
    ensures MatchMc(McText(f, rest)) == Some(Cut(f, rest))
  {
    var afterMud := SizeText(f.nl, f.nt, rest);
    var afterMc := "_mud-" + (DecText(f.mud) + afterMud);
    var afterBeta := "_mc" + (DecText(f.mc) + afterMc);
    ScanLitComplete("b", DecText(f.beta) + afterBeta);
    assert afterBeta[0] == '_';
    ScanDecComplete(false, Plus, Plus, f.beta, afterBeta);
    ScanLitComplete("_mc", DecText(f.mc) + afterMc);
    ScanDecComplete(false, Plus, Exactly(2), f.mc, afterMc);
    ScanLitComplete("_mud-", DecText(f.mud) + afterMud);
    ScanDecComplete(false, Plus, Exactly(3), f.mud, afterMud);
    ScanSizeComplete(Exactly(2), f.nl, f.nt, rest);
  }

  // ----------------------------------------------------- mutual exclusion

  /** An `_mc` tag never matches an `_ms` pattern: after beta comes `_mc`, not `_ms`. */
  lemma MsRejectsMc(sh: MsShape, f: McFields, rest: string)
    requires McFits(f)
    ensures MatchMs(sh, McText(f, rest)).None?
  {
    var afterBeta := "_mc" + (DecText(f.mc) + ("_mud-" + (DecText(f.mud) + SizeText(f.nl, f.nt, rest))));
    ScanLitComplete("b", DecText(f.beta) + afterBeta);
    assert afterBeta[0] == '_';
    ScanDecComplete(false, Plus, Plus, f.beta, afterBeta);
    assert ScanLit("_ms", afterBeta).None? by {
      assert afterBeta[2] == 'c';
    }
  }

  /** An `_ms` tag never matches the `_mc` pattern. */
  lemma McRejectsMs(sh: MsShape, f: MsFields, rest: string)
    requires MsFits(sh, f)
    ensures MatchMc(MsText(f, rest)).None?
  {
    var afterBeta := "_ms" + (DecText(f.ms) + ("_mud-" + (DecText(f.mud) + SizeText(f.nl, f.nt, PText(f.p, rest)))));
    ScanLitComplete("b", DecText(f.beta) + afterBeta);
    assert afterBeta[0] == '_';
    ScanDecComplete(false, Plus, Plus, f.beta, afterBeta);
    assert ScanLit("_mc", afterBeta).None? by {
      assert afterBeta[2] == 's';
    }
  }

  /** A tag whose mud has fewer decimals than a `{n}` pattern demands does not match it:
      where the pattern wants a digit the tag has the `_` of `_s`. */
  lemma MsRejectsShortMud(sh: MsShape, sh2: MsShape, f: MsFields, rest: string)
    requires MsFits(sh, f)
    requires sh2.msFrac == sh.msFrac && sh2.mudFrac.Exactly? && |f.mud.frac| < sh2.mudFrac.n
    ensures MatchMs(sh2, MsText(f, rest)).None?
  {
    var afterMud := SizeText(f.nl, f.nt, PText(f.p, rest));
    var afterMs := "_mud-" + (DecText(f.mud) + afterMud);
    var afterBeta := "_ms" + (DecText(f.ms) + afterMs);
    ScanLitComplete("b", DecText(f.beta) + afterBeta);
    assert afterBeta[0] == '_';
    ScanDecComplete(false, Plus, Plus, f.beta, afterBeta);
    ScanLitComplete("_ms", DecText(f.ms) + afterMs);
    assert afterMs[0] == '_';
    ScanDecComplete(true, Plus, sh.msFrac, f.ms, afterMs);
    ScanLitComplete("_mud-", DecText(f.mud) + afterMud);
    MudTooShort(sh2.mudFrac.n, f.mud, afterMud);
  }

  lemma MudTooShort(n: nat, d: Dec, afterMud: string)
    requires !d.neg && RunFits(Digit, Plus, d.whole) && AllIn(Digit, d.frac) && |d.frac| < n
    requires afterMud != [] && afterMud[0] == '_'
    ensures ScanDec(false, Plus, Exactly(n), DecText(d) + afterMud).None?
  {
    var s := DecText(d) + afterMud;
    assert d.whole[0] == s[0];
    assert InClass(Digit, d.whole[0]);
    DecTextSign(d, afterMud);
    var fracRest := d.frac + afterMud;
    assert fracRest[|d.frac|] == '_';
    Regroup(d.whole, ".", d.frac, afterMud);
    assert "." + fracRest != [] && ("." + fracRest)[0] == '.';
    ScanRunComplete(Digit, Plus, d.whole, "." + fracRest);
    ScanLitComplete(".", fracRest);
    assert !InClass(Digit, fracRest[|d.frac|]);
  }

  /** Two tags that match a pattern the same way are read the same way: the decoding of
      a tag is unambiguous. */
  lemma MsTextInjective(sh: MsShape, f1: MsFields, f2: MsFields, rest1: string, rest2: string)
    requires MsFits(sh, f1) && MsTailOk(sh, rest1)
    requires MsFits(sh, f2) && MsTailOk(sh, rest2)
    requires MsText(f1, rest1) == MsText(f2, rest2)
    ensures f1 == f2 && rest1 == rest2
  {
    MatchMsComplete(sh, f1, rest1);
    MatchMsComplete(sh, f2, rest2);
  }

  lemma McTextInjective(f1: McFields, f2: McFields, rest1: string, rest2: string)
    requires McFits(f1) && McFits(f2)
    requires McText(f1, rest1) == McText(f2, rest2)
    ensures f1 == f2 && rest1 == rest2
  {
    MatchMcComplete(f1, rest1);
    MatchMcComplete(f2, rest2);
  }

  // ------------------------------------------------ dictionaries of fields

  predicate Digits(s: string) { AllIn(Digit, s) }

  lemma DigitsAreDigits(s: string)
    requires Digits(s)
    ensures AllDigits(s)
  {
    forall i | 0 <= i < |s| ensures IsDigit(s[i]) {
      assert InClass(Digit, s[i]);
    }
  }

  /** `int(s)` for a run of digits. */
  function IntOf(s: string): (v: Value)
    requires Digits(s)
    ensures v.Int? && v.i >= 0
    ensures ParseInt(s) == Some(v.i) || s == []
  {
    DigitsAreDigits(s);
    Int(DigitsValue(s))
  }

  /** The keys of the dict `parse_ensemble` returns. */
  datatype Field = Beta | Ms | Mud | Mc | NL | NT | P | CfgPath | CfgName

  /** The key as the scripts spell it. */
  function FieldName(k: Field): string
  {
    match k
    case Beta => "beta"
    case Ms => "ms"
    case Mud => "mud"
    case Mc => "mc"
    case NL => "NL"
    case NT => "NT"
    case P => "P"
    case CfgPath => "cfg_path"
    case CfgName => "cfg_name"
  }

  /** The dict `parse_ensemble` returns. */
  type Info = map<Field, Value>

  /** `info[k]`, with the KeyError a missing key raises. */
  function Get(info: Info, k: Field): (r: Result<Value>)
    ensures r.Ok? <==> k in info
    ensures r.Ok? ==> r.value == info[k]
    ensures r.Err? ==> r.error == KeyError(FieldName(k))
  {
    if k in info then Ok(info[k]) else Err(KeyError(FieldName(k)))
  }

  /** The dict `{k: type_map[k](v) for k, v in groups.items()}` of a `_ms` match:
      NL and NT become ints, every other group stays a string. */
  function MsInfo(f: MsFields): (info: Info)
    requires Digits(f.nl) && Digits(f.nt)
    ensures info.Keys == {Beta, Ms, Mud, NL, NT} + (if f.p.Some? then {P} else {})
    ensures info[Beta].Str? && info[Ms].Str? && info[Mud].Str? && info[NL].Int? && info[NT].Int?
    ensures Mc !in info && Ms in info && (P in info <==> f.p.Some?) && (P in info ==> info[P].Str?)
    ensures CfgPath !in info && CfgName !in info
  {
    var base := map[Beta := Str(DecText(f.beta)), Ms := Str(DecText(f.ms)), Mud := Str(DecText(f.mud)),
                    NL := IntOf(f.nl), NT := IntOf(f.nt)];
    if f.p.Some? then base[P := Str(f.p.value)] else base
  }

  function McInfo(f: McFields): (info: Info)
    requires Digits(f.nl) && Digits(f.nt)
    ensures info.Keys == {Beta, Mc, Mud, NL, NT}
    ensures info[Beta].Str? && info[Mc].Str? && info[Mud].Str? && info[NL].Int? && info[NT].Int?
    ensures Ms !in info && P !in info
    ensures CfgPath !in info && CfgName !in info
  {
    map[Beta := Str(DecText(f.beta)), Mc := Str(DecText(f.mc)), Mud := Str(DecText(f.mud)),
        NL := IntOf(f.nl), NT := IntOf(f.nt)]
  }

  /** The fields of a long tag of either style. */
  datatype TagFields = MsTag(ms: MsFields) | McTag(mc: McFields)

  predicate TagDigits(tf: TagFields)
  {
    match tf
    case MsTag(f) => Digits(f.nl) && Digits(f.nt)
    case McTag(f) => Digits(f.nl) && Digits(f.nt)
  }

  function TagInfo(tf: TagFields): Info
    requires TagDigits(tf)
  {
    match tf
    case MsTag(f) => MsInfo(f)
    case McTag(f) => McInfo(f)
  }

  // ------------------------------------------------- first match wins

  datatype Pattern = MsStyle(shape: MsShape) | McStyle

  /** `re.match(pattern, key)` followed by the type conversion of the groups. */
  function Match(p: Pattern, s: string): (r: Option<Info>)
    ensures r.Some? ==> (Mc in r.value <==> p.McStyle?)
    ensures r.Some? ==> CfgPath !in r.value && CfgName !in r.value
    ensures p.MsStyle? ==> (r.Some? <==> MatchMs(p.shape, s).Some?)
    ensures p.McStyle? ==> (r.Some? <==> MatchMc(s).Some?)
  {
    match p
    case MsStyle(sh) => (match MatchMs(sh, s) case None => None case Some(c) => Some(MsInfo(c.taken)))
    case McStyle => (match MatchMc(s) case None => None case Some(c) => Some(McInfo(c.taken)))
  }

  /** The result of trying each pattern in turn. */
  function Matches(ps: seq<Pattern>, s: string): (rs: seq<Option<Info>>)
    ensures |rs| == |ps|
    ensures forall j | 0 <= j < |ps| :: rs[j] == Match(ps[j], s)
  {
    if ps == [] then [] else [Match(ps[0], s)] + Matches(ps[1..], s)
  }

  /** The dict of the first attempt that matched, or `{}` when none did. */
  function FirstSome(rs: seq<Option<Info>>): (info: Info)
    ensures rs != [] && rs[0].Some? ==> info == rs[0].value
  {
    if rs == [] then map[]
    else match rs[0]
      case Some(info) => info
      case None => FirstSome(rs[1..])
  }

  /** The `for pattern in patterns: ... break` loop: the dict of the first pattern that
      matches, or `{}` when none does. Matching has no side effects, so trying every
      pattern and taking the first success is the same as stopping at it. */
  function FirstMatch(ps: seq<Pattern>, s: string): (info: Info)
    ensures ps != [] && Match(ps[0], s).Some? ==> info == Match(ps[0], s).value
  {
    FirstSome(Matches(ps, s))
  }

  lemma {:induction false} FirstSomeNone(rs: seq<Option<Info>>)
    requires forall j | 0 <= j < |rs| :: rs[j].None?
    ensures FirstSome(rs) == map[]
  {
    if rs != [] {
      assert forall j | 0 <= j < |rs| - 1 :: rs[1..][j] == rs[j + 1];
      FirstSomeNone(rs[1..]);
    }
  }

  lemma {:induction false} FirstSomeFirst(rs: seq<Option<Info>>, i: nat)
    requires i < |rs| && rs[i].Some?
    requires forall j | 0 <= j < i :: rs[j].None?
    ensures FirstSome(rs) == rs[i].value
  {
    if i > 0 {
      assert forall j | 0 <= j < |rs| - 1 :: rs[1..][j] == rs[j + 1];
      FirstSomeFirst(rs[1..], i - 1);
    }
  }

  /** When no pattern matches, the result is the empty dict. */
  lemma FirstMatchNone(ps: seq<Pattern>, s: string)
    requires forall j | 0 <= j < |ps| :: Match(ps[j], s).None?
    ensures FirstMatch(ps, s) == map[]
  {
    FirstSomeNone(Matches(ps, s));
  }

  /** The first pattern that matches decides the result. */
  lemma FirstMatchFirst(ps: seq<Pattern>, s: string, i: nat)
    requires i < |ps| && Match(ps[i], s).Some?
    requires forall j | 0 <= j < i :: Match(ps[j], s).None?
    ensures FirstMatch(ps, s) == Match(ps[i], s).value
  {
    FirstSomeFirst(Matches(ps, s), i);
  }

  /** With two patterns, a text the first rejects is read by the second. */
  lemma FirstMatchSecond(p: Pattern, q: Pattern, s: string)
    requires Match(p, s).None? && Match(q, s).Some?
    ensures FirstMatch([p, q], s) == Match(q, s).value
  {
    var rs := Matches([p, q], s);
    assert rs == [Match(p, s), Match(q, s)];
    FirstSomeSecond(rs[0], rs[1]);
  }

  lemma FirstSomeSecond(a: Option<Info>, b: Option<Info>)
    requires a.None? && b.Some?
    ensures FirstSome([a, b]) == b.value
  {
    assert [a, b][1..] == [b];
  }
}
