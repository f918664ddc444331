/** The decoder of create-jureca.py: its own eight-entry ensemble table, one regex that reads
    every field of a long tag, and a stream label P taken from a trailing `-` and three
    digits.

    The regex is `b([0-9]+\.[0-9]+)_ms([0-9\.\-]+)_mud-([0-9\.]+)_s(\d+)t(\d+)-\d+` under
    `re.match`. Each of its runs ends at a literal whose first character the run cannot
    contain, so greedy matching never backtracks and a scanner reads it in one pass. */
module JurecaTags {
  import opened Py
  import opened Scan
  import opened TagPatterns

  /** The entries of the short-tag to long-tag dict display, in the order written. */
  const Table: seq<(string, string)> := [
    ("a065m420", "b3.70_ms-0.000_mud-0.020_s32t96-000"),
    ("a065m300", "b3.70_ms0.000_mud-0.025_s40t96-000"),
    ("a085m420", "b3.57_ms-0.007_mud-0.038_s24t64-000"),
    ("a085m300", "b3.57_ms-0.007_mud-0.044_s32t64-000"),
    ("a085m200", "b3.57_ms-0.007_mud-0.048_s48t64-000"),
    ("a125m400", "b3.30_ms-0.057_mud-0.1200_s16t64-000"),
    ("a125m330", "b3.30_ms-0.057_mud-0.1233_s24t64-000"),
    ("a125m280", "b3.30_ms-0.057_mud-0.1265_s24t64-000")
  ]

  const LongTag: map<string, string> := DictOf(Table)

  // ------------------------------------------------------------- the regex

  /** The groups of the regex, and the digits of the final `-\d+` that no group keeps. */
  datatype JurecaFields = JurecaFields(beta: Dec, ms: string, mud: string, nl: string, nt: string, tail: string)

  /** `_s(\d+)t(\d+)-\d+` followed by `rest`. */
  function TailText(nl: string, nt: string, tail: string, rest: string): string
  {
    SizeText(nl, nt, "-" + (tail + rest))
  }

  /** The long tag that `f` describes, followed by `rest`. */
  function JurecaText(f: JurecaFields, rest: string): string
  {
    "b" + (DecText(f.beta) + MassText(f.ms, f.mud, TailText(f.nl, f.nt, f.tail, rest)))
  }

  /** `f` is what the regex captures. */
  predicate JurecaFits(f: JurecaFields)
  {
    DecFits(false, Plus, Plus, f.beta) && RunFits(DigitDotDash, Plus, f.ms) && RunFits(DigitDot, Plus, f.mud) &&
    RunFits(Digit, Plus, f.nl) && RunFits(Digit, Plus, f.nt) && RunFits(Digit, Plus, f.tail)
  }

  /** The part of the regex after the mud group: NL, NT and the final digit run. */
  function MatchTail(s: string): (r: Option<Cut<(string, string, string)>>)
    ensures r.Some? ==> s == TailText(r.value.taken.0, r.value.taken.1, r.value.taken.2, r.value.rest)
    ensures r.Some? ==> RunFits(Digit, Plus, r.value.taken.0) && RunFits(Digit, Plus, r.value.taken.1)
    ensures r.Some? ==> RunFits(Digit, Plus, r.value.taken.2) && Stops(Digit, Plus, r.value.rest)
  {
    var size :- ScanSize(Plus, s);
    var d :- ScanLit("-", size.rest);
    var tail :- ScanRun(Digit, Plus, d);
    Some(Cut((size.taken.0, size.taken.1, tail.taken), tail.rest))
  }

  lemma MatchTailComplete(nl: string, nt: string, tail: string, rest: string)
    requires RunFits(Digit, Plus, nl) && RunFits(Digit, Plus, nt) && RunFits(Digit, Plus, tail)
    requires Stops(Digit, Plus, rest)
    ensures MatchTail(TailText(nl, nt, tail, rest)) == Some(Cut((nl, nt, tail), rest))
  {
    var afterSize := "-" + (tail + rest);
    assert afterSize[0] == '-';
    ScanSizeComplete(Plus, nl, nt, afterSize);
    ScanLitComplete("-", tail + rest);
    ScanRunComplete(Digit, Plus, tail, rest);
  }

  /** `_ms([0-9\.\-]+)_mud-([0-9\.]+)` followed by `rest`. */
  function MassText(ms: string, mud: string, rest: string): string
  {
    "_ms" + (ms + ("_mud-" + (mud + rest)))
  }

  /** The mass groups, then the rest of the regex. */
  function MatchMasses(s: string): (r: Option<Cut<(string, string, (string, string, string))>>)
    ensures r.Some? ==> s == MassText(r.value.taken.0, r.value.taken.1,
      TailText(r.value.taken.2.0, r.value.taken.2.1, r.value.taken.2.2, r.value.rest))
    ensures r.Some? ==> RunFits(DigitDotDash, Plus, r.value.taken.0) && RunFits(DigitDot, Plus, r.value.taken.1)
    ensures r.Some? ==> RunFits(Digit, Plus, r.value.taken.2.0) && RunFits(Digit, Plus, r.value.taken.2.1)
    ensures r.Some? ==> RunFits(Digit, Plus, r.value.taken.2.2) && Stops(Digit, Plus, r.value.rest)
  {
    var b :- ScanLit("_ms", s);
    var ms :- ScanRun(DigitDotDash, Plus, b);
    var c :- ScanLit("_mud-", ms.rest);
    var mud :- ScanRun(DigitDot, Plus, c);
    var t :- MatchTail(mud.rest);
    Some(Cut((ms.taken, mud.taken, t.taken), t.rest))
  }

  lemma MatchMassesComplete(ms: string, mud: string, t: (string, string, string), rest: string)
    requires RunFits(DigitDotDash, Plus, ms) && RunFits(DigitDot, Plus, mud)
    requires RunFits(Digit, Plus, t.0) && RunFits(Digit, Plus, t.1) && RunFits(Digit, Plus, t.2)
    requires Stops(Digit, Plus, rest)
    ensures MatchMasses(MassText(ms, mud, TailText(t.0, t.1, t.2, rest))) == Some(Cut((ms, mud, t), rest))
  {
    var afterMud := TailText(t.0, t.1, t.2, rest);
    var afterMs := "_mud-" + (mud + afterMud);
    ScanLitComplete("_ms", ms + afterMs);
    assert afterMs[0] == '_';
    ScanRunComplete(DigitDotDash, Plus, ms, afterMs);
    ScanLitComplete("_mud-", mud + afterMud);
    assert afterMud[0] == '_';
    ScanRunComplete(DigitDot, Plus, mud, afterMud);
    MatchTailComplete(t.0, t.1, t.2, rest);
  }

  /** `re.match` of the regex: the fields and the unread rest of the tag. */
  function MatchJureca(s: string): (r: Option<Cut<JurecaFields>>)
    ensures r.Some? ==> s == JurecaText(r.value.taken, r.value.rest)
    ensures r.Some? ==> JurecaFits(r.value.taken) && Stops(Digit, Plus, r.value.rest)
  {
    var a :- ScanLit("b", s);
    var beta :- ScanDec(false, Plus, Plus, a);
    var m :- MatchMasses(beta.rest);
    var t := m.taken.2;
    Some(Cut(JurecaFields(beta.taken, m.taken.0, m.taken.1, t.0, t.1, t.2), m.rest))
  }

  /** The scanner reads back every tag the regex describes, wherever the final digit run
      ends. */
  lemma MatchJurecaComplete(f: JurecaFields, rest: string)
    requires JurecaFits(f) && Stops(Digit, Plus, rest)
    ensures MatchJureca(JurecaText(f, rest)) == Some(Cut(f, rest))
  {
    var afterBeta := MassText(f.ms, f.mud, TailText(f.nl, f.nt, f.tail, rest));
    assert JurecaText(f, rest) == "b" + (DecText(f.beta) + afterBeta);
    ScanLitComplete("b", DecText(f.beta) + afterBeta);
    assert afterBeta[0] == '_';
    ScanDecComplete(false, Plus, Plus, f.beta, afterBeta);
    MatchMassesComplete(f.ms, f.mud, (f.nl, f.nt, f.tail), rest);
  }

  // ------------------------------------------------------- the stream label

  /** `s` ends in `-` and three digits. */
  predicate DashDigits(s: string)
  {
    |s| >= 4 && s[|s| - 4] == '-' && Digits(s[|s| - 3..])
  }

  predicate EndsWith(s: string, t: string)
  {
    |t| <= |s| && s[|s| - |t|..] == t
  }

  /** `re.search(r"-(\d{3})$", key)`, group 1, or "000" when there is no match. `$` matches at
      the end of the tag and also just before a final newline. */
  function TrailingP(key: string): (p: string)
    ensures |p| == 3 && Digits(p)
    ensures p == "000" || EndsWith(key, "-" + p) || EndsWith(key, "-" + p + "\n")
  {
    if DashDigits(key) then
      DashDigitsEnd(key, "");
      key[|key| - 3..]
    else if |key| >= 5 && key[|key| - 1] == '\n' && DashDigits(key[..|key| - 1]) then
      var k := key[..|key| - 1];
      DashDigitsEnd(k, "\n");
      assert k + "\n" == key;
      k[|k| - 3..]
    else "000"
  }

  /** The last three characters of a `-ddd` tag, with `end` after them, close the tag. */
  lemma DashDigitsEnd(k: string, end: string)
    requires DashDigits(k)
    ensures EndsWith(k + end, "-" + k[|k| - 3..] + end)
  {
    var t := "-" + k[|k| - 3..] + end;
    var s := k + end;
    assert s[|s| - |t|..] == k[|k| - 4..] + end;
    assert k[|k| - 4..] == "-" + k[|k| - 3..];
  }

  /** The label of a tag ending in `-ddd` is those three digits. */
  lemma TrailingPOf(prefix: string, p: string)
    requires |p| == 3 && Digits(p)
    ensures TrailingP(prefix + "-" + p) == p
  {
    var key := prefix + "-" + p;
    assert key[|key| - 4] == '-' && key[|key| - 3..] == p;
  }

  /** A tag that ends in neither a digit nor a newline has the default label. */
  lemma TrailingPDefault(key: string)
    requires key == [] || (!IsDigit(key[|key| - 1]) && key[|key| - 1] != '\n')
    ensures TrailingP(key) == "000"
  {
    if |key| >= 4 {
      assert key[|key| - 3..][2] == key[|key| - 1];
      assert !InClass(Digit, key[|key| - 3..][2]);
    }
  }

  /** The regex text up to the final `-`. */
  function JurecaHead(f: JurecaFields): string
  {
    "b" + (DecText(f.beta) + ("_ms" + (f.ms + ("_mud-" + (f.mud + ("_s" + (f.nl + ("t" + f.nt))))))))
  }

  lemma Assoc(a: string, b: string, c: string)
    ensures a + (b + c) == (a + b) + c
  {
  }

  /** The text of `f` is its head, a '-' and its final run. */
  lemma JurecaTextSplit(f: JurecaFields, rest: string)
    ensures JurecaText(f, rest) == JurecaHead(f) + ("-" + (f.tail + rest))
  {
    var x := "-" + (f.tail + rest);
    var h0 := "t" + f.nt;
    Assoc("t", f.nt, x);
    var h1 := f.nl + h0;
    Assoc(f.nl, h0, x);
    var h2 := "_s" + h1;
    Assoc("_s", h1, x);
    var h3 := f.mud + h2;
    Assoc(f.mud, h2, x);
    var h4 := "_mud-" + h3;
    Assoc("_mud-", h3, x);
    var h5 := f.ms + h4;
    Assoc(f.ms, h4, x);
    var h6 := "_ms" + h5;
    Assoc("_ms", h5, x);
    var h7 := DecText(f.beta) + h6;
    Assoc(DecText(f.beta), h6, x);
    Assoc("b", h7, x);
  }

  /** A tag the regex reads to its end with a three-digit final run has that run as label. */
  lemma TrailingPText(f: JurecaFields)
    requires |f.tail| == 3 && Digits(f.tail)
    ensures TrailingP(JurecaText(f, "")) == f.tail
  {
    JurecaTextSplit(f, "");
    assert f.tail + "" == f.tail;
    Assoc(JurecaHead(f), "-", f.tail);
    TrailingPOf(JurecaHead(f), f.tail);
  }

  // ------------------------------------------------------------- the decoder

  /** The dict the match gives: `groupdict()` updated with NL and NT as ints and with P. */
  function JurecaInfo(f: JurecaFields, p: string): (info: Info)
    requires JurecaFits(f)
    ensures info.Keys == {Beta, Ms, Mud, NL, NT, P}
    ensures info[NL].Int? && info[NT].Int? && info[Beta].Str? && info[Ms].Str? && info[Mud].Str?
    ensures info[P] == Str(p)
  {
    map[Beta := Str(DecText(f.beta)), Ms := Str(f.ms), Mud := Str(f.mud), NL := IntOf(f.nl), NT := IntOf(f.nt),
        P := Str(p)]
  }

  /** `parse_ensemble(short_tag)`. */
  function ParseEnsemble(shortTag: string): (r: Result<Info>)
    ensures shortTag !in LongTag ==> r == Err(ValueError("Unknown ensemble: " + shortTag))
    ensures shortTag in LongTag && MatchJureca(LongTag[shortTag]).None? ==>
      r == Err(ValueError("Failed to parse: " + LongTag[shortTag]))
    ensures r.Ok? <==> shortTag in LongTag && MatchJureca(LongTag[shortTag]).Some?
    ensures r.Ok? ==> r.value.Keys == {Beta, Ms, Mud, NL, NT, P} && r.value[P] == Str(TrailingP(LongTag[shortTag]))
    ensures r.Ok? ==> r.value[NL].Int? && r.value[NT].Int? && r.value[Beta].Str? && r.value[Ms].Str? && r.value[Mud].Str?
  {
    if shortTag !in LongTag then Err(ValueError("Unknown ensemble: " + shortTag))
    else
      var key := LongTag[shortTag];
      var p := TrailingP(key);
      match MatchJureca(key)
      case None => Err(ValueError("Failed to parse: " + key))
      case Some(m) => Ok(JurecaInfo(m.taken, p))
  }

  /** Every short tag of the table decodes, with stream label "000". */
  lemma TableDecodes(tag: string)
    requires tag in LongTag
    ensures ParseEnsemble(tag).Ok? && ParseEnsemble(tag).value[P] == Str("000")
  {
    DictOfValue(Table, tag);
    var i :| 0 <= i < |Table| && Table[i] == (tag, LongTag[tag]);
    if i == 0 { DecodesA065m420(); }
    else if i == 1 { DecodesA065m300(); }
    else if i == 2 { DecodesA085m420(); }
    else if i == 3 { DecodesA085m300(); }
    else if i == 4 { DecodesA085m200(); }
    else if i == 5 { DecodesA125m400(); }
    else if i == 6 { DecodesA125m330(); }
    else { DecodesA125m280(); }
  }

  /** The entry at `i` reads back as `f`, whose final run is "000". */
  lemma EntryDecodes(i: nat, f: JurecaFields)
    requires i < |Table| && Table[i].1 == JurecaText(f, "") && JurecaFits(f) && f.tail == "000"
    requires forall j | i < j < |Table| :: Table[j].0 != Table[i].0
    ensures ParseEnsemble(Table[i].0) == Ok(JurecaInfo(f, "000"))
  {
    DictOfLast(Table, i);
    MatchJurecaComplete(f, "");
    assert InClass(Digit, f.tail[0]) && InClass(Digit, f.tail[1]) && InClass(Digit, f.tail[2]);
    TrailingPText(f);
  }

  lemma DecodesA065m420()
    ensures Table[0] == ("a065m420", "b3.70_ms-0.000_mud-0.020_s32t96-000")
    ensures ParseEnsemble("a065m420") == Ok(JurecaInfo(JurecaFields(Dec(false, "3", "70"), "-0.000", "0.020", "32", "96", "000"), "000"))
  {
    TextA065m420();
    EntryDecodes(0, JurecaFields(Dec(false, "3", "70"), "-0.000", "0.020", "32", "96", "000"));
  }

  lemma TextA065m420()
    ensures JurecaText(JurecaFields(Dec(false, "3", "70"), "-0.000", "0.020", "32", "96", "000"), "") == "b3.70_ms-0.000_mud-0.020_s32t96-000"
  {
    assert JurecaText(JurecaFields(Dec(false, "3", "70"), "-0.000", "0.020", "32", "96", "000"), "") == ("b" + ("3.70" + ("_ms" + ("-0.000" + ("_mud-" + ("0.020" + ("_s" + ("32" + ("t" + ("96" + ("-" + ("000" + "")))))))))))) by {
      assert DecText(Dec(false, "3", "70")) == "3.70";
    }
    SpellA065m420();
  }

  lemma SpellA065m420()
    ensures ("b" + ("3.70" + ("_ms" + ("-0.000" + ("_mud-" + ("0.020" + ("_s" + ("32" + ("t" + ("96" + ("-" + ("000" + "")))))))))))) == "b3.70_ms-0.000_mud-0.020_s32t96-000"
  {
  }

  lemma DecodesA065m300()
    ensures Table[1] == ("a065m300", "b3.70_ms0.000_mud-0.025_s40t96-000")
    ensures ParseEnsemble("a065m300") == Ok(JurecaInfo(JurecaFields(Dec(false, "3", "70"), "0.000", "0.025", "40", "96", "000"), "000"))
  {
    TextA065m300();
    EntryDecodes(1, JurecaFields(Dec(false, "3", "70"), "0.000", "0.025", "40", "96", "000"));
  }

  lemma TextA065m300()
    ensures JurecaText(JurecaFields(Dec(false, "3", "70"), "0.000", "0.025", "40", "96", "000"), "") == "b3.70_ms0.000_mud-0.025_s40t96-000"
  {
    assert JurecaText(JurecaFields(Dec(false, "3", "70"), "0.000", "0.025", "40", "96", "000"), "") == ("b" + ("3.70" + ("_ms" + ("0.000" + ("_mud-" + ("0.025" + ("_s" + ("40" + ("t" + ("96" + ("-" + ("000" + "")))))))))))) by {
      assert DecText(Dec(false, "3", "70")) == "3.70";
    }
    SpellA065m300();
  }

  lemma SpellA065m300()
    ensures ("b" + ("3.70" + ("_ms" + ("0.000" + ("_mud-" + ("0.025" + ("_s" + ("40" + ("t" + ("96" + ("-" + ("000" + "")))))))))))) == "b3.70_ms0.000_mud-0.025_s40t96-000"
  {
  }

  lemma DecodesA085m420()
    ensures Table[2] == ("a085m420", "b3.57_ms-0.007_mud-0.038_s24t64-000")
    ensures ParseEnsemble("a085m420") == Ok(JurecaInfo(JurecaFields(Dec(false, "3", "57"), "-0.007", "0.038", "24", "64", "000"), "000"))
  {
    TextA085m420();
    EntryDecodes(2, JurecaFields(Dec(false, "3", "57"), "-0.007", "0.038", "24", "64", "000"));
  }

  lemma TextA085m420()
    ensures JurecaText(JurecaFields(Dec(false, "3", "57"), "-0.007", "0.038", "24", "64", "000"), "") == "b3.57_ms-0.007_mud-0.038_s24t64-000"
  {
    assert JurecaText(JurecaFields(Dec(false, "3", "57"), "-0.007", "0.038", "24", "64", "000"), "") == ("b" + ("3.57" + ("_ms" + ("-0.007" + ("_mud-" + ("0.038" + ("_s" + ("24" + ("t" + ("64" + ("-" + ("000" + "")))))))))))) by {
      assert DecText(Dec(false, "3", "57")) == "3.57";
    }
    SpellA085m420();
  }

  lemma SpellA085m420()
    ensures ("b" + ("3.57" + ("_ms" + ("-0.007" + ("_mud-" + ("0.038" + ("_s" + ("24" + ("t" + ("64" + ("-" + ("000" + "")))))))))))) == "b3.57_ms-0.007_mud-0.038_s24t64-000"
  {
  }

  lemma DecodesA085m300()
    ensures Table[3] == ("a085m300", "b3.57_ms-0.007_mud-0.044_s32t64-000")
    ensures ParseEnsemble("a085m300") == Ok(JurecaInfo(JurecaFields(Dec(false, "3", "57"), "-0.007", "0.044", "32", "64", "000"), "000"))
  {
    TextA085m300();
    EntryDecodes(3, JurecaFields(Dec(false, "3", "57"), "-0.007", "0.044", "32", "64", "000"));
  }

  lemma TextA085m300()
    ensures JurecaText(JurecaFields(Dec(false, "3", "57"), "-0.007", "0.044", "32", "64", "000"), "") == "b3.57_ms-0.007_mud-0.044_s32t64-000"
  {
    assert JurecaText(JurecaFields(Dec(false, "3", "57"), "-0.007", "0.044", "32", "64", "000"), "") == ("b" + ("3.57" + ("_ms" + ("-0.007" + ("_mud-" + ("0.044" + ("_s" + ("32" + ("t" + ("64" + ("-" + ("000" + "")))))))))))) by {
      assert DecText(Dec(false, "3", "57")) == "3.57";
    }
    SpellA085m300();
  }

  lemma SpellA085m300()
    ensures ("b" + ("3.57" + ("_ms" + ("-0.007" + ("_mud-" + ("0.044" + ("_s" + ("32" + ("t" + ("64" + ("-" + ("000" + "")))))))))))) == "b3.57_ms-0.007_mud-0.044_s32t64-000"
  {
  }

  lemma DecodesA085m200()
    ensures Table[4] == ("a085m200", "b3.57_ms-0.007_mud-0.048_s48t64-000")
    ensures ParseEnsemble("a085m200") == Ok(JurecaInfo(JurecaFields(Dec(false, "3", "57"), "-0.007", "0.048", "48", "64", "000"), "000"))
  {
    TextA085m200();
    EntryDecodes(4, JurecaFields(Dec(false, "3", "57"), "-0.007", "0.048", "48", "64", "000"));
  }

  lemma TextA085m200()
    ensures JurecaText(JurecaFields(Dec(false, "3", "57"), "-0.007", "0.048", "48", "64", "000"), "") == "b3.57_ms-0.007_mud-0.048_s48t64-000"
  {
    assert JurecaText(JurecaFields(Dec(false, "3", "57"), "-0.007", "0.048", "48", "64", "000"), "") == ("b" + ("3.57" + ("_ms" + ("-0.007" + ("_mud-" + ("0.048" + ("_s" + ("48" + ("t" + ("64" + ("-" + ("000" + "")))))))))))) by {
      assert DecText(Dec(false, "3", "57")) == "3.57";
    }
    SpellA085m200();
  }

  lemma SpellA085m200()
    ensures ("b" + ("3.57" + ("_ms" + ("-0.007" + ("_mud-" + ("0.048" + ("_s" + ("48" + ("t" + ("64" + ("-" + ("000" + "")))))))))))) == "b3.57_ms-0.007_mud-0.048_s48t64-000"
  {
  }

  lemma DecodesA125m400()
    ensures Table[5] == ("a125m400", "b3.30_ms-0.057_mud-0.1200_s16t64-000")
    ensures ParseEnsemble("a125m400") == Ok(JurecaInfo(JurecaFields(Dec(false, "3", "30"), "-0.057", "0.1200", "16", "64", "000"), "000"))
  {
    TextA125m400();
    EntryDecodes(5, JurecaFields(Dec(false, "3", "30"), "-0.057", "0.1200", "16", "64", "000"));
  }

  lemma TextA125m400()
    ensures JurecaText(JurecaFields(Dec(false, "3", "30"), "-0.057", "0.1200", "16", "64", "000"), "") == "b3.30_ms-0.057_mud-0.1200_s16t64-000"
  {
    assert JurecaText(JurecaFields(Dec(false, "3", "30"), "-0.057", "0.1200", "16", "64", "000"), "") == ("b" + ("3.30" + ("_ms" + ("-0.057" + ("_mud-" + ("0.1200" + ("_s" + ("16" + ("t" + ("64" + ("-" + ("000" + "")))))))))))) by {
      assert DecText(Dec(false, "3", "30")) == "3.30";
    }
    SpellA125m400();
  }

  lemma SpellA125m400()
    ensures ("b" + ("3.30" + ("_ms" + ("-0.057" + ("_mud-" + ("0.1200" + ("_s" + ("16" + ("t" + ("64" + ("-" + ("000" + "")))))))))))) == "b3.30_ms-0.057_mud-0.1200_s16t64-000"
  {
  }

  lemma DecodesA125m330()
    ensures Table[6] == ("a125m330", "b3.30_ms-0.057_mud-0.1233_s24t64-000")
    ensures ParseEnsemble("a125m330") == Ok(JurecaInfo(JurecaFields(Dec(false, "3", "30"), "-0.057", "0.1233", "24", "64", "000"), "000"))
  {
    TextA125m330();
    EntryDecodes(6, JurecaFields(Dec(false, "3", "30"), "-0.057", "0.1233", "24", "64", "000"));
  }

  lemma TextA125m330()
    ensures JurecaText(JurecaFields(Dec(false, "3", "30"), "-0.057", "0.1233", "24", "64", "000"), "") == "b3.30_ms-0.057_mud-0.1233_s24t64-000"
  {
    assert JurecaText(JurecaFields(Dec(false, "3", "30"), "-0.057", "0.1233", "24", "64", "000"), "") == ("b" + ("3.30" + ("_ms" + ("-0.057" + ("_mud-" + ("0.1233" + ("_s" + ("24" + ("t" + ("64" + ("-" + ("000" + "")))))))))))) by {
      assert DecText(Dec(false, "3", "30")) == "3.30";
    }
    SpellA125m330();
  }

  lemma SpellA125m330()
    ensures ("b" + ("3.30" + ("_ms" + ("-0.057" + ("_mud-" + ("0.1233" + ("_s" + ("24" + ("t" + ("64" + ("-" + ("000" + "")))))))))))) == "b3.30_ms-0.057_mud-0.1233_s24t64-000"
  {
  }

  lemma DecodesA125m280()
    ensures Table[7] == ("a125m280", "b3.30_ms-0.057_mud-0.1265_s24t64-000")
    ensures ParseEnsemble("a125m280") == Ok(JurecaInfo(JurecaFields(Dec(false, "3", "30"), "-0.057", "0.1265", "24", "64", "000"), "000"))
  {
    TextA125m280();
    EntryDecodes(7, JurecaFields(Dec(false, "3", "30"), "-0.057", "0.1265", "24", "64", "000"));
  }

  lemma TextA125m280()
    ensures JurecaText(JurecaFields(Dec(false, "3", "30"), "-0.057", "0.1265", "24", "64", "000"), "") == "b3.30_ms-0.057_mud-0.1265_s24t64-000"
  {
    assert JurecaText(JurecaFields(Dec(false, "3", "30"), "-0.057", "0.1265", "24", "64", "000"), "") == ("b" + ("3.30" + ("_ms" + ("-0.057" + ("_mud-" + ("0.1265" + ("_s" + ("24" + ("t" + ("64" + ("-" + ("000" + "")))))))))))) by {
      assert DecText(Dec(false, "3", "30")) == "3.30";
    }
    SpellA125m280();
  }

  lemma SpellA125m280()
    ensures ("b" + ("3.30" + ("_ms" + ("-0.057" + ("_mud-" + ("0.1265" + ("_s" + ("24" + ("t" + ("64" + ("-" + ("000" + "")))))))))))) == "b3.30_ms-0.057_mud-0.1265_s24t64-000"
  {
  }
}
