/** The decoder of yml_to_xml/chroma_sh_xml.py: its own ensemble table, in which `a125m280`
    is written twice, and three patterns tried in order: a standard `_ms` pattern with a
    four-decimal mud and a stream label, the `_mc` pattern, and a minimal `_ms` pattern
    with a three-decimal mud and no stream label. */
module ChromaShTags {
  import opened Py
  import opened Scan
  import opened TagPatterns

  /** The entries of the short-tag to long-tag dict display, in the order written. */
  const Table: seq<(string, string)> := [
    ("a125m280", "b3.30_ms-0.057_mud-0.129_s32t64-000-0001-0400"),
    ("eric_test", "b3.70_ms0.000_mud-0.022_s32t96-000"),
    ("eric_s32t64", "b3.6_mc0.25_mud-0.013_s32t64"),
    ("eric_s40t64", "b3.6_mc0.25_mud-0.013_s40t64"),
    ("eric_s48t64", "b3.6_mc0.25_mud-0.013_s48t64"),
    ("a065m420", "b3.70_ms0.000_mud-0.0200_s32t96-000"),
    ("a065m380", "b3.70_ms0.000_mud-0.0220_s32t96-000"),
    ("a065m300", "b3.70_ms0.000_mud-0.0250_s40t96-000"),
    ("a085m420", "b3.57_ms-0.007_mud-0.0380_s24t64-000"),
    ("a085m300", "b3.57_ms-0.007_mud-0.0440_s32t64-000"),
    ("a085m200", "b3.57_ms-0.007_mud-0.0483_s48t64-000"),
    ("a125m400", "b3.30_ms-0.057_mud-0.1200_s16t64-000"),
    ("a125m330", "b3.30_ms-0.057_mud-0.1233_s24t64-000"),
    ("a125m280", "b3.30_ms-0.057_mud-0.1265_s24t64-000")
  ]

  /** Short tag to long tag: the second `a125m280` entry replaces the first. */
  const LongTag: map<string, string> := DictOf(Table)

  /** `b([0-9]+\.[0-9]+)_ms(-?[0-9]+\.[0-9]{3})_mud-([0-9]+\.[0-9]{4})_s([0-9]{2})t([0-9]{2})-([0-9]{3})` */
  const Standard := MsShape(Exactly(3), Exactly(4), Exactly(2), true)

  /** `b([0-9]+\.[0-9]+)_ms(-?[0-9]+\.[0-9]{3})_mud-([0-9]+\.[0-9]{3})_s([0-9]{2})t([0-9]{2})` */
  const Minimal := MsShape(Exactly(3), Exactly(3), Exactly(2), false)

  const Patterns: seq<Pattern> := [MsStyle(Standard), McStyle, MsStyle(Minimal)]

  /** `parse_ensemble(short_tag)`: `long_tag[short_tag]` raises KeyError for a tag the
      table lacks, and a long tag no pattern matches gives the empty dict. */
  function ParseEnsemble(shortTag: string): (r: Result<Info>)
    ensures r.Err? <==> shortTag !in LongTag
    ensures r.Err? ==> r.error == KeyError(shortTag)
  {
    if shortTag !in LongTag then Err(KeyError(shortTag))
    else Ok(FirstMatch(Patterns, LongTag[shortTag]))
  }

  /** The tags of Eric's `_mc` ensembles. */
  predicate McStyleTag(tag: string)
  {
    StartsWith(tag, "eric_s")
  }

  /** The tags whose long tag carries a stream label. */
  predicate StreamTag(tag: string)
  {
    |tag| > 0 && tag[0] == 'a'
  }

  /** What the table promises about a decoded dict: NL and NT are ints and every other field
      a string; mc is there exactly for the `eric_s` tags, ms for all others, and P only for
      the `a` tags. */
  predicate InfoWell(tag: string, info: Info)
  {
    NL in info && info[NL].Int? && NT in info && info[NT].Int? &&
    Beta in info && info[Beta].Str? && Mud in info && info[Mud].Str? &&
    (Mc in info <==> McStyleTag(tag)) && (Mc in info ==> info[Mc].Str?) &&
    (Ms in info <==> !McStyleTag(tag)) && (Ms in info ==> info[Ms].Str?) &&
    (P in info <==> StreamTag(tag)) && (P in info ==> info[P].Str?) &&
    CfgPath !in info && CfgName !in info
  }

  predicate EntryWell(e: (string, string))
  {
    InfoWell(e.0, FirstMatch(Patterns, e.1))
  }

  /** Every short tag of the table decodes, to a dict with the keys and value kinds its tag
      promises. */
  lemma TableDecodes(tag: string)
    requires tag in LongTag
    ensures ParseEnsemble(tag).Ok? && InfoWell(tag, ParseEnsemble(tag).value)
  {
    TableEntriesWell();
    if tag == "a125m280" {
      DuplicateKey();
      assert (tag, LongTag[tag]) == Table[13];
    } else {
      DictOfValue(Table, tag);
      var i :| 0 <= i < |Table| && Table[i] == (tag, LongTag[tag]);
      assert Table[0].0 == "a125m280";
      assert i != 0;
    }
  }

  /** The later `a125m280` entry is the one the dict keeps. The earlier one, with a
      three-decimal mud and a longer suffix, would have been read by the minimal pattern,
      without P. */
  lemma DuplicateKey()
    ensures Table[0].0 == Table[13].0 == "a125m280"
    ensures LongTag["a125m280"] == "b3.30_ms-0.057_mud-0.1265_s24t64-000"
    ensures P !in FirstMatch(Patterns, Table[0].1) && Ms in FirstMatch(Patterns, Table[0].1)
  {
    DictOfLast(Table, 13);
    TagOverwritten();
  }

  /** Every entry but the overwritten one decodes as its tag promises. */
  lemma TableEntriesWell()
    ensures forall i | 1 <= i < |Table| :: EntryWell(Table[i])
  {
    forall i | 1 <= i < |Table|
      ensures EntryWell(Table[i])
    {
      if i == 1 { TagEricTest(); }
      else if i == 2 { TagEricS32t64(); }
      else if i == 3 { TagEricS40t64(); }
      else if i == 4 { TagEricS48t64(); }
      else if i == 5 { TagA065m420(); }
      else if i == 6 { TagA065m380(); }
      else if i == 7 { TagA065m300(); }
      else if i == 8 { TagA085m420(); }
      else if i == 9 { TagA085m300(); }
      else if i == 10 { TagA085m200(); }
      else if i == 11 { TagA125m400(); }
      else if i == 12 { TagA125m330(); }
      else { TagA125m280(); }
    }
  }

  /** A long tag that does not start with 'b' matches no pattern and decodes to `{}`. */
  lemma NoPatternEmpty(s: string)
    requires s == [] || s[0] != 'b'
    ensures FirstMatch(Patterns, s) == map[]
  {
    assert ScanLit("b", s).None?;
    forall j | 0 <= j < |Patterns|
      ensures Match(Patterns[j], s).None?
    {
    }
    FirstMatchNone(Patterns, s);
  }

  /** A four-decimal mud tag is read by the standard pattern, stream label included. */
  lemma ReadsStandard(e: (string, string), f: MsFields)
    requires e.1 == MsText(f, "") && MsFits(Standard, f) && StreamTag(e.0) && !McStyleTag(e.0)
    ensures FirstMatch(Patterns, e.1) == MsInfo(f)
    ensures EntryWell(e)
  {
    MatchMsComplete(Standard, f, "");
    assert Match(Patterns[0], e.1) == Some(MsInfo(f));
  }

  /** An `_mc` tag fails the standard pattern and is read by the `_mc` one. */
  lemma ReadsMc(e: (string, string), f: McFields)
    requires e.1 == McText(f, "") && McFits(f) && McStyleTag(e.0) && !StreamTag(e.0)
    ensures FirstMatch(Patterns, e.1) == McInfo(f)
    ensures EntryWell(e)
  {
    MsRejectsMc(Standard, f, "");
    MatchMcComplete(f, "");
    assert Match(McStyle, e.1) == Some(McInfo(f));
    SecondReads(MsStyle(Standard), McStyle, MsStyle(Minimal), e.1);
  }

  /** A three-decimal mud `_ms` tag fails the standard pattern, where a fourth decimal
      should be, fails the `_mc` one, and is read by the minimal pattern, which stops before
      any suffix: the dict has no P. */
  lemma ReadsMinimal(s: string, f: MsFields, rest: string)
    requires s == MsText(f, rest) && MsFits(Minimal, f)
    ensures FirstMatch(Patterns, s) == MsInfo(f)
    ensures P !in FirstMatch(Patterns, s)
  {
    MsRejectsShortMud(Minimal, Standard, f, rest);
    McRejectsMs(Minimal, f, rest);
    MatchMsComplete(Minimal, f, rest);
    assert Match(MsStyle(Minimal), s) == Some(MsInfo(f));
    ThirdReads(MsStyle(Standard), McStyle, MsStyle(Minimal), s);
  }

  lemma SecondReads(p0: Pattern, p1: Pattern, p2: Pattern, s: string)
    requires Match(p0, s).None? && Match(p1, s).Some?
    ensures FirstMatch([p0, p1, p2], s) == Match(p1, s).value
  {
    assert Matches([p0, p1, p2], s) == [Match(p0, s), Match(p1, s), Match(p2, s)];
    SecondSome(Match(p0, s), Match(p1, s), Match(p2, s));
  }

  lemma ThirdReads(p0: Pattern, p1: Pattern, p2: Pattern, s: string)
    requires Match(p0, s).None? && Match(p1, s).None? && Match(p2, s).Some?
    ensures FirstMatch([p0, p1, p2], s) == Match(p2, s).value
  {
    assert Matches([p0, p1, p2], s) == [Match(p0, s), Match(p1, s), Match(p2, s)];
    ThirdSome(Match(p0, s), Match(p1, s), Match(p2, s));
  }

  lemma SecondSome(a: Option<Info>, b: Option<Info>, c: Option<Info>)
    requires a.None? && b.Some?
    ensures FirstSome([a, b, c]) == b.value
  {
    assert [a, b, c][1..] == [b, c];
  }

  lemma ThirdSome(a: Option<Info>, b: Option<Info>, c: Option<Info>)
    requires a.None? && b.None? && c.Some?
    ensures FirstSome([a, b, c]) == c.value
  {
    assert [a, b, c][1..] == [b, c] && [b, c][1..] == [c];
  }

  lemma TagOverwritten()
    ensures Table[0] == ("a125m280", "b3.30_ms-0.057_mud-0.129_s32t64-000-0001-0400")
    ensures FirstMatch(Patterns, Table[0].1) == MsInfo(MsFields(Dec(false, "3", "30"), Dec(true, "0", "057"), Dec(false, "0", "129"), "32", "64", None))
  {
    TextOverwritten();
    ReadsMinimal(Table[0].1, MsFields(Dec(false, "3", "30"), Dec(true, "0", "057"), Dec(false, "0", "129"), "32", "64", None), "-000-0001-0400");
  }

  lemma TextOverwritten()
    ensures MsText(MsFields(Dec(false, "3", "30"), Dec(true, "0", "057"), Dec(false, "0", "129"), "32", "64", None), "-000-0001-0400") == "b3.30_ms-0.057_mud-0.129_s32t64-000-0001-0400"
  {
    assert MsText(MsFields(Dec(false, "3", "30"), Dec(true, "0", "057"), Dec(false, "0", "129"), "32", "64", None), "-000-0001-0400") == ("b" + ("3.30" + ("_ms" + ("-0.057" + ("_mud-" + ("0.129" + ("_s" + ("32" + ("t" + ("64" + "-000-0001-0400")))))))))) by {
      assert DecText(Dec(false, "3", "30")) == "3.30";
      assert DecText(Dec(true, "0", "057")) == "-0.057";
      assert DecText(Dec(false, "0", "129")) == "0.129";
    }
    SpellOverwritten("-000-0001-0400");
    GlueOverwritten();
  }

  lemma GlueOverwritten()
    ensures "b3.30_ms-0.057_mud-0.129_s32t64" + "-000-0001-0400" == "b3.30_ms-0.057_mud-0.129_s32t64-000-0001-0400"
  {
  }

  lemma SpellOverwritten(r: string)
    ensures ("b" + ("3.30" + ("_ms" + ("-0.057" + ("_mud-" + ("0.129" + ("_s" + ("32" + ("t" + ("64" + r)))))))))) == "b3.30_ms-0.057_mud-0.129_s32t64" + r
  {
  }

  lemma TagEricTest()
    ensures Table[1] == ("eric_test", "b3.70_ms0.000_mud-0.022_s32t96-000")
    ensures FirstMatch(Patterns, Table[1].1) == MsInfo(MsFields(Dec(false, "3", "70"), Dec(false, "0", "000"), Dec(false, "0", "022"), "32", "96", None))
    ensures EntryWell(Table[1])
  {
    TextEricTest();
    ReadsMinimal(Table[1].1, MsFields(Dec(false, "3", "70"), Dec(false, "0", "000"), Dec(false, "0", "022"), "32", "96", None), "-000");
    EricTestTag();
  }

  /** `eric_test` is neither an `eric_s` tag nor an `a` tag. */
  lemma EricTestTag()
    ensures !McStyleTag("eric_test") && !StreamTag("eric_test")
  {
    assert "eric_test"[5] != "eric_s"[5];
  }

  lemma TextEricTest()
    ensures MsText(MsFields(Dec(false, "3", "70"), Dec(false, "0", "000"), Dec(false, "0", "022"), "32", "96", None), "-000") == "b3.70_ms0.000_mud-0.022_s32t96-000"
  {
    assert MsText(MsFields(Dec(false, "3", "70"), Dec(false, "0", "000"), Dec(false, "0", "022"), "32", "96", None), "-000") == ("b" + ("3.70" + ("_ms" + ("0.000" + ("_mud-" + ("0.022" + ("_s" + ("32" + ("t" + ("96" + "-000")))))))))) by {
      assert DecText(Dec(false, "3", "70")) == "3.70";
      assert DecText(Dec(false, "0", "000")) == "0.000";
      assert DecText(Dec(false, "0", "022")) == "0.022";
    }
    SpellEricTest("-000");
    GlueEricTest();
  }

  lemma GlueEricTest()
    ensures "b3.70_ms0.000_mud-0.022_s32t96" + "-000" == "b3.70_ms0.000_mud-0.022_s32t96-000"
  {
  }

  lemma SpellEricTest(r: string)
    ensures ("b" + ("3.70" + ("_ms" + ("0.000" + ("_mud-" + ("0.022" + ("_s" + ("32" + ("t" + ("96" + r)))))))))) == "b3.70_ms0.000_mud-0.022_s32t96" + r
  {
  }

  lemma TagEricS32t64()
    ensures Table[2] == ("eric_s32t64", "b3.6_mc0.25_mud-0.013_s32t64")
    ensures FirstMatch(Patterns, Table[2].1) == McInfo(McFields(Dec(false, "3", "6"), Dec(false, "0", "25"), Dec(false, "0", "013"), "32", "64"))
    ensures EntryWell(Table[2])
  {
    TextEricS32t64();
    ReadsMc(Table[2], McFields(Dec(false, "3", "6"), Dec(false, "0", "25"), Dec(false, "0", "013"), "32", "64"));
  }

  lemma TextEricS32t64()
    ensures McText(McFields(Dec(false, "3", "6"), Dec(false, "0", "25"), Dec(false, "0", "013"), "32", "64"), "") == "b3.6_mc0.25_mud-0.013_s32t64"
  {
    assert McText(McFields(Dec(false, "3", "6"), Dec(false, "0", "25"), Dec(false, "0", "013"), "32", "64"), "") == ("b" + ("3.6" + ("_mc" + ("0.25" + ("_mud-" + ("0.013" + ("_s" + ("32" + ("t" + ("64" + "")))))))))) by {
      assert DecText(Dec(false, "3", "6")) == "3.6";
      assert DecText(Dec(false, "0", "25")) == "0.25";
      assert DecText(Dec(false, "0", "013")) == "0.013";
    }
    SpellEricS32t64();
  }

  lemma SpellEricS32t64()
    ensures ("b" + ("3.6" + ("_mc" + ("0.25" + ("_mud-" + ("0.013" + ("_s" + ("32" + ("t" + ("64" + "")))))))))) == "b3.6_mc0.25_mud-0.013_s32t64"
  {
  }

  lemma TagEricS40t64()
    ensures Table[3] == ("eric_s40t64", "b3.6_mc0.25_mud-0.013_s40t64")
    ensures FirstMatch(Patterns, Table[3].1) == McInfo(McFields(Dec(false, "3", "6"), Dec(false, "0", "25"), Dec(false, "0", "013"), "40", "64"))
    ensures EntryWell(Table[3])
  {
    TextEricS40t64();
    ReadsMc(Table[3], McFields(Dec(false, "3", "6"), Dec(false, "0", "25"), Dec(false, "0", "013"), "40", "64"));
  }

  lemma TextEricS40t64()
    ensures McText(McFields(Dec(false, "3", "6"), Dec(false, "0", "25"), Dec(false, "0", "013"), "40", "64"), "") == "b3.6_mc0.25_mud-0.013_s40t64"
  {
    assert McText(McFields(Dec(false, "3", "6"), Dec(false, "0", "25"), Dec(false, "0", "013"), "40", "64"), "") == ("b" + ("3.6" + ("_mc" + ("0.25" + ("_mud-" + ("0.013" + ("_s" + ("40" + ("t" + ("64" + "")))))))))) by {
      assert DecText(Dec(false, "3", "6")) == "3.6";
      assert DecText(Dec(false, "0", "25")) == "0.25";
      assert DecText(Dec(false, "0", "013")) == "0.013";
    }
    SpellEricS40t64();
  }

  lemma SpellEricS40t64()
    ensures ("b" + ("3.6" + ("_mc" + ("0.25" + ("_mud-" + ("0.013" + ("_s" + ("40" + ("t" + ("64" + "")))))))))) == "b3.6_mc0.25_mud-0.013_s40t64"
  {
  }

  lemma TagEricS48t64()
    ensures Table[4] == ("eric_s48t64", "b3.6_mc0.25_mud-0.013_s48t64")
    ensures FirstMatch(Patterns, Table[4].1) == McInfo(McFields(Dec(false, "3", "6"), Dec(false, "0", "25"), Dec(false, "0", "013"), "48", "64"))
    ensures EntryWell(Table[4])
  {
    TextEricS48t64();
    ReadsMc(Table[4], McFields(Dec(false, "3", "6"), Dec(false, "0", "25"), Dec(false, "0", "013"), "48", "64"));
  }

  lemma TextEricS48t64()
    ensures McText(McFields(Dec(false, "3", "6"), Dec(false, "0", "25"), Dec(false, "0", "013"), "48", "64"), "") == "b3.6_mc0.25_mud-0.013_s48t64"
  {
    assert McText(McFields(Dec(false, "3", "6"), Dec(false, "0", "25"), Dec(false, "0", "013"), "48", "64"), "") == ("b" + ("3.6" + ("_mc" + ("0.25" + ("_mud-" + ("0.013" + ("_s" + ("48" + ("t" + ("64" + "")))))))))) by {
      assert DecText(Dec(false, "3", "6")) == "3.6";
      assert DecText(Dec(false, "0", "25")) == "0.25";
      assert DecText(Dec(false, "0", "013")) == "0.013";
    }
    SpellEricS48t64();
  }

  lemma SpellEricS48t64()
    ensures ("b" + ("3.6" + ("_mc" + ("0.25" + ("_mud-" + ("0.013" + ("_s" + ("48" + ("t" + ("64" + "")))))))))) == "b3.6_mc0.25_mud-0.013_s48t64"
  {
  }

  lemma TagA065m420()
    ensures Table[5] == ("a065m420", "b3.70_ms0.000_mud-0.0200_s32t96-000")
    ensures FirstMatch(Patterns, Table[5].1) == MsInfo(MsFields(Dec(false, "3", "70"), Dec(false, "0", "000"), Dec(false, "0", "0200"), "32", "96", Some("000")))
    ensures EntryWell(Table[5])
  {
    TextA065m420();
    ReadsStandard(Table[5], MsFields(Dec(false, "3", "70"), Dec(false, "0", "000"), Dec(false, "0", "0200"), "32", "96", Some("000")));
  }

  lemma TextA065m420()
    ensures MsText(MsFields(Dec(false, "3", "70"), Dec(false, "0", "000"), Dec(false, "0", "0200"), "32", "96", Some("000")), "") == "b3.70_ms0.000_mud-0.0200_s32t96-000"
  {
    assert MsText(MsFields(Dec(false, "3", "70"), Dec(false, "0", "000"), Dec(false, "0", "0200"), "32", "96", Some("000")), "") == ("b" + ("3.70" + ("_ms" + ("0.000" + ("_mud-" + ("0.0200" + ("_s" + ("32" + ("t" + ("96" + ("-" + ("000" + "")))))))))))) by {
      assert DecText(Dec(false, "3", "70")) == "3.70";
      assert DecText(Dec(false, "0", "000")) == "0.000";
      assert DecText(Dec(false, "0", "0200")) == "0.0200";
    }
    SpellA065m420();
  }

  lemma SpellA065m420()
    ensures ("b" + ("3.70" + ("_ms" + ("0.000" + ("_mud-" + ("0.0200" + ("_s" + ("32" + ("t" + ("96" + ("-" + ("000" + "")))))))))))) == "b3.70_ms0.000_mud-0.0200_s32t96-000"
  {
  }

  lemma TagA065m380()
    ensures Table[6] == ("a065m380", "b3.70_ms0.000_mud-0.0220_s32t96-000")
    ensures FirstMatch(Patterns, Table[6].1) == MsInfo(MsFields(Dec(false, "3", "70"), Dec(false, "0", "000"), Dec(false, "0", "0220"), "32", "96", Some("000")))
    ensures EntryWell(Table[6])
  {
    TextA065m380();
    ReadsStandard(Table[6], MsFields(Dec(false, "3", "70"), Dec(false, "0", "000"), Dec(false, "0", "0220"), "32", "96", Some("000")));
  }

  lemma TextA065m380()
    ensures MsText(MsFields(Dec(false, "3", "70"), Dec(false, "0", "000"), Dec(false, "0", "0220"), "32", "96", Some("000")), "") == "b3.70_ms0.000_mud-0.0220_s32t96-000"
  {
    assert MsText(MsFields(Dec(false, "3", "70"), Dec(false, "0", "000"), Dec(false, "0", "0220"), "32", "96", Some("000")), "") == ("b" + ("3.70" + ("_ms" + ("0.000" + ("_mud-" + ("0.0220" + ("_s" + ("32" + ("t" + ("96" + ("-" + ("000" + "")))))))))))) by {
      assert DecText(Dec(false, "3", "70")) == "3.70";
      assert DecText(Dec(false, "0", "000")) == "0.000";
      assert DecText(Dec(false, "0", "0220")) == "0.0220";
    }
    SpellA065m380();
  }

  lemma SpellA065m380()
    ensures ("b" + ("3.70" + ("_ms" + ("0.000" + ("_mud-" + ("0.0220" + ("_s" + ("32" + ("t" + ("96" + ("-" + ("000" + "")))))))))))) == "b3.70_ms0.000_mud-0.0220_s32t96-000"
  {
  }

  lemma TagA065m300()
    ensures Table[7] == ("a065m300", "b3.70_ms0.000_mud-0.0250_s40t96-000")
    ensures FirstMatch(Patterns, Table[7].1) == MsInfo(MsFields(Dec(false, "3", "70"), Dec(false, "0", "000"), Dec(false, "0", "0250"), "40", "96", Some("000")))
    ensures EntryWell(Table[7])
  {
    TextA065m300();
    ReadsStandard(Table[7], MsFields(Dec(false, "3", "70"), Dec(false, "0", "000"), Dec(false, "0", "0250"), "40", "96", Some("000")));
  }

  lemma TextA065m300()
    ensures MsText(MsFields(Dec(false, "3", "70"), Dec(false, "0", "000"), Dec(false, "0", "0250"), "40", "96", Some("000")), "") == "b3.70_ms0.000_mud-0.0250_s40t96-000"
  {
    assert MsText(MsFields(Dec(false, "3", "70"), Dec(false, "0", "000"), Dec(false, "0", "0250"), "40", "96", Some("000")), "") == ("b" + ("3.70" + ("_ms" + ("0.000" + ("_mud-" + ("0.0250" + ("_s" + ("40" + ("t" + ("96" + ("-" + ("000" + "")))))))))))) by {
      assert DecText(Dec(false, "3", "70")) == "3.70";
      assert DecText(Dec(false, "0", "000")) == "0.000";
      assert DecText(Dec(false, "0", "0250")) == "0.0250";
    }
    SpellA065m300();
  }

  lemma SpellA065m300()
    ensures ("b" + ("3.70" + ("_ms" + ("0.000" + ("_mud-" + ("0.0250" + ("_s" + ("40" + ("t" + ("96" + ("-" + ("000" + "")))))))))))) == "b3.70_ms0.000_mud-0.0250_s40t96-000"
  {
  }

  lemma TagA085m420()
    ensures Table[8] == ("a085m420", "b3.57_ms-0.007_mud-0.0380_s24t64-000")
    ensures FirstMatch(Patterns, Table[8].1) == MsInfo(MsFields(Dec(false, "3", "57"), Dec(true, "0", "007"), Dec(false, "0", "0380"), "24", "64", Some("000")))
    ensures EntryWell(Table[8])
  {
    TextA085m420();
    ReadsStandard(Table[8], MsFields(Dec(false, "3", "57"), Dec(true, "0", "007"), Dec(false, "0", "0380"), "24", "64", Some("000")));
  }

  lemma TextA085m420()
    ensures MsText(MsFields(Dec(false, "3", "57"), Dec(true, "0", "007"), Dec(false, "0", "0380"), "24", "64", Some("000")), "") == "b3.57_ms-0.007_mud-0.0380_s24t64-000"
  {
    assert MsText(MsFields(Dec(false, "3", "57"), Dec(true, "0", "007"), Dec(false, "0", "0380"), "24", "64", Some("000")), "") == ("b" + ("3.57" + ("_ms" + ("-0.007" + ("_mud-" + ("0.0380" + ("_s" + ("24" + ("t" + ("64" + ("-" + ("000" + "")))))))))))) by {
      assert DecText(Dec(false, "3", "57")) == "3.57";
      assert DecText(Dec(true, "0", "007")) == "-0.007";
      assert DecText(Dec(false, "0", "0380")) == "0.0380";
    }
    SpellA085m420();
  }

  lemma SpellA085m420()
    ensures ("b" + ("3.57" + ("_ms" + ("-0.007" + ("_mud-" + ("0.0380" + ("_s" + ("24" + ("t" + ("64" + ("-" + ("000" + "")))))))))))) == "b3.57_ms-0.007_mud-0.0380_s24t64-000"
  {
  }

  lemma TagA085m300()
    ensures Table[9] == ("a085m300", "b3.57_ms-0.007_mud-0.0440_s32t64-000")
    ensures FirstMatch(Patterns, Table[9].1) == MsInfo(MsFields(Dec(false, "3", "57"), Dec(true, "0", "007"), Dec(false, "0", "0440"), "32", "64", Some("000")))
    ensures EntryWell(Table[9])
  {
    TextA085m300();
    ReadsStandard(Table[9], MsFields(Dec(false, "3", "57"), Dec(true, "0", "007"), Dec(false, "0", "0440"), "32", "64", Some("000")));
  }

  lemma TextA085m300()
    ensures MsText(MsFields(Dec(false, "3", "57"), Dec(true, "0", "007"), Dec(false, "0", "0440"), "32", "64", Some("000")), "") == "b3.57_ms-0.007_mud-0.0440_s32t64-000"
  {
    assert MsText(MsFields(Dec(false, "3", "57"), Dec(true, "0", "007"), Dec(false, "0", "0440"), "32", "64", Some("000")), "") == ("b" + ("3.57" + ("_ms" + ("-0.007" + ("_mud-" + ("0.0440" + ("_s" + ("32" + ("t" + ("64" + ("-" + ("000" + "")))))))))))) by {
      assert DecText(Dec(false, "3", "57")) == "3.57";
      assert DecText(Dec(true, "0", "007")) == "-0.007";
      assert DecText(Dec(false, "0", "0440")) == "0.0440";
    }
    SpellA085m300();
  }

  lemma SpellA085m300()
    ensures ("b" + ("3.57" + ("_ms" + ("-0.007" + ("_mud-" + ("0.0440" + ("_s" + ("32" + ("t" + ("64" + ("-" + ("000" + "")))))))))))) == "b3.57_ms-0.007_mud-0.0440_s32t64-000"
  {
  }

  lemma TagA085m200()
    ensures Table[10] == ("a085m200", "b3.57_ms-0.007_mud-0.0483_s48t64-000")
    ensures FirstMatch(Patterns, Table[10].1) == MsInfo(MsFields(Dec(false, "3", "57"), Dec(true, "0", "007"), Dec(false, "0", "0483"), "48", "64", Some("000")))
    ensures EntryWell(Table[10])
  {
    TextA085m200();
    ReadsStandard(Table[10], MsFields(Dec(false, "3", "57"), Dec(true, "0", "007"), Dec(false, "0", "0483"), "48", "64", Some("000")));
  }

  lemma TextA085m200()
    ensures MsText(MsFields(Dec(false, "3", "57"), Dec(true, "0", "007"), Dec(false, "0", "0483"), "48", "64", Some("000")), "") == "b3.57_ms-0.007_mud-0.0483_s48t64-000"
  {
    assert MsText(MsFields(Dec(false, "3", "57"), Dec(true, "0", "007"), Dec(false, "0", "0483"), "48", "64", Some("000")), "") == ("b" + ("3.57" + ("_ms" + ("-0.007" + ("_mud-" + ("0.0483" + ("_s" + ("48" + ("t" + ("64" + ("-" + ("000" + "")))))))))))) by {
      assert DecText(Dec(false, "3", "57")) == "3.57";
      assert DecText(Dec(true, "0", "007")) == "-0.007";
      assert DecText(Dec(false, "0", "0483")) == "0.0483";
    }
    SpellA085m200();
  }

  lemma SpellA085m200()
    ensures ("b" + ("3.57" + ("_ms" + ("-0.007" + ("_mud-" + ("0.0483" + ("_s" + ("48" + ("t" + ("64" + ("-" + ("000" + "")))))))))))) == "b3.57_ms-0.007_mud-0.0483_s48t64-000"
  {
  }

  lemma TagA125m400()
    ensures Table[11] == ("a125m400", "b3.30_ms-0.057_mud-0.1200_s16t64-000")
    ensures FirstMatch(Patterns, Table[11].1) == MsInfo(MsFields(Dec(false, "3", "30"), Dec(true, "0", "057"), Dec(false, "0", "1200"), "16", "64", Some("000")))
    ensures EntryWell(Table[11])
  {
    TextA125m400();
    ReadsStandard(Table[11], MsFields(Dec(false, "3", "30"), Dec(true, "0", "057"), Dec(false, "0", "1200"), "16", "64", Some("000")));
  }

  lemma TextA125m400()
    ensures MsText(MsFields(Dec(false, "3", "30"), Dec(true, "0", "057"), Dec(false, "0", "1200"), "16", "64", Some("000")), "") == "b3.30_ms-0.057_mud-0.1200_s16t64-000"
  {
    assert MsText(MsFields(Dec(false, "3", "30"), Dec(true, "0", "057"), Dec(false, "0", "1200"), "16", "64", Some("000")), "") == ("b" + ("3.30" + ("_ms" + ("-0.057" + ("_mud-" + ("0.1200" + ("_s" + ("16" + ("t" + ("64" + ("-" + ("000" + "")))))))))))) by {
      assert DecText(Dec(false, "3", "30")) == "3.30";
      assert DecText(Dec(true, "0", "057")) == "-0.057";
      assert DecText(Dec(false, "0", "1200")) == "0.1200";
    }
    SpellA125m400();
  }

  lemma SpellA125m400()
    ensures ("b" + ("3.30" + ("_ms" + ("-0.057" + ("_mud-" + ("0.1200" + ("_s" + ("16" + ("t" + ("64" + ("-" + ("000" + "")))))))))))) == "b3.30_ms-0.057_mud-0.1200_s16t64-000"
  {
  }

  lemma TagA125m330()
    ensures Table[12] == ("a125m330", "b3.30_ms-0.057_mud-0.1233_s24t64-000")
    ensures FirstMatch(Patterns, Table[12].1) == MsInfo(MsFields(Dec(false, "3", "30"), Dec(true, "0", "057"), Dec(false, "0", "1233"), "24", "64", Some("000")))
    ensures EntryWell(Table[12])
  {
    TextA125m330();
    ReadsStandard(Table[12], MsFields(Dec(false, "3", "30"), Dec(true, "0", "057"), Dec(false, "0", "1233"), "24", "64", Some("000")));
  }

  lemma TextA125m330()
    ensures MsText(MsFields(Dec(false, "3", "30"), Dec(true, "0", "057"), Dec(false, "0", "1233"), "24", "64", Some("000")), "") == "b3.30_ms-0.057_mud-0.1233_s24t64-000"
  {
    assert MsText(MsFields(Dec(false, "3", "30"), Dec(true, "0", "057"), Dec(false, "0", "1233"), "24", "64", Some("000")), "") == ("b" + ("3.30" + ("_ms" + ("-0.057" + ("_mud-" + ("0.1233" + ("_s" + ("24" + ("t" + ("64" + ("-" + ("000" + "")))))))))))) by {
      assert DecText(Dec(false, "3", "30")) == "3.30";
      assert DecText(Dec(true, "0", "057")) == "-0.057";
      assert DecText(Dec(false, "0", "1233")) == "0.1233";
    }
    SpellA125m330();
  }

  lemma SpellA125m330()
    ensures ("b" + ("3.30" + ("_ms" + ("-0.057" + ("_mud-" + ("0.1233" + ("_s" + ("24" + ("t" + ("64" + ("-" + ("000" + "")))))))))))) == "b3.30_ms-0.057_mud-0.1233_s24t64-000"
  {
  }

  lemma TagA125m280()
    ensures Table[13] == ("a125m280", "b3.30_ms-0.057_mud-0.1265_s24t64-000")
    ensures FirstMatch(Patterns, Table[13].1) == MsInfo(MsFields(Dec(false, "3", "30"), Dec(true, "0", "057"), Dec(false, "0", "1265"), "24", "64", Some("000")))
    ensures EntryWell(Table[13])
  {
    TextA125m280();
    ReadsStandard(Table[13], MsFields(Dec(false, "3", "30"), Dec(true, "0", "057"), Dec(false, "0", "1265"), "24", "64", Some("000")));
  }

  lemma TextA125m280()
    ensures MsText(MsFields(Dec(false, "3", "30"), Dec(true, "0", "057"), Dec(false, "0", "1265"), "24", "64", Some("000")), "") == "b3.30_ms-0.057_mud-0.1265_s24t64-000"
  {
    assert MsText(MsFields(Dec(false, "3", "30"), Dec(true, "0", "057"), Dec(false, "0", "1265"), "24", "64", Some("000")), "") == ("b" + ("3.30" + ("_ms" + ("-0.057" + ("_mud-" + ("0.1265" + ("_s" + ("24" + ("t" + ("64" + ("-" + ("000" + "")))))))))))) by {
      assert DecText(Dec(false, "3", "30")) == "3.30";
      assert DecText(Dec(true, "0", "057")) == "-0.057";
      assert DecText(Dec(false, "0", "1265")) == "0.1265";
    }
    SpellA125m280();
  }

  lemma SpellA125m280()
    ensures ("b" + ("3.30" + ("_ms" + ("-0.057" + ("_mud-" + ("0.1265" + ("_s" + ("24" + ("t" + ("64" + ("-" + ("000" + "")))))))))))) == "b3.30_ms-0.057_mud-0.1265_s24t64-000"
  {
  }
}
