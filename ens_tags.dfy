/** The ensemble table and the two-pattern decoder that the two job-file generators
    `create_tasks_ens.py` and `scripts/create_tasks_ens.py` share word for word: a
    short tag is looked up in a fixed table, and the long tag is read by the first of
    an `_ms` pattern and an `_mc` pattern that matches it. */
module EnsTags {
  import opened Py
  import opened Scan
  import opened TagPatterns

  /** The entries of the short-tag to long-tag dict display, in the order written. */
  const Table: seq<(string, string)> := [
    ("a065m420", "b3.70_ms-0.000_mud-0.020_s32t96-000"),
    ("a065m300", "b3.70_ms-0.000_mud-0.025_s40t96-000"),
    ("a085m420", "b3.57_ms-0.007_mud-0.038_s24t64-000"),
    ("a085m300", "b3.57_ms-0.007_mud-0.044_s32t64-000"),
    ("a085m200", "b3.57_ms-0.007_mud-0.048_s48t64-000"),
    ("a125m400", "b3.30_ms-0.057_mud-0.1200_s16t64-000"),
    ("a125m330", "b3.30_ms-0.057_mud-0.1233_s24t64-000"),
    ("a125m280", "b3.30_ms-0.057_mud-0.1265_s24t64-000"),
    ("b3.6_s32t64", "b3.6_mc0.25_mud-0.013_s32t64"),
    ("b3.6_s40t64", "b3.6_mc0.25_mud-0.013_s40t64"),
    ("b3.6_s48t64", "b3.6_mc0.25_mud-0.013_s48t64"),
    ("b3.6_s64t64", "b3.6_mc0.25_mud-0.013_s64t64"),
    ("b3.4_s24t64", "b3.4_mc0.33_mud-0.040_s24t64"),
    ("b3.4_s32t64", "b3.4_mc0.33_mud-0.040_s32t64"),
    ("b3.4_s36t64", "b3.4_mc0.33_mud-0.040_s36t64"),
    ("b3.4_s48t64", "b3.4_mc0.33_mud-0.040_s48t64")
  ]


  /** Short tag to long tag. */
  const LongTag: map<string, string> := DictOf(Table)

  /** `b([0-9]+\.[0-9]+)_ms(-?[0-9]+\.[0-9]+)_mud-([0-9]+\.[0-9]+)_s([0-9]+)t([0-9]+)-([0-9]{3})` */
  const MsPattern := MsShape(Plus, Plus, Plus, true)

  /** The patterns in the order they are tried. */
  const Patterns: seq<Pattern> := [MsStyle(MsPattern), McStyle]

  /** `parse_ensemble(short_tag)` up to the dict of converted groups. */
  function Decode(shortTag: string): (r: Result<Info>)
    ensures r.Err? <==> shortTag !in LongTag
    ensures r.Err? ==> r.error == ValueError("Unknown ensemble short tag: " + shortTag)
  {
    if shortTag !in LongTag then Err(ValueError("Unknown ensemble short tag: " + shortTag))
    else Ok(FirstMatch(Patterns, LongTag[shortTag]))
  }

  /** The long tags written in the `_mc` style are the ones whose short tag starts with 'b'. */
  predicate McStyleTag(tag: string)
  {
    |tag| > 0 && tag[0] == 'b'
  }

  /** What the table promises about the dict a short tag decodes to: NL and NT are ints,
      beta and mud strings, and the dict carries mc (and no ms and no P) exactly for the
      `_mc` style. */
  predicate InfoWell(tag: string, info: Info)
  {
    NL in info && info[NL].Int? && NT in info && info[NT].Int? &&
    Beta in info && info[Beta].Str? && Mud in info && info[Mud].Str? &&
    (Mc in info <==> McStyleTag(tag)) && (Ms in info <==> !McStyleTag(tag)) && (P in info <==> !McStyleTag(tag))
  }

  predicate EntryWell(e: (string, string))
  {
    InfoWell(e.0, FirstMatch(Patterns, e.1))
  }

  /** A long tag written in the `_ms` style is read by the first pattern. */
  lemma ReadsMs(e: (string, string), f: MsFields)
    requires e.1 == MsText(f, "") && MsFits(MsPattern, f) && !McStyleTag(e.0)
    ensures FirstMatch(Patterns, e.1) == MsInfo(f)
    ensures EntryWell(e)
  {
    MatchMsComplete(MsPattern, f, "");
    assert Match(Patterns[0], e.1) == Some(MsInfo(f));
  }

  /** A long tag written in the `_mc` style fails the first pattern and is read by the second. */
  lemma ReadsMc(e: (string, string), f: McFields)
    requires e.1 == McText(f, "") && McFits(f) && McStyleTag(e.0)
    ensures FirstMatch(Patterns, e.1) == McInfo(f)
    ensures EntryWell(e)
  {
    MsRejectsMc(MsPattern, f, "");
    MatchMcComplete(f, "");
    FirstMatchSecond(MsStyle(MsPattern), McStyle, e.1);
    assert FirstMatch(Patterns, e.1) == McInfo(f);
  }

  /** Every short tag of the table decodes, to a dict with the keys and value kinds of its style. */
  lemma TableDecodes(tag: string)
    requires tag in LongTag
    ensures Decode(tag).Ok? && InfoWell(tag, Decode(tag).value)
  {
    TableEntriesWell();
    DictOfValue(Table, tag);
  }

  /** Every entry of the table decodes, and its dict has the keys and value kinds of its style. */
  lemma TableEntriesWell()
    ensures forall i | 0 <= i < |Table| :: EntryWell(Table[i])
  {
    forall i | 0 <= i < |Table|
      ensures EntryWell(Table[i])
    {
      if i == 0 { TagA065m420(); }
      else if i == 1 { TagA065m300(); }
      else if i == 2 { TagA085m420(); }
      else if i == 3 { TagA085m300(); }
      else if i == 4 { TagA085m200(); }
      else if i == 5 { TagA125m400(); }
      else if i == 6 { TagA125m330(); }
      else if i == 7 { TagA125m280(); }
      else if i == 8 { TagB36S32t64(); }
      else if i == 9 { TagB36S40t64(); }
      else if i == 10 { TagB36S48t64(); }
      else if i == 11 { TagB36S64t64(); }
      else if i == 12 { TagB34S24t64(); }
      else if i == 13 { TagB34S32t64(); }
      else if i == 14 { TagB34S36t64(); }
      else { TagB34S48t64(); }
    }
  }

  lemma TagA065m420()
    ensures Table[0] == ("a065m420", "b3.70_ms-0.000_mud-0.020_s32t96-000")
    ensures FirstMatch(Patterns, Table[0].1) == MsInfo(MsFields(Dec(false, "3", "70"), Dec(true, "0", "000"), Dec(false, "0", "020"), "32", "96", Some("000")))
    ensures EntryWell(Table[0])
    ensures MsFits(MsPattern, MsFields(Dec(false, "3", "70"), Dec(true, "0", "000"), Dec(false, "0", "020"), "32", "96", Some("000")))
  {
    TextA065m420();
    ReadsMs(Table[0], MsFields(Dec(false, "3", "70"), Dec(true, "0", "000"), Dec(false, "0", "020"), "32", "96", Some("000")));
  }

  lemma TextA065m420()
    ensures MsText(MsFields(Dec(false, "3", "70"), Dec(true, "0", "000"), Dec(false, "0", "020"), "32", "96", Some("000")), "") == "b3.70_ms-0.000_mud-0.020_s32t96-000"
  {
    assert MsText(MsFields(Dec(false, "3", "70"), Dec(true, "0", "000"), Dec(false, "0", "020"), "32", "96", Some("000")), "") == "b" + ("3.70" + ("_ms" + ("-0.000" + ("_mud-" + ("0.020" + ("_s" + ("32" + ("t" + ("96" + ("-" + ("000" + ""))))))))))) by {
      assert DecText(Dec(false, "3", "70")) == "3.70";
      assert DecText(Dec(true, "0", "000")) == "-0.000";
      assert DecText(Dec(false, "0", "020")) == "0.020";
    }
    SpellA065m420();
  }

  lemma SpellA065m420()
    ensures "b" + ("3.70" + ("_ms" + ("-0.000" + ("_mud-" + ("0.020" + ("_s" + ("32" + ("t" + ("96" + ("-" + ("000" + ""))))))))))) == "b3.70_ms-0.000_mud-0.020_s32t96-000"
  {
  }

  lemma TagA065m300()
    ensures Table[1] == ("a065m300", "b3.70_ms-0.000_mud-0.025_s40t96-000")
    ensures FirstMatch(Patterns, Table[1].1) == MsInfo(MsFields(Dec(false, "3", "70"), Dec(true, "0", "000"), Dec(false, "0", "025"), "40", "96", Some("000")))
    ensures EntryWell(Table[1])
    ensures MsFits(MsPattern, MsFields(Dec(false, "3", "70"), Dec(true, "0", "000"), Dec(false, "0", "025"), "40", "96", Some("000")))
  {
    TextA065m300();
    ReadsMs(Table[1], MsFields(Dec(false, "3", "70"), Dec(true, "0", "000"), Dec(false, "0", "025"), "40", "96", Some("000")));
  }

  lemma TextA065m300()
    ensures MsText(MsFields(Dec(false, "3", "70"), Dec(true, "0", "000"), Dec(false, "0", "025"), "40", "96", Some("000")), "") == "b3.70_ms-0.000_mud-0.025_s40t96-000"
  {
    assert MsText(MsFields(Dec(false, "3", "70"), Dec(true, "0", "000"), Dec(false, "0", "025"), "40", "96", Some("000")), "") == "b" + ("3.70" + ("_ms" + ("-0.000" + ("_mud-" + ("0.025" + ("_s" + ("40" + ("t" + ("96" + ("-" + ("000" + ""))))))))))) by {
      assert DecText(Dec(false, "3", "70")) == "3.70";
      assert DecText(Dec(true, "0", "000")) == "-0.000";
      assert DecText(Dec(false, "0", "025")) == "0.025";
    }
    SpellA065m300();
  }

  lemma SpellA065m300()
    ensures "b" + ("3.70" + ("_ms" + ("-0.000" + ("_mud-" + ("0.025" + ("_s" + ("40" + ("t" + ("96" + ("-" + ("000" + ""))))))))))) == "b3.70_ms-0.000_mud-0.025_s40t96-000"
  {
  }

  lemma TagA085m420()
    ensures Table[2] == ("a085m420", "b3.57_ms-0.007_mud-0.038_s24t64-000")
    ensures FirstMatch(Patterns, Table[2].1) == MsInfo(MsFields(Dec(false, "3", "57"), Dec(true, "0", "007"), Dec(false, "0", "038"), "24", "64", Some("000")))
    ensures EntryWell(Table[2])
    ensures MsFits(MsPattern, MsFields(Dec(false, "3", "57"), Dec(true, "0", "007"), Dec(false, "0", "038"), "24", "64", Some("000")))
  {
    TextA085m420();
    ReadsMs(Table[2], MsFields(Dec(false, "3", "57"), Dec(true, "0", "007"), Dec(false, "0", "038"), "24", "64", Some("000")));
  }

  lemma TextA085m420()
    ensures MsText(MsFields(Dec(false, "3", "57"), Dec(true, "0", "007"), Dec(false, "0", "038"), "24", "64", Some("000")), "") == "b3.57_ms-0.007_mud-0.038_s24t64-000"
  {
    assert MsText(MsFields(Dec(false, "3", "57"), Dec(true, "0", "007"), Dec(false, "0", "038"), "24", "64", Some("000")), "") == "b" + ("3.57" + ("_ms" + ("-0.007" + ("_mud-" + ("0.038" + ("_s" + ("24" + ("t" + ("64" + ("-" + ("000" + ""))))))))))) by {
      assert DecText(Dec(false, "3", "57")) == "3.57";
      assert DecText(Dec(true, "0", "007")) == "-0.007";
      assert DecText(Dec(false, "0", "038")) == "0.038";
    }
    SpellA085m420();
  }

  lemma SpellA085m420()
    ensures "b" + ("3.57" + ("_ms" + ("-0.007" + ("_mud-" + ("0.038" + ("_s" + ("24" + ("t" + ("64" + ("-" + ("000" + ""))))))))))) == "b3.57_ms-0.007_mud-0.038_s24t64-000"
  {
  }

  lemma TagA085m300()
    ensures Table[3] == ("a085m300", "b3.57_ms-0.007_mud-0.044_s32t64-000")
    ensures FirstMatch(Patterns, Table[3].1) == MsInfo(MsFields(Dec(false, "3", "57"), Dec(true, "0", "007"), Dec(false, "0", "044"), "32", "64", Some("000")))
    ensures EntryWell(Table[3])
    ensures MsFits(MsPattern, MsFields(Dec(false, "3", "57"), Dec(true, "0", "007"), Dec(false, "0", "044"), "32", "64", Some("000")))
  {
    TextA085m300();
    ReadsMs(Table[3], MsFields(Dec(false, "3", "57"), Dec(true, "0", "007"), Dec(false, "0", "044"), "32", "64", Some("000")));
  }

  lemma TextA085m300()
    ensures MsText(MsFields(Dec(false, "3", "57"), Dec(true, "0", "007"), Dec(false, "0", "044"), "32", "64", Some("000")), "") == "b3.57_ms-0.007_mud-0.044_s32t64-000"
  {
    assert MsText(MsFields(Dec(false, "3", "57"), Dec(true, "0", "007"), Dec(false, "0", "044"), "32", "64", Some("000")), "") == "b" + ("3.57" + ("_ms" + ("-0.007" + ("_mud-" + ("0.044" + ("_s" + ("32" + ("t" + ("64" + ("-" + ("000" + ""))))))))))) by {
      assert DecText(Dec(false, "3", "57")) == "3.57";
      assert DecText(Dec(true, "0", "007")) == "-0.007";
      assert DecText(Dec(false, "0", "044")) == "0.044";
    }
    SpellA085m300();
  }

  lemma SpellA085m300()
    ensures "b" + ("3.57" + ("_ms" + ("-0.007" + ("_mud-" + ("0.044" + ("_s" + ("32" + ("t" + ("64" + ("-" + ("000" + ""))))))))))) == "b3.57_ms-0.007_mud-0.044_s32t64-000"
  {
  }

  lemma TagA085m200()
    ensures Table[4] == ("a085m200", "b3.57_ms-0.007_mud-0.048_s48t64-000")
    ensures FirstMatch(Patterns, Table[4].1) == MsInfo(MsFields(Dec(false, "3", "57"), Dec(true, "0", "007"), Dec(false, "0", "048"), "48", "64", Some("000")))
    ensures EntryWell(Table[4])
    ensures MsFits(MsPattern, MsFields(Dec(false, "3", "57"), Dec(true, "0", "007"), Dec(false, "0", "048"), "48", "64", Some("000")))
  {
    TextA085m200();
    ReadsMs(Table[4], MsFields(Dec(false, "3", "57"), Dec(true, "0", "007"), Dec(false, "0", "048"), "48", "64", Some("000")));
  }

  lemma TextA085m200()
    ensures MsText(MsFields(Dec(false, "3", "57"), Dec(true, "0", "007"), Dec(false, "0", "048"), "48", "64", Some("000")), "") == "b3.57_ms-0.007_mud-0.048_s48t64-000"
  {
    assert MsText(MsFields(Dec(false, "3", "57"), Dec(true, "0", "007"), Dec(false, "0", "048"), "48", "64", Some("000")), "") == "b" + ("3.57" + ("_ms" + ("-0.007" + ("_mud-" + ("0.048" + ("_s" + ("48" + ("t" + ("64" + ("-" + ("000" + ""))))))))))) by {
      assert DecText(Dec(false, "3", "57")) == "3.57";
      assert DecText(Dec(true, "0", "007")) == "-0.007";
      assert DecText(Dec(false, "0", "048")) == "0.048";
    }
    SpellA085m200();
  }

  lemma SpellA085m200()
    ensures "b" + ("3.57" + ("_ms" + ("-0.007" + ("_mud-" + ("0.048" + ("_s" + ("48" + ("t" + ("64" + ("-" + ("000" + ""))))))))))) == "b3.57_ms-0.007_mud-0.048_s48t64-000"
  {
  }

  lemma TagA125m400()
    ensures Table[5] == ("a125m400", "b3.30_ms-0.057_mud-0.1200_s16t64-000")
    ensures FirstMatch(Patterns, Table[5].1) == MsInfo(MsFields(Dec(false, "3", "30"), Dec(true, "0", "057"), Dec(false, "0", "1200"), "16", "64", Some("000")))
    ensures EntryWell(Table[5])
    ensures MsFits(MsPattern, MsFields(Dec(false, "3", "30"), Dec(true, "0", "057"), Dec(false, "0", "1200"), "16", "64", Some("000")))
  {
    TextA125m400();
    ReadsMs(Table[5], MsFields(Dec(false, "3", "30"), Dec(true, "0", "057"), Dec(false, "0", "1200"), "16", "64", Some("000")));
  }

  lemma TextA125m400()
    ensures MsText(MsFields(Dec(false, "3", "30"), Dec(true, "0", "057"), Dec(false, "0", "1200"), "16", "64", Some("000")), "") == "b3.30_ms-0.057_mud-0.1200_s16t64-000"
  {
    assert MsText(MsFields(Dec(false, "3", "30"), Dec(true, "0", "057"), Dec(false, "0", "1200"), "16", "64", Some("000")), "") == "b" + ("3.30" + ("_ms" + ("-0.057" + ("_mud-" + ("0.1200" + ("_s" + ("16" + ("t" + ("64" + ("-" + ("000" + ""))))))))))) by {
      assert DecText(Dec(false, "3", "30")) == "3.30";
      assert DecText(Dec(true, "0", "057")) == "-0.057";
      assert DecText(Dec(false, "0", "1200")) == "0.1200";
    }
    SpellA125m400();
  }

  lemma SpellA125m400()
    ensures "b" + ("3.30" + ("_ms" + ("-0.057" + ("_mud-" + ("0.1200" + ("_s" + ("16" + ("t" + ("64" + ("-" + ("000" + ""))))))))))) == "b3.30_ms-0.057_mud-0.1200_s16t64-000"
  {
  }

  lemma TagA125m330()
    ensures Table[6] == ("a125m330", "b3.30_ms-0.057_mud-0.1233_s24t64-000")
    ensures FirstMatch(Patterns, Table[6].1) == MsInfo(MsFields(Dec(false, "3", "30"), Dec(true, "0", "057"), Dec(false, "0", "1233"), "24", "64", Some("000")))
    ensures EntryWell(Table[6])
    ensures MsFits(MsPattern, MsFields(Dec(false, "3", "30"), Dec(true, "0", "057"), Dec(false, "0", "1233"), "24", "64", Some("000")))
  {
    TextA125m330();
    ReadsMs(Table[6], MsFields(Dec(false, "3", "30"), Dec(true, "0", "057"), Dec(false, "0", "1233"), "24", "64", Some("000")));
  }

  lemma TextA125m330()
    ensures MsText(MsFields(Dec(false, "3", "30"), Dec(true, "0", "057"), Dec(false, "0", "1233"), "24", "64", Some("000")), "") == "b3.30_ms-0.057_mud-0.1233_s24t64-000"
  {
    assert MsText(MsFields(Dec(false, "3", "30"), Dec(true, "0", "057"), Dec(false, "0", "1233"), "24", "64", Some("000")), "") == "b" + ("3.30" + ("_ms" + ("-0.057" + ("_mud-" + ("0.1233" + ("_s" + ("24" + ("t" + ("64" + ("-" + ("000" + ""))))))))))) by {
      assert DecText(Dec(false, "3", "30")) == "3.30";
      assert DecText(Dec(true, "0", "057")) == "-0.057";
      assert DecText(Dec(false, "0", "1233")) == "0.1233";
    }
    SpellA125m330();
  }

  lemma SpellA125m330()
    ensures "b" + ("3.30" + ("_ms" + ("-0.057" + ("_mud-" + ("0.1233" + ("_s" + ("24" + ("t" + ("64" + ("-" + ("000" + ""))))))))))) == "b3.30_ms-0.057_mud-0.1233_s24t64-000"
  {
  }

  lemma TagA125m280()
    ensures Table[7] == ("a125m280", "b3.30_ms-0.057_mud-0.1265_s24t64-000")
    ensures FirstMatch(Patterns, Table[7].1) == MsInfo(MsFields(Dec(false, "3", "30"), Dec(true, "0", "057"), Dec(false, "0", "1265"), "24", "64", Some("000")))
    ensures EntryWell(Table[7])
    ensures MsFits(MsPattern, MsFields(Dec(false, "3", "30"), Dec(true, "0", "057"), Dec(false, "0", "1265"), "24", "64", Some("000")))
  {
    TextA125m280();
    ReadsMs(Table[7], MsFields(Dec(false, "3", "30"), Dec(true, "0", "057"), Dec(false, "0", "1265"), "24", "64", Some("000")));
  }

  lemma TextA125m280()
    ensures MsText(MsFields(Dec(false, "3", "30"), Dec(true, "0", "057"), Dec(false, "0", "1265"), "24", "64", Some("000")), "") == "b3.30_ms-0.057_mud-0.1265_s24t64-000"
  {
    assert MsText(MsFields(Dec(false, "3", "30"), Dec(true, "0", "057"), Dec(false, "0", "1265"), "24", "64", Some("000")), "") == "b" + ("3.30" + ("_ms" + ("-0.057" + ("_mud-" + ("0.1265" + ("_s" + ("24" + ("t" + ("64" + ("-" + ("000" + ""))))))))))) by {
      assert DecText(Dec(false, "3", "30")) == "3.30";
      assert DecText(Dec(true, "0", "057")) == "-0.057";
      assert DecText(Dec(false, "0", "1265")) == "0.1265";
    }
    SpellA125m280();
  }

  lemma SpellA125m280()
    ensures "b" + ("3.30" + ("_ms" + ("-0.057" + ("_mud-" + ("0.1265" + ("_s" + ("24" + ("t" + ("64" + ("-" + ("000" + ""))))))))))) == "b3.30_ms-0.057_mud-0.1265_s24t64-000"
  {
  }

  lemma TagB36S32t64()
    ensures Table[8] == ("b3.6_s32t64", "b3.6_mc0.25_mud-0.013_s32t64")
    ensures FirstMatch(Patterns, Table[8].1) == McInfo(McFields(Dec(false, "3", "6"), Dec(false, "0", "25"), Dec(false, "0", "013"), "32", "64"))
    ensures EntryWell(Table[8])
    ensures McFits(McFields(Dec(false, "3", "6"), Dec(false, "0", "25"), Dec(false, "0", "013"), "32", "64"))
  {
    TextB36S32t64();
    ReadsMc(Table[8], McFields(Dec(false, "3", "6"), Dec(false, "0", "25"), Dec(false, "0", "013"), "32", "64"));
  }

  lemma TextB36S32t64()
    ensures McText(McFields(Dec(false, "3", "6"), Dec(false, "0", "25"), Dec(false, "0", "013"), "32", "64"), "") == "b3.6_mc0.25_mud-0.013_s32t64"
  {
    assert McText(McFields(Dec(false, "3", "6"), Dec(false, "0", "25"), Dec(false, "0", "013"), "32", "64"), "") == "b" + ("3.6" + ("_mc" + ("0.25" + ("_mud-" + ("0.013" + ("_s" + ("32" + ("t" + ("64" + ""))))))))) by {
      assert DecText(Dec(false, "3", "6")) == "3.6";
      assert DecText(Dec(false, "0", "25")) == "0.25";
      assert DecText(Dec(false, "0", "013")) == "0.013";
    }
    SpellB36S32t64();
  }

  lemma SpellB36S32t64()
    ensures "b" + ("3.6" + ("_mc" + ("0.25" + ("_mud-" + ("0.013" + ("_s" + ("32" + ("t" + ("64" + ""))))))))) == "b3.6_mc0.25_mud-0.013_s32t64"
  {
  }

  lemma TagB36S40t64()
    ensures Table[9] == ("b3.6_s40t64", "b3.6_mc0.25_mud-0.013_s40t64")
    ensures FirstMatch(Patterns, Table[9].1) == McInfo(McFields(Dec(false, "3", "6"), Dec(false, "0", "25"), Dec(false, "0", "013"), "40", "64"))
    ensures EntryWell(Table[9])
    ensures McFits(McFields(Dec(false, "3", "6"), Dec(false, "0", "25"), Dec(false, "0", "013"), "40", "64"))
  {
    TextB36S40t64();
    ReadsMc(Table[9], McFields(Dec(false, "3", "6"), Dec(false, "0", "25"), Dec(false, "0", "013"), "40", "64"));
  }

  lemma TextB36S40t64()
    ensures McText(McFields(Dec(false, "3", "6"), Dec(false, "0", "25"), Dec(false, "0", "013"), "40", "64"), "") == "b3.6_mc0.25_mud-0.013_s40t64"
  {
    assert McText(McFields(Dec(false, "3", "6"), Dec(false, "0", "25"), Dec(false, "0", "013"), "40", "64"), "") == "b" + ("3.6" + ("_mc" + ("0.25" + ("_mud-" + ("0.013" + ("_s" + ("40" + ("t" + ("64" + ""))))))))) by {
      assert DecText(Dec(false, "3", "6")) == "3.6";
      assert DecText(Dec(false, "0", "25")) == "0.25";
      assert DecText(Dec(false, "0", "013")) == "0.013";
    }
    SpellB36S40t64();
  }

  lemma SpellB36S40t64()
    ensures "b" + ("3.6" + ("_mc" + ("0.25" + ("_mud-" + ("0.013" + ("_s" + ("40" + ("t" + ("64" + ""))))))))) == "b3.6_mc0.25_mud-0.013_s40t64"
  {
  }

  lemma TagB36S48t64()
    ensures Table[10] == ("b3.6_s48t64", "b3.6_mc0.25_mud-0.013_s48t64")
    ensures FirstMatch(Patterns, Table[10].1) == McInfo(McFields(Dec(false, "3", "6"), Dec(false, "0", "25"), Dec(false, "0", "013"), "48", "64"))
    ensures EntryWell(Table[10])
    ensures McFits(McFields(Dec(false, "3", "6"), Dec(false, "0", "25"), Dec(false, "0", "013"), "48", "64"))
  {
    TextB36S48t64();
    ReadsMc(Table[10], McFields(Dec(false, "3", "6"), Dec(false, "0", "25"), Dec(false, "0", "013"), "48", "64"));
  }

  lemma TextB36S48t64()
    ensures McText(McFields(Dec(false, "3", "6"), Dec(false, "0", "25"), Dec(false, "0", "013"), "48", "64"), "") == "b3.6_mc0.25_mud-0.013_s48t64"
  {
    assert McText(McFields(Dec(false, "3", "6"), Dec(false, "0", "25"), Dec(false, "0", "013"), "48", "64"), "") == "b" + ("3.6" + ("_mc" + ("0.25" + ("_mud-" + ("0.013" + ("_s" + ("48" + ("t" + ("64" + ""))))))))) by {
      assert DecText(Dec(false, "3", "6")) == "3.6";
      assert DecText(Dec(false, "0", "25")) == "0.25";
      assert DecText(Dec(false, "0", "013")) == "0.013";
    }
    SpellB36S48t64();
  }

  lemma SpellB36S48t64()
    ensures "b" + ("3.6" + ("_mc" + ("0.25" + ("_mud-" + ("0.013" + ("_s" + ("48" + ("t" + ("64" + ""))))))))) == "b3.6_mc0.25_mud-0.013_s48t64"
  {
  }

  lemma TagB36S64t64()
    ensures Table[11] == ("b3.6_s64t64", "b3.6_mc0.25_mud-0.013_s64t64")
    ensures FirstMatch(Patterns, Table[11].1) == McInfo(McFields(Dec(false, "3", "6"), Dec(false, "0", "25"), Dec(false, "0", "013"), "64", "64"))
    ensures EntryWell(Table[11])
    ensures McFits(McFields(Dec(false, "3", "6"), Dec(false, "0", "25"), Dec(false, "0", "013"), "64", "64"))
  {
    TextB36S64t64();
    ReadsMc(Table[11], McFields(Dec(false, "3", "6"), Dec(false, "0", "25"), Dec(false, "0", "013"), "64", "64"));
  }

  lemma TextB36S64t64()
    ensures McText(McFields(Dec(false, "3", "6"), Dec(false, "0", "25"), Dec(false, "0", "013"), "64", "64"), "") == "b3.6_mc0.25_mud-0.013_s64t64"
  {
    assert McText(McFields(Dec(false, "3", "6"), Dec(false, "0", "25"), Dec(false, "0", "013"), "64", "64"), "") == "b" + ("3.6" + ("_mc" + ("0.25" + ("_mud-" + ("0.013" + ("_s" + ("64" + ("t" + ("64" + ""))))))))) by {
      assert DecText(Dec(false, "3", "6")) == "3.6";
      assert DecText(Dec(false, "0", "25")) == "0.25";
      assert DecText(Dec(false, "0", "013")) == "0.013";
    }
    SpellB36S64t64();
  }

  lemma SpellB36S64t64()
    ensures "b" + ("3.6" + ("_mc" + ("0.25" + ("_mud-" + ("0.013" + ("_s" + ("64" + ("t" + ("64" + ""))))))))) == "b3.6_mc0.25_mud-0.013_s64t64"
  {
  }

  lemma TagB34S24t64()
    ensures Table[12] == ("b3.4_s24t64", "b3.4_mc0.33_mud-0.040_s24t64")
    ensures FirstMatch(Patterns, Table[12].1) == McInfo(McFields(Dec(false, "3", "4"), Dec(false, "0", "33"), Dec(false, "0", "040"), "24", "64"))
    ensures EntryWell(Table[12])
    ensures McFits(McFields(Dec(false, "3", "4"), Dec(false, "0", "33"), Dec(false, "0", "040"), "24", "64"))
  {
    TextB34S24t64();
    ReadsMc(Table[12], McFields(Dec(false, "3", "4"), Dec(false, "0", "33"), Dec(false, "0", "040"), "24", "64"));
  }

  lemma TextB34S24t64()
    ensures McText(McFields(Dec(false, "3", "4"), Dec(false, "0", "33"), Dec(false, "0", "040"), "24", "64"), "") == "b3.4_mc0.33_mud-0.040_s24t64"
  {
    assert McText(McFields(Dec(false, "3", "4"), Dec(false, "0", "33"), Dec(false, "0", "040"), "24", "64"), "") == "b" + ("3.4" + ("_mc" + ("0.33" + ("_mud-" + ("0.040" + ("_s" + ("24" + ("t" + ("64" + ""))))))))) by {
      assert DecText(Dec(false, "3", "4")) == "3.4";
      assert DecText(Dec(false, "0", "33")) == "0.33";
      assert DecText(Dec(false, "0", "040")) == "0.040";
    }
    SpellB34S24t64();
  }

  lemma SpellB34S24t64()
    ensures "b" + ("3.4" + ("_mc" + ("0.33" + ("_mud-" + ("0.040" + ("_s" + ("24" + ("t" + ("64" + ""))))))))) == "b3.4_mc0.33_mud-0.040_s24t64"
  {
  }

  lemma TagB34S32t64()
    ensures Table[13] == ("b3.4_s32t64", "b3.4_mc0.33_mud-0.040_s32t64")
    ensures FirstMatch(Patterns, Table[13].1) == McInfo(McFields(Dec(false, "3", "4"), Dec(false, "0", "33"), Dec(false, "0", "040"), "32", "64"))
    ensures EntryWell(Table[13])
    ensures McFits(McFields(Dec(false, "3", "4"), Dec(false, "0", "33"), Dec(false, "0", "040"), "32", "64"))
  {
    TextB34S32t64();
    ReadsMc(Table[13], McFields(Dec(false, "3", "4"), Dec(false, "0", "33"), Dec(false, "0", "040"), "32", "64"));
  }

  lemma TextB34S32t64()
    ensures McText(McFields(Dec(false, "3", "4"), Dec(false, "0", "33"), Dec(false, "0", "040"), "32", "64"), "") == "b3.4_mc0.33_mud-0.040_s32t64"
  {
    assert McText(McFields(Dec(false, "3", "4"), Dec(false, "0", "33"), Dec(false, "0", "040"), "32", "64"), "") == "b" + ("3.4" + ("_mc" + ("0.33" + ("_mud-" + ("0.040" + ("_s" + ("32" + ("t" + ("64" + ""))))))))) by {
      assert DecText(Dec(false, "3", "4")) == "3.4";
      assert DecText(Dec(false, "0", "33")) == "0.33";
      assert DecText(Dec(false, "0", "040")) == "0.040";
    }
    SpellB34S32t64();
  }

  lemma SpellB34S32t64()
    ensures "b" + ("3.4" + ("_mc" + ("0.33" + ("_mud-" + ("0.040" + ("_s" + ("32" + ("t" + ("64" + ""))))))))) == "b3.4_mc0.33_mud-0.040_s32t64"
  {
  }

  lemma TagB34S36t64()
    ensures Table[14] == ("b3.4_s36t64", "b3.4_mc0.33_mud-0.040_s36t64")
    ensures FirstMatch(Patterns, Table[14].1) == McInfo(McFields(Dec(false, "3", "4"), Dec(false, "0", "33"), Dec(false, "0", "040"), "36", "64"))
    ensures EntryWell(Table[14])
    ensures McFits(McFields(Dec(false, "3", "4"), Dec(false, "0", "33"), Dec(false, "0", "040"), "36", "64"))
  {
    TextB34S36t64();
    ReadsMc(Table[14], McFields(Dec(false, "3", "4"), Dec(false, "0", "33"), Dec(false, "0", "040"), "36", "64"));
  }

  lemma TextB34S36t64()
    ensures McText(McFields(Dec(false, "3", "4"), Dec(false, "0", "33"), Dec(false, "0", "040"), "36", "64"), "") == "b3.4_mc0.33_mud-0.040_s36t64"
  {
    assert McText(McFields(Dec(false, "3", "4"), Dec(false, "0", "33"), Dec(false, "0", "040"), "36", "64"), "") == "b" + ("3.4" + ("_mc" + ("0.33" + ("_mud-" + ("0.040" + ("_s" + ("36" + ("t" + ("64" + ""))))))))) by {
      assert DecText(Dec(false, "3", "4")) == "3.4";
      assert DecText(Dec(false, "0", "33")) == "0.33";
      assert DecText(Dec(false, "0", "040")) == "0.040";
    }
    SpellB34S36t64();
  }

  lemma SpellB34S36t64()
    ensures "b" + ("3.4" + ("_mc" + ("0.33" + ("_mud-" + ("0.040" + ("_s" + ("36" + ("t" + ("64" + ""))))))))) == "b3.4_mc0.33_mud-0.040_s36t64"
  {
  }

  lemma TagB34S48t64()
    ensures Table[15] == ("b3.4_s48t64", "b3.4_mc0.33_mud-0.040_s48t64")
    ensures FirstMatch(Patterns, Table[15].1) == McInfo(McFields(Dec(false, "3", "4"), Dec(false, "0", "33"), Dec(false, "0", "040"), "48", "64"))
    ensures EntryWell(Table[15])
    ensures McFits(McFields(Dec(false, "3", "4"), Dec(false, "0", "33"), Dec(false, "0", "040"), "48", "64"))
  {
    TextB34S48t64();
    ReadsMc(Table[15], McFields(Dec(false, "3", "4"), Dec(false, "0", "33"), Dec(false, "0", "040"), "48", "64"));
  }

  lemma TextB34S48t64()
    ensures McText(McFields(Dec(false, "3", "4"), Dec(false, "0", "33"), Dec(false, "0", "040"), "48", "64"), "") == "b3.4_mc0.33_mud-0.040_s48t64"
  {
    assert McText(McFields(Dec(false, "3", "4"), Dec(false, "0", "33"), Dec(false, "0", "040"), "48", "64"), "") == "b" + ("3.4" + ("_mc" + ("0.33" + ("_mud-" + ("0.040" + ("_s" + ("48" + ("t" + ("64" + ""))))))))) by {
      assert DecText(Dec(false, "3", "4")) == "3.4";
      assert DecText(Dec(false, "0", "33")) == "0.33";
      assert DecText(Dec(false, "0", "040")) == "0.040";
    }
    SpellB34S48t64();
  }

  lemma SpellB34S48t64()
    ensures "b" + ("3.4" + ("_mc" + ("0.33" + ("_mud-" + ("0.040" + ("_s" + ("48" + ("t" + ("64" + ""))))))))) == "b3.4_mc0.33_mud-0.040_s48t64"
  {
  }
}
