/** The second half of `parse_ensemble` in scripts/create_tasks_ens.py: from the dict of
    converted groups to the dict the generator merges into its template data, which adds
    the directory the gauge configurations live in (`cfg_path`) and the stem of their file
    names (`cfg_name`).

    As written, the choice between the two layouts reads `info['mc']`, which raises
    KeyError for every `_ms` ensemble instead of choosing the second layout.
    `DeriveAsWritten` keeps that behaviour; `Derive` makes the choice on whether the dict
    has an mc entry at all, which is what the `else` branch was written for. */
module ScriptsEnsemble {
  import opened Py
  import opened Scan
  import opened TagPatterns
  import opened EnsTags

  // ------------------------------------------------------------ the layouts

  /** Where the charm (`_mc`) ensembles are stored. */
  const Gregory := "/p/data1/slnpp/GREGORY/CONFIGS/NF3P1/"

  /** Where the `_ms` ensembles are stored. */
  const Pederiva := "/p/project1/exotichadrons/pederiva/6stout/"

  /** `B{beta}/B{beta}_M-{mud}M{mc}_L{NL}T{NT}`: the ensemble's directory below `Gregory`. */
  function GregoryDir(beta: string, mud: string, mc: string, nl: string, nt: string): string
  {
    "B" + (beta + ("/B" + (beta + ("_M-" + (mud + ("M" + (mc + ("_L" + (nl + ("T" + nt))))))))))
  }

  /** The configurations' directory below `Gregory`: the ensemble's, then `/NS8_LS1_G2`. */
  function GregoryTail(beta: string, mud: string, mc: string, nl: string, nt: string): string
  {
    GregoryDir(beta, mud, mc, nl, nt) + "/NS8_LS1_G2"
  }

  /** `test_b{beta}_m{mud}m{mc}_l{NL}t{NT}_nf3p1_cfg_`. */
  function McCfgName(beta: string, mud: string, mc: string, nl: string, nt: string): string
  {
    "test_b" + (beta + ("_m" + (mud + ("m" + (mc + ("_l" + (nl + ("t" + (nt + "_nf3p1_cfg_")))))))))
  }

  /** `beta_{beta}/ms_{ms}/mud_-{mud}/s{NL}t{NT}/cnfg/`, below `Pederiva`. */
  function PederivaTail(beta: string, ms: string, mud: string, nl: string, nt: string): string
  {
    "beta_" + (beta + ("/ms_" + (ms + ("/mud_-" + (mud + ("/s" + (nl + ("t" + (nt + "/cnfg/")))))))))
  }

  /** `b{beta}_ms{ms}_mud-{mud}_s{NL}t{NT}-{P}-n_cfg_`. */
  function MsCfgName(beta: string, ms: string, mud: string, nl: string, nt: string, p: string): string
  {
    "b" + (beta + ("_ms" + (ms + ("_mud-" + (mud + ("_s" + (nl + ("t" + (nt + ("-" + (p + "-n_cfg_")))))))))))
  }

  // --------------------------------------------------------- the derivation

  /** The derivation as the `if`/`else` evidently means it: the charm layout when the dict
      has an mc entry, the `_ms` layout otherwise. The f-strings read their keys left to
      right, so a missing key raises KeyError for the first one they read. */
  function Derive(info: Info): (r: Result<Info>)
    ensures r.Ok? ==> r.value.Keys == info.Keys + {CfgPath, CfgName}
    ensures r.Ok? ==> forall k | k in info && k != CfgPath && k != CfgName :: r.value[k] == info[k]
    ensures r.Ok? ==> r.value[CfgPath].Str? && r.value[CfgName].Str?
    ensures Mc in info ==> (r.Ok? <==> Beta in info && Mud in info && NL in info && NT in info)
    ensures Mc !in info ==> (r.Ok? <==> Beta in info && Ms in info && Mud in info && NL in info && NT in info && P in info)
  {
    if Mc in info then
      var beta :- Get(info, Beta);
      var mud :- Get(info, Mud);
      var mc := info[Mc];
      var nl :- Get(info, NL);
      var nt :- Get(info, NT);
      var path := Gregory + GregoryTail(Show(beta), Show(mud), Show(mc), Show(nl), Show(nt));
      var name := McCfgName(Show(beta), Show(mud), Show(mc), Show(nl), Show(nt));
      Ok(info[CfgPath := Str(path)][CfgName := Str(name)])
    else
      var beta :- Get(info, Beta);
      var ms :- Get(info, Ms);
      var mud :- Get(info, Mud);
      var nl :- Get(info, NL);
      var nt :- Get(info, NT);
      var p :- Get(info, P);
      var path := Pederiva + PederivaTail(Show(beta), Show(ms), Show(mud), Show(nl), Show(nt));
      var name := MsCfgName(Show(beta), Show(ms), Show(mud), Show(nl), Show(nt), Show(p));
      Ok(info[CfgPath := Str(path)][CfgName := Str(name)])
  }

  /** The derivation as written: `info['mc'] is not None` looks the key up first, so a dict
      without mc raises KeyError('mc') and never reaches the `_ms` layout. */
  function DeriveAsWritten(info: Info): (r: Result<Info>)
    ensures Mc !in info ==> r == Err(KeyError("mc"))
    ensures Mc in info ==> r == Derive(info)
  {
    if Mc !in info then Err(KeyError("mc")) else Derive(info)
  }

  /** `parse_ensemble(short_tag)`, with the derivation as intended. */
  function ParseEnsemble(shortTag: string): (r: Result<Info>)
    ensures shortTag !in LongTag ==> r == Err(ValueError("Unknown ensemble short tag: " + shortTag))
    ensures r.Ok? ==> NL in r.value && NT in r.value && CfgPath in r.value && CfgName in r.value
  {
    var info :- Decode(shortTag);
    Derive(info)
  }

  /** `parse_ensemble(short_tag)` as written. */
  function ParseEnsembleAsWritten(shortTag: string): (r: Result<Info>)
    ensures shortTag !in LongTag ==> r == Err(ValueError("Unknown ensemble short tag: " + shortTag))
    ensures r.Ok? ==> NL in r.value && NT in r.value && CfgPath in r.value && CfgName in r.value
  {
    var info :- Decode(shortTag);
    DeriveAsWritten(info)
  }

  // ------------------------------------------------- what the layouts give

  /** An int field shows as the digits it was read from, when they have no leading zero. */
  lemma ShowDigits(s: string)
    requires Digits(s) && Canonical(s)
    ensures Show(IntOf(s)) == s
  {
    CanonicalRoundTrip(s);
  }

  /** The long tag followed by more text is the long tag with that text as its tail. */
  lemma MsTextAppend(f: MsFields, rest: string)
    requires f.p.Some?
    ensures MsText(f, "") + rest == MsText(f, rest)
  {
    var p := f.p.value;
    var s := SizeText(f.nl, f.nt, PText(f.p, ""));
    assert s + rest == SizeText(f.nl, f.nt, PText(f.p, rest)) by {
      assert PText(f.p, "") + rest == PText(f.p, rest) by {
        assert p + "" + rest == p + rest;
      }
    }
  }

  /** For a `_ms` dict read from a tag whose extents have no leading zeros, the file-name
      stem is the long tag followed by `-n_cfg_`. */
  lemma DeriveMs(f: MsFields)
    requires Digits(f.nl) && Digits(f.nt) && Canonical(f.nl) && Canonical(f.nt) && f.p.Some?
    ensures Derive(MsInfo(f)).Ok?
    ensures Derive(MsInfo(f)).value[CfgName] == Str(MsText(f, "") + "-n_cfg_")
  {
    ShowDigits(f.nl);
    ShowDigits(f.nt);
    MsTextAppend(f, "-n_cfg_");
  }

  /** For a `_mc` dict read from a tag whose extents have no leading zeros, the
      configuration directory is `Gregory` followed by the fields in the layout's order. */
  lemma DeriveMc(f: McFields)
    requires Digits(f.nl) && Digits(f.nt) && Canonical(f.nl) && Canonical(f.nt)
    ensures Derive(McInfo(f)).Ok?
    ensures Derive(McInfo(f)).value[CfgPath] ==
      Str(Gregory + GregoryTail(DecText(f.beta), DecText(f.mud), DecText(f.mc), f.nl, f.nt))
    ensures Derive(McInfo(f)).value[CfgName] ==
      Str(McCfgName(DecText(f.beta), DecText(f.mud), DecText(f.mc), f.nl, f.nt))
  {
    ShowDigits(f.nl);
    ShowDigits(f.nt);
  }

  // ------------------------------------------------ the table's ensembles

  /** The configuration directories of the charm ensembles, as the documentation of
      `parse_ensemble` lists them (the beta = 3.4 ones with a trailing '/'). */
  const DocPaths: seq<string> := [
    Gregory + "B3.6/B3.6_M-0.013M0.25_L32T64/NS8_LS1_G2",
    Gregory + "B3.6/B3.6_M-0.013M0.25_L40T64/NS8_LS1_G2",
    Gregory + "B3.6/B3.6_M-0.013M0.25_L48T64/NS8_LS1_G2",
    Gregory + "B3.6/B3.6_M-0.013M0.25_L64T64/NS8_LS1_G2",
    Gregory + "B3.4/B3.4_M-0.040M0.33_L24T64/NS8_LS1_G2/",
    Gregory + "B3.4/B3.4_M-0.040M0.33_L32T64/NS8_LS1_G2/",
    Gregory + "B3.4/B3.4_M-0.040M0.33_L36T64/NS8_LS1_G2/",
    Gregory + "B3.4/B3.4_M-0.040M0.33_L48T64/NS8_LS1_G2/"
  ]

  /** `path` is one of the documented directories, up to the trailing '/'. */
  predicate Documented(path: string)
  {
    exists k | 0 <= k < |DocPaths| :: DocPaths[k] == path || DocPaths[k] == path + "/"
  }

  /** What the derivation gives for a table entry: it succeeds; a charm ensemble lands in a
      documented directory, and the file-name stem of an `_ms` ensemble is its long tag
      followed by `-n_cfg_`. */
  predicate EntryDerives(e: (string, string))
  {
    var r := Derive(FirstMatch(Patterns, e.1));
    r.Ok? &&
    (McStyleTag(e.0) ==> Documented(r.value[CfgPath].s)) &&
    (!McStyleTag(e.0) ==> r.value[CfgName].s == e.1 + "-n_cfg_")
  }

  /** `doc` is the directory derived for the charm entry `e`, up to the trailing '/'. */
  predicate DerivesDoc(e: (string, string), doc: string)
  {
    var r := Derive(FirstMatch(Patterns, e.1));
    McStyleTag(e.0) && r.Ok? && (doc == r.value[CfgPath].s || doc == r.value[CfgPath].s + "/")
  }

  /** The k-th documented directory is the one derived for the k-th charm ensemble. */
  predicate DocEntry(k: nat)
    requires k < |DocPaths| && k + 8 < |Table|
  {
    DerivesDoc(Table[k + 8], DocPaths[k])
  }

  /** Every ensemble of the table parses, with the intended derivation; the charm ones
      land in a documented directory, and the `_ms` ones get their long tag as the stem
      of their file names. */
  lemma ParseEnsembleTable(tag: string)
    requires tag in LongTag
    ensures ParseEnsemble(tag).Ok?
    ensures McStyleTag(tag) ==> Documented(ParseEnsemble(tag).value[CfgPath].s)
    ensures !McStyleTag(tag) ==> ParseEnsemble(tag).value[CfgName].s == LongTag[tag] + "-n_cfg_"
  {
    TableDerives();
    DictOfValue(Table, tag);
  }

  /** As written, every `_ms` ensemble of the table raises KeyError('mc'). */
  lemma ParseEnsembleAsWrittenMs(tag: string)
    requires tag in LongTag && !McStyleTag(tag)
    ensures ParseEnsembleAsWritten(tag) == Err(KeyError("mc"))
    ensures ParseEnsemble(tag).Ok?
  {
    TableDecodes(tag);
    ParseEnsembleTable(tag);
  }

  /** For the charm ensembles the code as written and the intended derivation agree. */
  lemma ParseEnsembleAsWrittenMc(tag: string)
    requires tag in LongTag && McStyleTag(tag)
    ensures ParseEnsembleAsWritten(tag) == ParseEnsemble(tag)
  {
    TableDecodes(tag);
  }

  /** Every documented directory is the one some charm ensemble of the table derives. */
  lemma DocPathsDerived()
    ensures forall k | 0 <= k < |DocPaths| :: Parsed(DocPaths[k])
  {
    forall k | 0 <= k < |DocPaths|
      ensures Parsed(DocPaths[k])
    {
      if k == 0 { DocParsedB36S32t64(); }
      else if k == 1 { DocParsedB36S40t64(); }
      else if k == 2 { DocParsedB36S48t64(); }
      else if k == 3 { DocParsedB36S64t64(); }
      else if k == 4 { DocParsedB34S24t64(); }
      else if k == 5 { DocParsedB34S32t64(); }
      else if k == 6 { DocParsedB34S36t64(); }
      else { DocParsedB34S48t64(); }
    }
  }

  /** Some `_mc` long tag parses to `path`, up to a trailing slash. */
  ghost predicate Parsed(path: string)
  {
    exists tag | tag in LongTag ::
      McStyleTag(tag) && ParseEnsemble(tag).Ok? &&
      (path == ParseEnsemble(tag).value[CfgPath].s || path == ParseEnsemble(tag).value[CfgPath].s + "/")
  }

  lemma DocParsedB36S32t64()
    ensures Parsed(DocPaths[0])
  {
    DerivesB36S32t64();
    TableKeysDistinct();
    DictOfLast(Table, 8);
    DocDerivedFrom(Table[8], DocPaths[0]);
  }

  lemma DocParsedB36S40t64()
    ensures Parsed(DocPaths[1])
  {
    DerivesB36S40t64();
    TableKeysDistinct();
    DictOfLast(Table, 9);
    DocDerivedFrom(Table[9], DocPaths[1]);
  }

  lemma DocParsedB36S48t64()
    ensures Parsed(DocPaths[2])
  {
    DerivesB36S48t64();
    TableKeysDistinct();
    DictOfLast(Table, 10);
    DocDerivedFrom(Table[10], DocPaths[2]);
  }

  lemma DocParsedB36S64t64()
    ensures Parsed(DocPaths[3])
  {
    DerivesB36S64t64();
    TableKeysDistinct();
    DictOfLast(Table, 11);
    DocDerivedFrom(Table[11], DocPaths[3]);
  }

  lemma DocParsedB34S24t64()
    ensures Parsed(DocPaths[4])
  {
    DerivesB34S24t64();
    TableKeysDistinct();
    DictOfLast(Table, 12);
    DocDerivedFrom(Table[12], DocPaths[4]);
  }

  lemma DocParsedB34S32t64()
    ensures Parsed(DocPaths[5])
  {
    DerivesB34S32t64();
    TableKeysDistinct();
    DictOfLast(Table, 13);
    DocDerivedFrom(Table[13], DocPaths[5]);
  }

  lemma DocParsedB34S36t64()
    ensures Parsed(DocPaths[6])
  {
    DerivesB34S36t64();
    TableKeysDistinct();
    DictOfLast(Table, 14);
    DocDerivedFrom(Table[14], DocPaths[6]);
  }

  lemma DocParsedB34S48t64()
    ensures Parsed(DocPaths[7])
  {
    DerivesB34S48t64();
    TableKeysDistinct();
    DictOfLast(Table, 15);
    DocDerivedFrom(Table[15], DocPaths[7]);
  }

  lemma DocDerivedFrom(e: (string, string), doc: string)
    requires e.0 in LongTag && LongTag[e.0] == e.1 && DerivesDoc(e, doc)
    ensures Parsed(doc)
  {
    assert ParseEnsemble(e.0) == Derive(FirstMatch(Patterns, e.1));
  }

  /** A `_ms` entry read into fields whose extents have no leading zeros derives its
      file-name stem from its long tag. */
  lemma MsEntryDerives(e: (string, string), f: MsFields)
    requires Digits(f.nl) && Digits(f.nt) && Canonical(f.nl) && Canonical(f.nt) && f.p.Some?
    requires FirstMatch(Patterns, e.1) == MsInfo(f) && e.1 == MsText(f, "") && !McStyleTag(e.0)
    ensures EntryDerives(e)
  {
    DeriveMs(f);
  }

  /** A charm entry read into fields whose extents have no leading zeros derives the
      directory the layout spells out from those fields. */
  lemma McEntryDerives(e: (string, string), f: McFields, doc: string)
    requires McStyleTag(e.0)
    requires Digits(f.nl) && Digits(f.nt) && Canonical(f.nl) && Canonical(f.nt)
    requires FirstMatch(Patterns, e.1) == McInfo(f)
    requires var t := GregoryTail(DecText(f.beta), DecText(f.mud), DecText(f.mc), f.nl, f.nt);
      doc == Gregory + t || doc == Gregory + (t + "/")
    ensures DerivesDoc(e, doc)
  {
    DeriveMc(f);
    var t := GregoryTail(DecText(f.beta), DecText(f.mud), DecText(f.mc), f.nl, f.nt);
    assert Gregory + (t + "/") == (Gregory + t) + "/";
  }

  /** A charm entry that derives a documented directory derives as `EntryDerives` says. */
  lemma DocEntryDerives(k: nat)
    requires k < |DocPaths| && k + 8 < |Table| && DocEntry(k)
    ensures EntryDerives(Table[k + 8])
  {
  }

  lemma TableDocumented()
    ensures forall k | 0 <= k < |DocPaths| :: DocEntry(k)
  {
    forall k | 0 <= k < |DocPaths|
      ensures DocEntry(k)
    {
      if k == 0 { DerivesB36S32t64(); }
      else if k == 1 { DerivesB36S40t64(); }
      else if k == 2 { DerivesB36S48t64(); }
      else if k == 3 { DerivesB36S64t64(); }
      else if k == 4 { DerivesB34S24t64(); }
      else if k == 5 { DerivesB34S32t64(); }
      else if k == 6 { DerivesB34S36t64(); }
      else { DerivesB34S48t64(); }
    }
  }

  /** No short tag is listed twice. */
  lemma TableKeysDistinct()
    ensures forall i, j | 0 <= i < j < |Table| :: Table[i].0 != Table[j].0
  {
  }

  /** Every entry of the table derives, each in its layout. */
  lemma TableDerives()
    ensures forall i | 0 <= i < |Table| :: EntryDerives(Table[i])
  {
    forall i | 0 <= i < |Table|
      ensures EntryDerives(Table[i])
    {
      if i == 0 { DerivesA065m420(); }
      else if i == 1 { DerivesA065m300(); }
      else if i == 2 { DerivesA085m420(); }
      else if i == 3 { DerivesA085m300(); }
      else if i == 4 { DerivesA085m200(); }
      else if i == 5 { DerivesA125m400(); }
      else if i == 6 { DerivesA125m330(); }
      else if i == 7 { DerivesA125m280(); }
      else if i == 8 { DerivesB36S32t64(); DocEntryDerives(0); }
      else if i == 9 { DerivesB36S40t64(); DocEntryDerives(1); }
      else if i == 10 { DerivesB36S48t64(); DocEntryDerives(2); }
      else if i == 11 { DerivesB36S64t64(); DocEntryDerives(3); }
      else if i == 12 { DerivesB34S24t64(); DocEntryDerives(4); }
      else if i == 13 { DerivesB34S32t64(); DocEntryDerives(5); }
      else if i == 14 { DerivesB34S36t64(); DocEntryDerives(6); }
      else { DerivesB34S48t64(); DocEntryDerives(7); }
    }
  }

  lemma DerivesA065m420()
    ensures EntryDerives(Table[0])
  {
    TagA065m420();
    TextA065m420();
    MsEntryDerives(Table[0], MsFields(Dec(false, "3", "70"), Dec(true, "0", "000"), Dec(false, "0", "020"), "32", "96", Some("000")));
  }

  lemma DerivesA065m300()
    ensures EntryDerives(Table[1])
  {
    TagA065m300();
    TextA065m300();
    MsEntryDerives(Table[1], MsFields(Dec(false, "3", "70"), Dec(true, "0", "000"), Dec(false, "0", "025"), "40", "96", Some("000")));
  }

  lemma DerivesA085m420()
    ensures EntryDerives(Table[2])
  {
    TagA085m420();
    TextA085m420();
    MsEntryDerives(Table[2], MsFields(Dec(false, "3", "57"), Dec(true, "0", "007"), Dec(false, "0", "038"), "24", "64", Some("000")));
  }

  lemma DerivesA085m300()
    ensures EntryDerives(Table[3])
  {
    TagA085m300();
    TextA085m300();
    MsEntryDerives(Table[3], MsFields(Dec(false, "3", "57"), Dec(true, "0", "007"), Dec(false, "0", "044"), "32", "64", Some("000")));
  }

  lemma DerivesA085m200()
    ensures EntryDerives(Table[4])
  {
    TagA085m200();
    TextA085m200();
    MsEntryDerives(Table[4], MsFields(Dec(false, "3", "57"), Dec(true, "0", "007"), Dec(false, "0", "048"), "48", "64", Some("000")));
  }

  lemma DerivesA125m400()
    ensures EntryDerives(Table[5])
  {
    TagA125m400();
    TextA125m400();
    MsEntryDerives(Table[5], MsFields(Dec(false, "3", "30"), Dec(true, "0", "057"), Dec(false, "0", "1200"), "16", "64", Some("000")));
  }

  lemma DerivesA125m330()
    ensures EntryDerives(Table[6])
  {
    TagA125m330();
    TextA125m330();
    MsEntryDerives(Table[6], MsFields(Dec(false, "3", "30"), Dec(true, "0", "057"), Dec(false, "0", "1233"), "24", "64", Some("000")));
  }

  lemma DerivesA125m280()
    ensures EntryDerives(Table[7])
  {
    TagA125m280();
    TextA125m280();
    MsEntryDerives(Table[7], MsFields(Dec(false, "3", "30"), Dec(true, "0", "057"), Dec(false, "0", "1265"), "24", "64", Some("000")));
  }

  lemma DerivesB36S32t64()
    ensures DocEntry(0)
  {
    TagB36S32t64();
    PathB36S32t64();
    McEntryDerives(Table[8], McFields(Dec(false, "3", "6"), Dec(false, "0", "25"), Dec(false, "0", "013"), "32", "64"), DocPaths[0]);
  }

  lemma PathB36S32t64()
    ensures DocPaths[0] == Gregory + GregoryTail(DecText(Dec(false, "3", "6")), DecText(Dec(false, "0", "013")), DecText(Dec(false, "0", "25")), "32", "64")
  {
    assert GregoryDir(DecText(Dec(false, "3", "6")), DecText(Dec(false, "0", "013")), DecText(Dec(false, "0", "25")), "32", "64") == "B" + ("3.6" + ("/B" + ("3.6" + ("_M-" + ("0.013" + ("M" + ("0.25" + ("_L" + ("32" + ("T" + "64")))))))))) by {
      assert DecText(Dec(false, "3", "6")) == "3.6";
      assert DecText(Dec(false, "0", "013")) == "0.013";
      assert DecText(Dec(false, "0", "25")) == "0.25";
    }
    SpellDirB36S32t64();
    JoinB36S32t64();
    DocB36S32t64();
  }

  lemma SpellDirB36S32t64()
    ensures "B" + ("3.6" + ("/B" + ("3.6" + ("_M-" + ("0.013" + ("M" + ("0.25" + ("_L" + ("32" + ("T" + "64")))))))))) == "B3.6/B3.6_M-0.013M0.25_L32T64"
  {
  }

  lemma JoinB36S32t64()
    ensures "B3.6/B3.6_M-0.013M0.25_L32T64" + "/NS8_LS1_G2" == "B3.6/B3.6_M-0.013M0.25_L32T64/NS8_LS1_G2"
  {
  }

  lemma DocB36S32t64()
    ensures DocPaths[0] == Gregory + "B3.6/B3.6_M-0.013M0.25_L32T64/NS8_LS1_G2"
  {
  }

  lemma DerivesB36S40t64()
    ensures DocEntry(1)
  {
    TagB36S40t64();
    PathB36S40t64();
    McEntryDerives(Table[9], McFields(Dec(false, "3", "6"), Dec(false, "0", "25"), Dec(false, "0", "013"), "40", "64"), DocPaths[1]);
  }

  lemma PathB36S40t64()
    ensures DocPaths[1] == Gregory + GregoryTail(DecText(Dec(false, "3", "6")), DecText(Dec(false, "0", "013")), DecText(Dec(false, "0", "25")), "40", "64")
  {
    assert GregoryDir(DecText(Dec(false, "3", "6")), DecText(Dec(false, "0", "013")), DecText(Dec(false, "0", "25")), "40", "64") == "B" + ("3.6" + ("/B" + ("3.6" + ("_M-" + ("0.013" + ("M" + ("0.25" + ("_L" + ("40" + ("T" + "64")))))))))) by {
      assert DecText(Dec(false, "3", "6")) == "3.6";
      assert DecText(Dec(false, "0", "013")) == "0.013";
      assert DecText(Dec(false, "0", "25")) == "0.25";
    }
    SpellDirB36S40t64();
    JoinB36S40t64();
    DocB36S40t64();
  }

  lemma SpellDirB36S40t64()
    ensures "B" + ("3.6" + ("/B" + ("3.6" + ("_M-" + ("0.013" + ("M" + ("0.25" + ("_L" + ("40" + ("T" + "64")))))))))) == "B3.6/B3.6_M-0.013M0.25_L40T64"
  {
  }

  lemma JoinB36S40t64()
    ensures "B3.6/B3.6_M-0.013M0.25_L40T64" + "/NS8_LS1_G2" == "B3.6/B3.6_M-0.013M0.25_L40T64/NS8_LS1_G2"
  {
  }

  lemma DocB36S40t64()
    ensures DocPaths[1] == Gregory + "B3.6/B3.6_M-0.013M0.25_L40T64/NS8_LS1_G2"
  {
  }

  lemma DerivesB36S48t64()
    ensures DocEntry(2)
  {
    TagB36S48t64();
    PathB36S48t64();
    McEntryDerives(Table[10], McFields(Dec(false, "3", "6"), Dec(false, "0", "25"), Dec(false, "0", "013"), "48", "64"), DocPaths[2]);
  }

  lemma PathB36S48t64()
    ensures DocPaths[2] == Gregory + GregoryTail(DecText(Dec(false, "3", "6")), DecText(Dec(false, "0", "013")), DecText(Dec(false, "0", "25")), "48", "64")
  {
    assert GregoryDir(DecText(Dec(false, "3", "6")), DecText(Dec(false, "0", "013")), DecText(Dec(false, "0", "25")), "48", "64") == "B" + ("3.6" + ("/B" + ("3.6" + ("_M-" + ("0.013" + ("M" + ("0.25" + ("_L" + ("48" + ("T" + "64")))))))))) by {
      assert DecText(Dec(false, "3", "6")) == "3.6";
      assert DecText(Dec(false, "0", "013")) == "0.013";
      assert DecText(Dec(false, "0", "25")) == "0.25";
    }
    SpellDirB36S48t64();
    JoinB36S48t64();
    DocB36S48t64();
  }

  lemma SpellDirB36S48t64()
    ensures "B" + ("3.6" + ("/B" + ("3.6" + ("_M-" + ("0.013" + ("M" + ("0.25" + ("_L" + ("48" + ("T" + "64")))))))))) == "B3.6/B3.6_M-0.013M0.25_L48T64"
  {
  }

  lemma JoinB36S48t64()
    ensures "B3.6/B3.6_M-0.013M0.25_L48T64" + "/NS8_LS1_G2" == "B3.6/B3.6_M-0.013M0.25_L48T64/NS8_LS1_G2"
  {
  }

  lemma DocB36S48t64()
    ensures DocPaths[2] == Gregory + "B3.6/B3.6_M-0.013M0.25_L48T64/NS8_LS1_G2"
  {
  }

  lemma DerivesB36S64t64()
    ensures DocEntry(3)
  {
    TagB36S64t64();
    PathB36S64t64();
    McEntryDerives(Table[11], McFields(Dec(false, "3", "6"), Dec(false, "0", "25"), Dec(false, "0", "013"), "64", "64"), DocPaths[3]);
  }

  lemma PathB36S64t64()
    ensures DocPaths[3] == Gregory + GregoryTail(DecText(Dec(false, "3", "6")), DecText(Dec(false, "0", "013")), DecText(Dec(false, "0", "25")), "64", "64")
  {
    assert GregoryDir(DecText(Dec(false, "3", "6")), DecText(Dec(false, "0", "013")), DecText(Dec(false, "0", "25")), "64", "64") == "B" + ("3.6" + ("/B" + ("3.6" + ("_M-" + ("0.013" + ("M" + ("0.25" + ("_L" + ("64" + ("T" + "64")))))))))) by {
      assert DecText(Dec(false, "3", "6")) == "3.6";
      assert DecText(Dec(false, "0", "013")) == "0.013";
      assert DecText(Dec(false, "0", "25")) == "0.25";
    }
    SpellDirB36S64t64();
    JoinB36S64t64();
    DocB36S64t64();
  }

  lemma SpellDirB36S64t64()
    ensures "B" + ("3.6" + ("/B" + ("3.6" + ("_M-" + ("0.013" + ("M" + ("0.25" + ("_L" + ("64" + ("T" + "64")))))))))) == "B3.6/B3.6_M-0.013M0.25_L64T64"
  {
  }

  lemma JoinB36S64t64()
    ensures "B3.6/B3.6_M-0.013M0.25_L64T64" + "/NS8_LS1_G2" == "B3.6/B3.6_M-0.013M0.25_L64T64/NS8_LS1_G2"
  {
  }

  lemma DocB36S64t64()
    ensures DocPaths[3] == Gregory + "B3.6/B3.6_M-0.013M0.25_L64T64/NS8_LS1_G2"
  {
  }

  lemma DerivesB34S24t64()
    ensures DocEntry(4)
  {
    TagB34S24t64();
    PathB34S24t64();
    McEntryDerives(Table[12], McFields(Dec(false, "3", "4"), Dec(false, "0", "33"), Dec(false, "0", "040"), "24", "64"), DocPaths[4]);
  }

  lemma PathB34S24t64()
    ensures DocPaths[4] == Gregory + (GregoryTail(DecText(Dec(false, "3", "4")), DecText(Dec(false, "0", "040")), DecText(Dec(false, "0", "33")), "24", "64") + "/")
  {
    assert GregoryDir(DecText(Dec(false, "3", "4")), DecText(Dec(false, "0", "040")), DecText(Dec(false, "0", "33")), "24", "64") == "B" + ("3.4" + ("/B" + ("3.4" + ("_M-" + ("0.040" + ("M" + ("0.33" + ("_L" + ("24" + ("T" + "64")))))))))) by {
      assert DecText(Dec(false, "3", "4")) == "3.4";
      assert DecText(Dec(false, "0", "040")) == "0.040";
      assert DecText(Dec(false, "0", "33")) == "0.33";
    }
    SpellDirB34S24t64();
    JoinB34S24t64();
    SlashB34S24t64();
    DocB34S24t64();
  }

  lemma SpellDirB34S24t64()
    ensures "B" + ("3.4" + ("/B" + ("3.4" + ("_M-" + ("0.040" + ("M" + ("0.33" + ("_L" + ("24" + ("T" + "64")))))))))) == "B3.4/B3.4_M-0.040M0.33_L24T64"
  {
  }

  lemma JoinB34S24t64()
    ensures "B3.4/B3.4_M-0.040M0.33_L24T64" + "/NS8_LS1_G2" == "B3.4/B3.4_M-0.040M0.33_L24T64/NS8_LS1_G2"
  {
  }

  lemma SlashB34S24t64()
    ensures "B3.4/B3.4_M-0.040M0.33_L24T64/NS8_LS1_G2" + "/" == "B3.4/B3.4_M-0.040M0.33_L24T64/NS8_LS1_G2/"
  {
  }

  lemma DocB34S24t64()
    ensures DocPaths[4] == Gregory + "B3.4/B3.4_M-0.040M0.33_L24T64/NS8_LS1_G2/"
  {
  }

  lemma DerivesB34S32t64()
    ensures DocEntry(5)
  {
    TagB34S32t64();
    PathB34S32t64();
    McEntryDerives(Table[13], McFields(Dec(false, "3", "4"), Dec(false, "0", "33"), Dec(false, "0", "040"), "32", "64"), DocPaths[5]);
  }

  lemma PathB34S32t64()
    ensures DocPaths[5] == Gregory + (GregoryTail(DecText(Dec(false, "3", "4")), DecText(Dec(false, "0", "040")), DecText(Dec(false, "0", "33")), "32", "64") + "/")
  {
    assert GregoryDir(DecText(Dec(false, "3", "4")), DecText(Dec(false, "0", "040")), DecText(Dec(false, "0", "33")), "32", "64") == "B" + ("3.4" + ("/B" + ("3.4" + ("_M-" + ("0.040" + ("M" + ("0.33" + ("_L" + ("32" + ("T" + "64")))))))))) by {
      assert DecText(Dec(false, "3", "4")) == "3.4";
      assert DecText(Dec(false, "0", "040")) == "0.040";
      assert DecText(Dec(false, "0", "33")) == "0.33";
    }
    SpellDirB34S32t64();
    JoinB34S32t64();
    SlashB34S32t64();
    DocB34S32t64();
  }

  lemma SpellDirB34S32t64()
    ensures "B" + ("3.4" + ("/B" + ("3.4" + ("_M-" + ("0.040" + ("M" + ("0.33" + ("_L" + ("32" + ("T" + "64")))))))))) == "B3.4/B3.4_M-0.040M0.33_L32T64"
  {
  }

  lemma JoinB34S32t64()
    ensures "B3.4/B3.4_M-0.040M0.33_L32T64" + "/NS8_LS1_G2" == "B3.4/B3.4_M-0.040M0.33_L32T64/NS8_LS1_G2"
  {
  }

  lemma SlashB34S32t64()
    ensures "B3.4/B3.4_M-0.040M0.33_L32T64/NS8_LS1_G2" + "/" == "B3.4/B3.4_M-0.040M0.33_L32T64/NS8_LS1_G2/"
  {
  }

  lemma DocB34S32t64()
    ensures DocPaths[5] == Gregory + "B3.4/B3.4_M-0.040M0.33_L32T64/NS8_LS1_G2/"
  {
  }

  lemma DerivesB34S36t64()
    ensures DocEntry(6)
  {
    TagB34S36t64();
    PathB34S36t64();
    McEntryDerives(Table[14], McFields(Dec(false, "3", "4"), Dec(false, "0", "33"), Dec(false, "0", "040"), "36", "64"), DocPaths[6]);
  }

  lemma PathB34S36t64()
    ensures DocPaths[6] == Gregory + (GregoryTail(DecText(Dec(false, "3", "4")), DecText(Dec(false, "0", "040")), DecText(Dec(false, "0", "33")), "36", "64") + "/")
  {
    assert GregoryDir(DecText(Dec(false, "3", "4")), DecText(Dec(false, "0", "040")), DecText(Dec(false, "0", "33")), "36", "64") == "B" + ("3.4" + ("/B" + ("3.4" + ("_M-" + ("0.040" + ("M" + ("0.33" + ("_L" + ("36" + ("T" + "64")))))))))) by {
      assert DecText(Dec(false, "3", "4")) == "3.4";
      assert DecText(Dec(false, "0", "040")) == "0.040";
      assert DecText(Dec(false, "0", "33")) == "0.33";
    }
    SpellDirB34S36t64();
    JoinB34S36t64();
    SlashB34S36t64();
    DocB34S36t64();
  }

  lemma SpellDirB34S36t64()
    ensures "B" + ("3.4" + ("/B" + ("3.4" + ("_M-" + ("0.040" + ("M" + ("0.33" + ("_L" + ("36" + ("T" + "64")))))))))) == "B3.4/B3.4_M-0.040M0.33_L36T64"
  {
  }

  lemma JoinB34S36t64()
    ensures "B3.4/B3.4_M-0.040M0.33_L36T64" + "/NS8_LS1_G2" == "B3.4/B3.4_M-0.040M0.33_L36T64/NS8_LS1_G2"
  {
  }

  lemma SlashB34S36t64()
    ensures "B3.4/B3.4_M-0.040M0.33_L36T64/NS8_LS1_G2" + "/" == "B3.4/B3.4_M-0.040M0.33_L36T64/NS8_LS1_G2/"
  {
  }

  lemma DocB34S36t64()
    ensures DocPaths[6] == Gregory + "B3.4/B3.4_M-0.040M0.33_L36T64/NS8_LS1_G2/"
  {
  }

  lemma DerivesB34S48t64()
    ensures DocEntry(7)
  {
    TagB34S48t64();
    PathB34S48t64();
    McEntryDerives(Table[15], McFields(Dec(false, "3", "4"), Dec(false, "0", "33"), Dec(false, "0", "040"), "48", "64"), DocPaths[7]);
  }

  lemma PathB34S48t64()
    ensures DocPaths[7] == Gregory + (GregoryTail(DecText(Dec(false, "3", "4")), DecText(Dec(false, "0", "040")), DecText(Dec(false, "0", "33")), "48", "64") + "/")
  {
    assert GregoryDir(DecText(Dec(false, "3", "4")), DecText(Dec(false, "0", "040")), DecText(Dec(false, "0", "33")), "48", "64") == "B" + ("3.4" + ("/B" + ("3.4" + ("_M-" + ("0.040" + ("M" + ("0.33" + ("_L" + ("48" + ("T" + "64")))))))))) by {
      assert DecText(Dec(false, "3", "4")) == "3.4";
      assert DecText(Dec(false, "0", "040")) == "0.040";
      assert DecText(Dec(false, "0", "33")) == "0.33";
    }
    SpellDirB34S48t64();
    JoinB34S48t64();
    SlashB34S48t64();
    DocB34S48t64();
  }

  lemma SpellDirB34S48t64()
    ensures "B" + ("3.4" + ("/B" + ("3.4" + ("_M-" + ("0.040" + ("M" + ("0.33" + ("_L" + ("48" + ("T" + "64")))))))))) == "B3.4/B3.4_M-0.040M0.33_L48T64"
  {
  }

  lemma JoinB34S48t64()
    ensures "B3.4/B3.4_M-0.040M0.33_L48T64" + "/NS8_LS1_G2" == "B3.4/B3.4_M-0.040M0.33_L48T64/NS8_LS1_G2"
  {
  }

  lemma SlashB34S48t64()
    ensures "B3.4/B3.4_M-0.040M0.33_L48T64/NS8_LS1_G2" + "/" == "B3.4/B3.4_M-0.040M0.33_L48T64/NS8_LS1_G2/"
  {
  }

  lemma DocB34S48t64()
    ensures DocPaths[7] == Gregory + "B3.4/B3.4_M-0.040M0.33_L48T64/NS8_LS1_G2/"
  {
  }
}
