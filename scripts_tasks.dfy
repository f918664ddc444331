/** scripts/create_tasks.py, its pure parts: the substring expansion of the requested tasks
    into run objects, the nvec-aware file name and directory of an object's file, the
    `t_sources` string, and the template data of one file.

    The run objects are the eighteen names the expansion can produce: an input file object,
    named after a task, or a job-script object `chroma_...`. Both dicts of the task handler
    (`templates` and `xml_classes`) have exactly these eighteen keys, so their lookups are
    total functions on the object type here. */
module ScriptsTasks {
  import opened Py
  import opened TagPatterns
  import opened JobData
  import opened Plan
  import ChromaShTags
  import MesonXml
  import DiscoXml
  import PeramsXml

  // ------------------------------------------------------------ run objects

  /** The ten substrings the expansion tests, in the order it tests them. */
  datatype Kind = Eigs | PeramMg | PeramStrangeMg | PeramCharmMg | PeramCharmMgEric
                | PeramClover | PeramCharmClover | Peram | Meson | Disco

  /** The job scripts; several kinds share one. */
  datatype ScriptKind = ChromaEigs | ChromaPeramMg | ChromaPeramCharmMg | ChromaPeramClover
                      | ChromaPeramCharmClover | ChromaPeram | ChromaMeson | ChromaDisco

  /** A run object: the input file of a kind or a job script. */
  datatype Obj = Input(kind: Kind) | Script(script: ScriptKind)

  const Kinds: seq<Kind> :=
    [Eigs, PeramMg, PeramStrangeMg, PeramCharmMg, PeramCharmMgEric, PeramClover, PeramCharmClover, Peram, Meson, Disco]

  /** The substring a kind is tested with, which is also the name of its input object. */
  function KindName(k: Kind): string
  {
    match k
    case Eigs => "eigs"
    case PeramMg => "peram_mg"
    case PeramStrangeMg => "peram_strange_mg"
    case PeramCharmMg => "peram_charm_mg"
    case PeramCharmMgEric => "peram_charm_mg_eric"
    case PeramClover => "peram_clover"
    case PeramCharmClover => "peram_charm_clover"
    case Peram => "peram"
    case Meson => "meson"
    case Disco => "disco"
  }

  /** The job script a kind adds after its input object. */
  function ScriptOf(k: Kind): ScriptKind
  {
    match k
    case Eigs => ChromaEigs
    case PeramMg => ChromaPeramMg
    case PeramStrangeMg => ChromaPeramMg
    case PeramCharmMg => ChromaPeramCharmMg
    case PeramCharmMgEric => ChromaPeramCharmMg
    case PeramClover => ChromaPeramClover
    case PeramCharmClover => ChromaPeramCharmClover
    case Peram => ChromaPeram
    case Meson => ChromaMeson
    case Disco => ChromaDisco
  }

  /** The text after `chroma_` in a job script's name. */
  function ScriptTail(s: ScriptKind): string
  {
    match s
    case ChromaEigs => "eigs"
    case ChromaPeramMg => "peram_mg"
    case ChromaPeramCharmMg => "peram_charm_mg"
    case ChromaPeramClover => "peram_clover"
    case ChromaPeramCharmClover => "peram_charm_clover"
    case ChromaPeram => "peram"
    case ChromaMeson => "meson"
    case ChromaDisco => "disco"
  }

  /** The object as the list `run_objects` holds it. */
  function ObjName(o: Obj): string
  {
    match o
    case Input(k) => KindName(k)
    case Script(s) => "chroma_" + ScriptTail(s)
  }

  /** The objects one task adds: for each kind in turn whose name occurs in the task, its
      input object and its job script. */
  function Applied(task: string, ks: seq<Kind>): seq<Obj>
  {
    if ks == [] then []
    else (if Contains(task, KindName(ks[0])) then [Input(ks[0]), Script(ScriptOf(ks[0]))] else []) + Applied(task, ks[1..])
  }

  /** The chain of `if sub in task: run_objects.extend(...)` for one task. */
  function TaskObjects(task: string): seq<Obj>
  {
    Applied(task, Kinds)
  }

  /** `run_objects` after the loop over the tasks; nothing removes duplicates. */
  function RunObjects(tasks: seq<string>): seq<Obj>
  {
    FlatMap(TaskObjects, tasks)
  }

  /** The loop that extends `run_objects` task by task. */
  method ExpandTasks(tasks: seq<string>) returns (objs: seq<Obj>)
    ensures objs == RunObjects(tasks)
  {
    objs := [];
    var i := 0;
    while i < |tasks|
      invariant 0 <= i <= |tasks|
      invariant objs == FlatMap(TaskObjects, tasks[..i])
    {
      assert tasks[..i + 1][..i] == tasks[..i];
      objs := objs + TaskObjects(tasks[i]);
      i := i + 1;
    }
    assert tasks[..i] == tasks;
  }

  /** An object is added for a task exactly when the name of one of the kinds it belongs to
      occurs in the task: the tests are substring tests and are all made. */
  lemma {:induction false} AppliedMembers(task: string, ks: seq<Kind>, o: Obj)
    ensures o in Applied(task, ks) <==>
      exists i | 0 <= i < |ks| :: Contains(task, KindName(ks[i])) && (o == Input(ks[i]) || o == Script(ScriptOf(ks[i])))
  {
    if ks != [] {
      AppliedMembers(task, ks[1..], o);
      if o in Applied(task, ks[1..]) {
        var i :| 0 <= i < |ks[1..]| && Contains(task, KindName(ks[1..][i])) &&
          (o == Input(ks[1..][i]) || o == Script(ScriptOf(ks[1..][i])));
        assert ks[1..][i] == ks[i + 1];
      }
      if i :| 0 <= i < |ks| && Contains(task, KindName(ks[i])) && (o == Input(ks[i]) || o == Script(ScriptOf(ks[i]))) {
        if i > 0 {
          assert ks[1..][i - 1] == ks[i];
        }
      }
    }
  }

  /** Every kind is tested. */
  lemma KindsComplete(k: Kind)
    ensures k in Kinds
  {
  }

  /** A task adds the input object of a kind exactly when it contains the kind's name. */
  lemma TaskObjectsInput(task: string, k: Kind)
    ensures Input(k) in TaskObjects(task) <==> Contains(task, KindName(k))
  {
    AppliedMembers(task, Kinds, Input(k));
    KindsComplete(k);
    if Contains(task, KindName(k)) {
      var i :| 0 <= i < |Kinds| && Kinds[i] == k;
      assert Contains(task, KindName(Kinds[i])) && Input(k) == Input(Kinds[i]);
    }
  }

  /** An object is run exactly when one of the tasks adds it. */
  lemma RunObjectsMembers(tasks: seq<string>, o: Obj)
    ensures o in RunObjects(tasks) <==> exists i | 0 <= i < |tasks| :: o in TaskObjects(tasks[i])
  {
    FlatMapMembers(TaskObjects, tasks, o);
  }

  /** Any text containing `peram` (a misspelt task such as `peram_strange`, or `xperamx`)
      adds the `peram` input object and its job script. */
  lemma PeramSubstring(task: string)
    requires Contains(task, "peram")
    ensures Input(Peram) in TaskObjects(task) && Script(ChromaPeram) in TaskObjects(task)
  {
    TaskObjectsInput(task, Peram);
    AppliedMembers(task, Kinds, Script(ChromaPeram));
    assert Kinds[7] == Peram;
  }

  // --------------------------------------------------- the `peram_charm_mg_eric` task

  /** The task `peram_charm_mg_eric`. */
  const EricTask: string := "peram_charm_mg_eric"

  /** A text lacking one character of a name does not contain the name. */
  lemma NotContainsByChar(s: string, sub: string, i: nat)
    requires i < |sub| && sub[i] !in s
    ensures !Contains(s, sub)
  {
    if Contains(s, sub) {
      ContainsChar(s, sub, i);
    }
  }

  /** A text contains each of its prefixes. */
  lemma ContainsPrefix(p: string, rest: string)
    ensures Contains(p + rest, p)
  {
    assert (p + rest)[0..|p|] == p;
    assert OccursAt(p + rest, p, 0);
  }

  lemma EricLacks()
    ensures 's' !in EricTask && 'v' !in EricTask && 'd' !in EricTask && 'p' !in EricTask[1..]
  {
  }

  /** `peram_mg` does not occur in the task: its only `p` is the first letter, which is
      followed by `peram_c`. */
  lemma EricNotPeramMg()
    ensures !Contains(EricTask, "peram_mg")
  {
    EricLacks();
    forall i | 0 <= i <= |EricTask| - 8
      ensures !OccursAt(EricTask, "peram_mg", i)
    {
      if i == 0 {
        assert EricTask[6] != "peram_mg"[6];
        assert EricTask[0..8][6] == EricTask[6];
      } else {
        assert EricTask[i] == EricTask[1..][i - 1];
        assert EricTask[i..i + 8][0] == EricTask[i];
      }
    }
  }

  lemma EricContains()
    ensures Contains(EricTask, "peram_charm_mg") && Contains(EricTask, "peram_charm_mg_eric") && Contains(EricTask, "peram")
  {
    EricContainsCharm();
    EricContainsSelf();
    EricContainsPeram();
  }

  lemma EricContainsCharm()
    ensures Contains(EricTask, "peram_charm_mg")
  {
    assert EricTask == "peram_charm_mg" + "_eric";
    ContainsPrefix("peram_charm_mg", "_eric");
  }

  lemma EricContainsSelf()
    ensures Contains(EricTask, "peram_charm_mg_eric")
  {
    assert EricTask == EricTask + "";
    ContainsPrefix(EricTask, "");
  }

  lemma EricContainsPeram()
    ensures Contains(EricTask, "peram")
  {
    assert EricTask == "peram" + "_charm_mg_eric";
    ContainsPrefix("peram", "_charm_mg_eric");
  }

  lemma EricMisses()
    ensures !Contains(EricTask, "eigs") && !Contains(EricTask, "peram_strange_mg") && !Contains(EricTask, "peram_clover")
    ensures !Contains(EricTask, "peram_charm_clover") && !Contains(EricTask, "meson") && !Contains(EricTask, "disco")
  {
    EricLacks();
    NotContainsByChar(EricTask, "eigs", 3);
    NotContainsByChar(EricTask, "peram_strange_mg", 6);
    NotContainsByChar(EricTask, "peram_clover", 9);
    NotContainsByChar(EricTask, "peram_charm_clover", 15);
    NotContainsByChar(EricTask, "meson", 2);
    NotContainsByChar(EricTask, "disco", 0);
  }

  /** One step of the expansion. */
  lemma AppliedStep(task: string, k: Kind, ks: seq<Kind>)
    ensures Applied(task, [k] + ks) ==
      (if Contains(task, KindName(k)) then [Input(k), Script(ScriptOf(k))] else []) + Applied(task, ks)
  {
    assert ([k] + ks)[1..] == ks;
  }

  /** The last five tests, for a task in which only `peram` holds of them. */
  lemma PeramOnlyTail(task: string, t5: seq<Kind>)
    requires t5 == [PeramClover] + ([PeramCharmClover] + ([Peram] + ([Meson] + ([Disco] + []))))
    requires !Contains(task, "peram_clover") && !Contains(task, "peram_charm_clover") && Contains(task, "peram")
    requires !Contains(task, "meson") && !Contains(task, "disco")
    ensures Applied(task, t5) == [Input(Peram), Script(ChromaPeram)]
  {
    AppliedStep(task, Disco, []);
    AppliedStep(task, Meson, [Disco] + []);
    AppliedStep(task, Peram, [Meson] + ([Disco] + []));
    AppliedStep(task, PeramCharmClover, [Peram] + ([Meson] + ([Disco] + [])));
    AppliedStep(task, PeramClover, [PeramCharmClover] + ([Peram] + ([Meson] + ([Disco] + []))));
  }

  /** The whole expansion, for a task in which exactly the tests `peram_charm_mg`,
      `peram_charm_mg_eric` and `peram` hold. */
  lemma CharmEricExpansion(task: string)
    requires !Contains(task, "eigs") && !Contains(task, "peram_mg") && !Contains(task, "peram_strange_mg")
    requires Contains(task, "peram_charm_mg") && Contains(task, "peram_charm_mg_eric")
    requires !Contains(task, "peram_clover") && !Contains(task, "peram_charm_clover") && Contains(task, "peram")
    requires !Contains(task, "meson") && !Contains(task, "disco")
    ensures TaskObjects(task) ==
      [Input(PeramCharmMg), Script(ChromaPeramCharmMg), Input(PeramCharmMgEric), Script(ChromaPeramCharmMg),
       Input(Peram), Script(ChromaPeram)]
  {
    var t5 := [PeramClover] + ([PeramCharmClover] + ([Peram] + ([Meson] + ([Disco] + []))));
    var t7 := [PeramCharmMg] + ([PeramCharmMgEric] + t5);
    CharmEricMiddle(task, t5, t7);
    AppliedStep(task, PeramStrangeMg, t7);
    AppliedStep(task, PeramMg, [PeramStrangeMg] + t7);
    AppliedStep(task, Eigs, [PeramMg] + ([PeramStrangeMg] + t7));
    KindsSpelled(t5, t7);
  }

  lemma KindsSpelled(t5: seq<Kind>, t7: seq<Kind>)
    requires t5 == [PeramClover] + ([PeramCharmClover] + ([Peram] + ([Meson] + ([Disco] + []))))
    requires t7 == [PeramCharmMg] + ([PeramCharmMgEric] + t5)
    ensures Kinds == [Eigs] + ([PeramMg] + ([PeramStrangeMg] + t7))
  {
  }

  /** The `peram_charm_mg_eric` test holds and adds its input and the shared job script. */
  lemma EricHit(task: string, ks: seq<Kind>)
    requires Contains(task, "peram_charm_mg_eric")
    ensures Applied(task, [PeramCharmMgEric] + ks) == [Input(PeramCharmMgEric), Script(ChromaPeramCharmMg)] + Applied(task, ks)
  {
    AppliedStep(task, PeramCharmMgEric, ks);
  }

  /** The `peram_charm_mg` test holds and adds its input and job script. */
  lemma CharmMgHit(task: string, ks: seq<Kind>)
    requires Contains(task, "peram_charm_mg")
    ensures Applied(task, [PeramCharmMg] + ks) == [Input(PeramCharmMg), Script(ChromaPeramCharmMg)] + Applied(task, ks)
  {
    AppliedStep(task, PeramCharmMg, ks);
  }

  lemma CharmEricMiddle(task: string, t5: seq<Kind>, t7: seq<Kind>)
    requires t5 == [PeramClover] + ([PeramCharmClover] + ([Peram] + ([Meson] + ([Disco] + []))))
    requires t7 == [PeramCharmMg] + ([PeramCharmMgEric] + t5)
    requires Contains(task, "peram_charm_mg") && Contains(task, "peram_charm_mg_eric")
    requires !Contains(task, "peram_clover") && !Contains(task, "peram_charm_clover") && Contains(task, "peram")
    requires !Contains(task, "meson") && !Contains(task, "disco")
    ensures Applied(task, t7) ==
      [Input(PeramCharmMg), Script(ChromaPeramCharmMg), Input(PeramCharmMgEric), Script(ChromaPeramCharmMg),
       Input(Peram), Script(ChromaPeram)]
  {
    PeramOnlyTail(task, t5);
    EricHit(task, t5);
    CharmMgHit(task, [PeramCharmMgEric] + t5);
    ConcatPairs(Input(PeramCharmMg), Script(ChromaPeramCharmMg), Input(PeramCharmMgEric), Script(ChromaPeramCharmMg),
                Input(Peram), Script(ChromaPeram));
  }

  lemma ConcatPairs<T>(a: T, b: T, c: T, d: T, e: T, f: T)
    ensures [a, b] + ([c, d] + [e, f]) == [a, b, c, d, e, f]
  {
  }

  /** The three substring tests `peram_charm_mg`, `peram_charm_mg_eric` and `peram` all hold
      for `peram_charm_mg_eric`, so it adds six objects, the shared job script twice. */
  lemma EricExpansion()
    ensures TaskObjects(EricTask) ==
      [Input(PeramCharmMg), Script(ChromaPeramCharmMg), Input(PeramCharmMgEric), Script(ChromaPeramCharmMg),
       Input(Peram), Script(ChromaPeram)]
  {
    EricContains();
    EricMisses();
    EricNotPeramMg();
    CharmEricExpansion(EricTask);
  }

  // ------------------------------------------------------------ file names

  /** `if nvec`: a missing nvec (None) and 0 are false. */
  predicate HasNvec(nvec: Option<int>)
  {
    nvec.Some? && nvec.value != 0
  }

  /** `_{nvec}` in a file name when there is an nvec, nothing otherwise. */
  function NvecPart(nvec: Option<int>): string
  {
    if HasNvec(nvec) then "_" + IntToString(nvec.value) else ""
  }

  /** `obj.split("_")[1]`, with the IndexError of a name without `_`. */
  function SecondField(obj: string): Result<string>
  {
    var parts := Split(obj, '_');
    if |parts| < 2 then Err(IndexError("list index out of range")) else Ok(parts[1])
  }

  /** `ini_out`: the five branches of the name choice, in order. */
  function FileName(obj: string, cfg: int, nvec: Option<int>): Result<string>
  {
    if obj == "chroma_eigs" || obj == "chroma_disco" then
      var f :- SecondField(obj);
      Ok(f + ("_cfg" + (Pad2(cfg) + ".sh")))
    else if obj != "chroma_eigs" && StartsWith(obj, "chroma") then
      var f :- SecondField(obj);
      Ok(f + (NvecPart(nvec) + ("_cfg" + (Pad2(cfg) + ".sh"))))
    else if obj == "peram_charm_mg_eric" then
      Ok("peram_charm_mg" + (NvecPart(nvec) + ("_cfg" + (Pad2(cfg) + ".ini.xml"))))
    else if obj == "disco" || obj == "eigs" then
      Ok(obj + ("_cfg" + (Pad2(cfg) + ".ini.xml")))
    else
      Ok(obj + (NvecPart(nvec) + ("_cfg" + (Pad2(cfg) + ".ini.xml"))))
  }

  /** The name of a job script's file: the first `_`-field after `chroma_`. */
  function ScriptBase(s: ScriptKind): string
  {
    match s
    case ChromaEigs => "eigs"
    case ChromaMeson => "meson"
    case ChromaDisco => "disco"
    case _ => "peram"
  }

  /** Whether a file name carries the nvec: not for eigs and disco, inputs or scripts. */
  predicate NamesNvec(o: Obj)
  {
    match o
    case Input(k) => k != Eigs && k != Disco
    case Script(s) => s != ChromaEigs && s != ChromaDisco
  }

  /** What an object's file name starts with. */
  function BaseName(o: Obj): string
  {
    match o
    case Input(k) => if k == PeramCharmMgEric then "peram_charm_mg" else KindName(k)
    case Script(s) => ScriptBase(s)
  }

  function Ext(o: Obj): string
  {
    if o.Script? then ".sh" else ".ini.xml"
  }

  /** Every run object's file is named `<base>[_<nvec>]_cfg<NN><ext>`: job scripts `.sh` after
      the field following `chroma_`, inputs `.ini.xml` after the object (`peram_charm_mg` for
      the eric object), with the nvec only when there is one and the object is not eigs or
      disco. */
  lemma FileNameRule(o: Obj, cfg: int, nvec: Option<int>)
    ensures FileName(ObjName(o), cfg, nvec) ==
      Ok(BaseName(o) + ((if NamesNvec(o) then NvecPart(nvec) else "") + ("_cfg" + (Pad2(cfg) + Ext(o)))))
  {
    match o
    case Script(s) => ScriptNameRule(s, cfg, nvec);
    case Input(k) => InputNameRule(k, cfg, nvec);
  }

  /** The name of a job script, for any name shaped like one. */
  lemma ChromaFileName(obj: string, base: string, named: bool, cfg: int, nvec: Option<int>)
    requires SecondField(obj) == Ok(base) && StartsWith(obj, "chroma")
    requires (obj == "chroma_eigs" || obj == "chroma_disco") <==> !named
    ensures FileName(obj, cfg, nvec) == Ok(base + ((if named then NvecPart(nvec) else "") + ("_cfg" + (Pad2(cfg) + ".sh"))))
  {
    if !named {
      assert "" + ("_cfg" + (Pad2(cfg) + ".sh")) == "_cfg" + (Pad2(cfg) + ".sh");
    }
  }

  /** The second `_`-field of `chroma_<base><rest>` is the base. */
  lemma ChromaSecond(base: string, rest: string)
    requires '_' !in base && (rest == [] || rest[0] == '_')
    ensures SecondField("chroma_" + (base + rest)) == Ok(base)
  {
    assert "chroma_" + (base + rest) == "chroma" + ['_'] + (base + rest);
    SplitFirst("chroma", '_', base + rest);
    SplitHead(base, '_', rest);
  }

  lemma ScriptNameRule(s: ScriptKind, cfg: int, nvec: Option<int>)
    ensures var o := Script(s);
      FileName(ObjName(o), cfg, nvec) ==
      Ok(BaseName(o) + ((if NamesNvec(o) then NvecPart(nvec) else "") + ("_cfg" + (Pad2(cfg) + Ext(o)))))
  {
    var tail := ScriptTail(s);
    TailShape(s);
    var rest := tail[|ScriptBase(s)|..];
    assert tail == ScriptBase(s) + rest;
    ChromaSecond(ScriptBase(s), rest);
    ChromaPrefix(tail);
    ScriptEigsDisco(s);
    ChromaFileName(ObjName(Script(s)), ScriptBase(s), NamesNvec(Script(s)), cfg, nvec);
  }

  /** A job script's tail is its base followed by nothing or by more `_`-fields. */
  lemma TailShape(s: ScriptKind)
    ensures |ScriptBase(s)| <= |ScriptTail(s)| && ScriptTail(s)[..|ScriptBase(s)|] == ScriptBase(s)
    ensures '_' !in ScriptBase(s)
    ensures var rest := ScriptTail(s)[|ScriptBase(s)|..]; rest == [] || rest[0] == '_'
  {
  }

  lemma ChromaPrefix(tail: string)
    ensures StartsWith("chroma_" + tail, "chroma")
  {
    assert ("chroma_" + tail)[..6] == "chroma";
  }

  /** Only the eigs and disco scripts have the two names the first branch tests. */
  lemma ScriptEigsDisco(s: ScriptKind)
    ensures (ObjName(Script(s)) == "chroma_eigs" || ObjName(Script(s)) == "chroma_disco") <==> !NamesNvec(Script(s))
  {
    var n := ObjName(Script(s));
    assert n[7..] == ScriptTail(s);
    assert "chroma_eigs" == "chroma_" + "eigs" && "chroma_disco" == "chroma_" + "disco";
    assert "chroma_eigs"[7..] == "eigs" && "chroma_disco"[7..] == "disco";
  }

  /** The name of an input object other than the eric one, eigs and disco. */
  lemma PlainFileName(obj: string, cfg: int, nvec: Option<int>)
    requires !StartsWith(obj, "chroma") && obj != "chroma_eigs" && obj != "chroma_disco"
    requires obj != "peram_charm_mg_eric" && obj != "eigs" && obj != "disco"
    ensures FileName(obj, cfg, nvec) == Ok(obj + (NvecPart(nvec) + ("_cfg" + (Pad2(cfg) + ".ini.xml"))))
  {
  }

  /** The name of the eigs and disco input objects. */
  lemma BareFileName(obj: string, cfg: int, nvec: Option<int>)
    requires !StartsWith(obj, "chroma") && obj != "chroma_eigs" && obj != "chroma_disco"
    requires obj != "peram_charm_mg_eric" && (obj == "eigs" || obj == "disco")
    ensures FileName(obj, cfg, nvec) == Ok(obj + ("" + ("_cfg" + (Pad2(cfg) + ".ini.xml"))))
  {
    assert "" + ("_cfg" + (Pad2(cfg) + ".ini.xml")) == "_cfg" + (Pad2(cfg) + ".ini.xml");
  }

  lemma InputNameRule(k: Kind, cfg: int, nvec: Option<int>)
    ensures var o := Input(k);
      FileName(ObjName(o), cfg, nvec) ==
      Ok(BaseName(o) + ((if NamesNvec(o) then NvecPart(nvec) else "") + ("_cfg" + (Pad2(cfg) + Ext(o)))))
  {
    InputNotChroma(k);
    var n := KindName(k);
    if k == PeramCharmMgEric {
    } else if k == Eigs || k == Disco {
      BareFileName(n, cfg, nvec);
    } else {
      PlainFileName(n, cfg, nvec);
    }
  }

  /** No input object is named like a job script. */
  lemma InputNotChroma(k: Kind)
    ensures !StartsWith(KindName(k), "chroma")
    ensures KindName(k) != "chroma_eigs" && KindName(k) != "chroma_disco"
    ensures KindName(k) == "peram_charm_mg_eric" <==> k == PeramCharmMgEric
    ensures KindName(k) == "eigs" <==> k == Eigs
    ensures KindName(k) == "disco" <==> k == Disco
  {
    assert KindName(k)[0] != 'c';
  }

  /** `None` and 0 name the same files as no nvec at all. */
  lemma NvecAbsent(o: Obj, cfg: int, nvec: Option<int>)
    requires !HasNvec(nvec)
    ensures FileName(ObjName(o), cfg, nvec) == FileName(ObjName(o), cfg, None)
  {
    FileNameRule(o, cfg, nvec);
    FileNameRule(o, cfg, None);
  }

  /** The eigs and disco files, inputs and scripts, never carry the nvec. */
  lemma EigsDiscoNoNvec(o: Obj, cfg: int, nvec: Option<int>)
    requires o in [Input(Eigs), Input(Disco), Script(ChromaEigs), Script(ChromaDisco)]
    ensures FileName(ObjName(o), cfg, nvec) == FileName(ObjName(o), cfg, None)
  {
    FileNameRule(o, cfg, nvec);
    FileNameRule(o, cfg, None);
  }

  /** The eric object's input is named like `peram_charm_mg`'s, so the two collide. */
  lemma EricNameCollides(cfg: int, nvec: Option<int>)
    ensures FileName(ObjName(Input(PeramCharmMgEric)), cfg, nvec) == FileName(ObjName(Input(PeramCharmMg)), cfg, nvec)
    ensures FileName(ObjName(Input(PeramCharmMgEric)), cfg, nvec) ==
      Ok("peram_charm_mg" + (NvecPart(nvec) + ("_cfg" + (Pad2(cfg) + ".ini.xml"))))
  {
    FileNameRule(Input(PeramCharmMgEric), cfg, nvec);
    FileNameRule(Input(PeramCharmMg), cfg, nvec);
  }

  /** All five perambulator job scripts are named `peram[_<nvec>]_cfg<NN>.sh`. */
  lemma PeramScriptsCollide(s: ScriptKind, cfg: int, nvec: Option<int>)
    requires s in [ChromaPeramMg, ChromaPeramCharmMg, ChromaPeramClover, ChromaPeramCharmClover, ChromaPeram]
    ensures FileName(ObjName(Script(s)), cfg, nvec) == Ok("peram" + (NvecPart(nvec) + ("_cfg" + (Pad2(cfg) + ".sh"))))
  {
    FileNameRule(Script(s), cfg, nvec);
  }

  // ------------------------------------------------------------ directories

  /** `nvec_dir if nvec and not obj.__contains__('eigs|disco') else obj_dir`: the test is for
      the literal text `eigs|disco`. */
  function FileDir(objDir: string, obj: string, nvec: Option<int>): string
  {
    if HasNvec(nvec) && !Contains(obj, "eigs|disco") then PathJoin(objDir, "numvec" + IntToString(nvec.value))
    else objDir
  }

  /** `ini_out_path`, or the IndexError of the name. */
  function OutPath(objDir: string, obj: string, cfg: int, nvec: Option<int>): Result<string>
  {
    var name :- FileName(obj, cfg, nvec);
    Ok(PathJoin(FileDir(objDir, obj, nvec), name))
  }

  /** No object name has a `|`, so every file goes to the `numvec<nvec>` directory whenever
      there is an nvec, eigs and disco included, and to the config directory otherwise. */
  lemma FileDirRule(objDir: string, o: Obj, nvec: Option<int>)
    ensures FileDir(objDir, ObjName(o), nvec) ==
      if HasNvec(nvec) then PathJoin(objDir, "numvec" + IntToString(nvec.value)) else objDir
  {
    NoBar(o);
    NotContainsByChar(ObjName(o), "eigs|disco", 4);
  }

  lemma NoBar(o: Obj)
    ensures '|' !in ObjName(o)
  {
    match o
    case Input(k) =>
    case Script(s) => assert '|' !in ScriptTail(s) && '|' !in "chroma_";
  }

  /** Where an object's file goes, in full. */
  lemma OutPathRule(objDir: string, o: Obj, cfg: int, nvec: Option<int>)
    ensures OutPath(objDir, ObjName(o), cfg, nvec) ==
      Ok(PathJoin(if HasNvec(nvec) then PathJoin(objDir, "numvec" + IntToString(nvec.value)) else objDir,
                  BaseName(o) + ((if NamesNvec(o) then NvecPart(nvec) else "") + ("_cfg" + (Pad2(cfg) + Ext(o))))))
  {
    FileNameRule(o, cfg, nvec);
    FileDirRule(objDir, o, nvec);
  }

  // -------------------------------------------------------------- t_sources

  /** `dataMap.get(key, default)`. */
  function GetOr(data: map<string, Value>, key: string, default: Value): Value
  {
    if key in data then data[key] else default
  }

  /** `str(i)` of each element. */
  function Shows(xs: seq<int>): (r: seq<string>)
    ensures |r| == |xs| && forall k | 0 <= k < |xs| :: r[k] == IntToString(xs[k])
  {
    if xs == [] then [] else [IntToString(xs[0])] + Shows(xs[1..])
  }

  /** `" ".join(str(i) for i in range(0, fwd, round(fwd / num)))` with fwd and num read with
      the defaults 96 and 4: TypeError for a non-number, ZeroDivisionError for num 0, and the
      ValueError of `range` when the step rounds to 0. */
  function TSources(data: map<string, Value>): Result<string>
  {
    var fwd := GetOr(data, "prop_t_fwd", Int(96));
    var num := GetOr(data, "num_tsrc", Int(4));
    if !fwd.Int? || !num.Int? then
      Err(TypeError("unsupported operand type(s) for /: '" + TypeName(fwd) + "' and '" + TypeName(num) + "'"))
    else if num.i == 0 then Err(ZeroDivisionError)
    else
      var ids :- PyRange(0, fwd.i, PeramsXml.Step(fwd.i, num.i));
      Ok(JoinWith(" ", Shows(ids)))
  }

  /** For positive numbers the string lists exactly what `generate_t_source_list` returns. */
  lemma TSourcesAgree(data: map<string, Value>, fwd: int, num: int)
    requires GetOr(data, "prop_t_fwd", Int(96)) == Int(fwd) && GetOr(data, "num_tsrc", Int(4)) == Int(num)
    requires fwd > 0 && num > 0
    ensures TSources(data).Ok? <==> PeramsXml.GenerateTSourceList(Int(fwd), Int(num)).Ok?
    ensures TSources(data).Ok? ==>
      TSources(data).value == JoinWith(" ", Shows(PeramsXml.GenerateTSourceList(Int(fwd), Int(num)).value))
  {
    PeramsXml.StepSign(fwd, num);
  }

  /** Without the two keys the string is `0 24 48 72`. */
  lemma TSourcesDefault(data: map<string, Value>)
    requires "prop_t_fwd" !in data && "num_tsrc" !in data
    ensures TSources(data) == Ok("0 24 48 72")
  {
    assert PeramsXml.GenerateTSourceList(Int(96), Int(4)) == Ok([0, 24, 48, 72]) by {
      PeramsXml.TSourceListExamples();
    }
    TSourcesAgree(data, 96, 4);
    DefaultShown();
  }

  /** The text of the default list. */
  lemma DefaultShown()
    ensures JoinWith(" ", Shows([0, 24, 48, 72])) == "0 24 48 72"
  {
    var shown := ["0", "24", "48", "72"];
    assert Shows([0, 24, 48, 72]) == shown by {
      ShowsSmall();
    }
    assert JoinWith(" ", shown[3..]) == "72";
    assert JoinWith(" ", shown[2..]) == "48" + " " + "72";
    assert JoinWith(" ", shown[1..]) == "24" + " " + ("48" + " " + "72");
    assert JoinWith(" ", shown) == "0" + " " + ("24" + " " + ("48" + " " + "72"));
    DefaultText();
  }

  lemma DefaultText()
    ensures "0" + " " + ("24" + " " + ("48" + " " + "72")) == "0 24 48 72"
  {
  }

  lemma ShowsSmall()
    ensures IntToString(0) == "0" && IntToString(24) == "24" && IntToString(48) == "48" && IntToString(72) == "72"
  {
    assert NatToString(2) == "2" && NatToString(4) == "4" && NatToString(7) == "7";
  }

  /** The failures: TypeError for a non-number, ZeroDivisionError for num 0. */
  lemma TSourcesFails(data: map<string, Value>)
    ensures var fwd := GetOr(data, "prop_t_fwd", Int(96)); var num := GetOr(data, "num_tsrc", Int(4));
      (!(fwd.Int? && num.Int?) ==> TSources(data).Err? && TSources(data).error.TypeError?) &&
      (fwd.Int? && num == Int(0) ==> TSources(data) == Err(ZeroDivisionError))
  {
  }

  // ------------------------------------------------------------ template data

  /** The class each object's data is filtered by. */
  datatype XmlClass = EigsClass | PeramsClass | MesonClass | DiscoClass | ChromaOptionsClass

  /** `handler.xml_classes[obj]`. */
  function ClassOf(o: Obj): XmlClass
  {
    match o
    case Script(_) => ChromaOptionsClass
    case Input(Eigs) => EigsClass
    case Input(Meson) => MesonClass
    case Input(Disco) => DiscoClass
    case Input(_) => PeramsClass
  }

  /** `handler.templates[obj]`: the template file of an object. */
  function TemplateOf(o: Obj): string
  {
    match o
    case Input(Eigs) => "eigs.jinja.xml"
    case Input(PeramClover) => "peram_clover.jinja.xml"
    case Input(PeramCharmClover) => "peram_charm_clover.jinja.xml"
    case Input(PeramMg) => "peram_multigrid.jinja.xml"
    case Input(PeramStrangeMg) => "peram_strange_multigrid.jinja.xml"
    case Input(PeramCharmMg) => "peram_charm_multigrid.jinja.xml"
    case Input(PeramCharmMgEric) => "peram_charm_multigrid_eric.jinja.xml"
    case Input(Peram) => "peram_multigrid.jinja.xml"
    case Input(Meson) => "meson.jinja.xml"
    case Input(Disco) => "disco.jinja.xml"
    case Script(ChromaEigs) => "eigs.sh.j2"
    case Script(ChromaPeram) => "peram_jureca.sh.j2"
    case Script(ChromaPeramMg) => "peram_jureca.sh.j2"
    case Script(ChromaPeramCharmMg) => "peram_charm_mg.sh.j2"
    case Script(ChromaPeramClover) => "peram_clover.sh.j2"
    case Script(ChromaPeramCharmClover) => "peram_charm_clover.sh.j2"
    case Script(ChromaMeson) => "meson_jureca.sh.j2"
    case Script(ChromaDisco) => "disco.sh.j2"
  }

  /** The value of `ens_short` handed to `parse_ensemble`: `filtered_data.get('ens_short', '')`. */
  function EnsShort(data: map<string, Entry>): Result<string>
  {
    if "ens_short" !in data then Ok("")
    else match data["ens_short"]
      case Scalar(Str(s)) => Ok(s)
      case Scalar(v) => Err(KeyError(Show(v)))
      case _ => Err(TypeError("unhashable type: 'list'"))
  }

  /** The ensemble dict as template variables. */
  function EnsEntries(info: Info): (m: map<string, Entry>)
    ensures forall k | k in m :: k in FieldNames
    ensures forall k | k in info :: FieldName(k) in m && m[FieldName(k)] == Scalar(info[k])
  {
    var props := Props(info);
    map k | k in props :: Scalar(props[k])
  }

  /** The data before the ensemble dict is merged: the YAML entries the class declares as
      fields, then `cfg_id`, the fixed lists, `tsrc`, `t_sources` and, with an nvec, the two
      nvec keys. */
  function BaseData(yaml: map<string, Value>, fields: set<string>, cfg: int, nvec: Option<int>, tSources: string)
    : map<string, Entry>
  {
    var filtered := map k | k in yaml && k in fields :: Scalar(yaml[k]);
    var data := FilteredSets(filtered, Scalar(Str(Pad2(cfg))), Strings(MesonXml.GenMomList()),
      Strings(MesonXml.DisplacementList()), Strings(DiscoXml.DisplacementList()), Scalar(Str(tSources)));
    if HasNvec(nvec) then data["num_vecs_perams" := Scalar(Int(nvec.value))]["meson_nvec" := Scalar(Int(nvec.value))]
    else data
  }

  /** The seven keys `filtered_data` always sets, in the order it sets them; the disco
      displacement list is set twice, as `disco_displacement_list` and `disco_t_sources`. */
  function FilteredSets(filtered: map<string, Entry>, cfgId: Entry, moms: Entry, disps: Entry, discoDisps: Entry, tSources: Entry)
    : map<string, Entry>
  {
    filtered["cfg_id" := cfgId]["momentum_list" := moms]["displacement_list" := disps]
      ["disco_displacement_list" := discoDisps]["disco_t_sources" := discoDisps]
      ["tsrc" := Scalar(Int(24))]["t_sources" := tSources]
  }

  lemma FilteredSetsValues(filtered: map<string, Entry>, cfgId: Entry, moms: Entry, disps: Entry, discoDisps: Entry, tSources: Entry)
    ensures var d := FilteredSets(filtered, cfgId, moms, disps, discoDisps, tSources);
      d["cfg_id"] == cfgId && d["momentum_list"] == moms && d["displacement_list"] == disps &&
      d["disco_displacement_list"] == discoDisps && d["disco_t_sources"] == discoDisps &&
      d["tsrc"] == Scalar(Int(24)) && d["t_sources"] == tSources
  {
  }

  /** `filtered_data` as handed to the template, or the exception raised building it. */
  function RenderData(yaml: map<string, Value>, fields: set<string>, cfg: int, nvec: Option<int>)
    : Result<map<string, Entry>>
  {
    var ts :- TSources(yaml);
    var data := BaseData(yaml, fields, cfg, nvec, ts);
    var tag :- EnsShort(data);
    var info :- ChromaShTags.ParseEnsemble(tag);
    Ok(data + EnsEntries(info))
  }

  /** The keys `filtered_data` sets itself. */
  const SetHere: set<string> :=
    {"cfg_id", "momentum_list", "displacement_list", "disco_displacement_list", "disco_t_sources", "tsrc",
     "t_sources", "num_vecs_perams", "meson_nvec"}

  /** What `filtered_data` holds before the ensemble dict is merged: the YAML entries the
      class declares, apart from the keys it sets. */
  lemma BaseKeeps(yaml: map<string, Value>, fields: set<string>, cfg: int, nvec: Option<int>, ts: string, k: string)
    requires k !in SetHere
    ensures var d := BaseData(yaml, fields, cfg, nvec, ts);
      (k in d <==> k in yaml && k in fields) && (k in d ==> d[k] == Scalar(yaml[k]))
  {
  }

  /** The keys it sets, with the values it sets them to. */
  lemma BaseSets(yaml: map<string, Value>, fields: set<string>, cfg: int, nvec: Option<int>, ts: string)
    ensures var d := BaseData(yaml, fields, cfg, nvec, ts);
      d["cfg_id"] == Scalar(Str(Pad2(cfg))) &&
      d["momentum_list"] == Strings(MesonXml.GenMomList()) &&
      d["displacement_list"] == Strings(MesonXml.DisplacementList()) &&
      d["disco_displacement_list"] == Strings(DiscoXml.DisplacementList()) &&
      d["disco_t_sources"] == Strings(DiscoXml.DisplacementList()) &&
      d["tsrc"] == Scalar(Int(24)) && d["t_sources"] == Scalar(Str(ts)) &&
      (HasNvec(nvec) ==> d["num_vecs_perams"] == Scalar(Int(nvec.value)) && d["meson_nvec"] == Scalar(Int(nvec.value)))
  {
    var filtered := map k | k in yaml && k in fields :: Scalar(yaml[k]);
    FilteredSetsValues(filtered, Scalar(Str(Pad2(cfg))), Strings(MesonXml.GenMomList()),
      Strings(MesonXml.DisplacementList()), Strings(DiscoXml.DisplacementList()), Scalar(Str(ts)));
  }

  /** The data handed to the template is the base data with the ensemble dict merged over it. */
  lemma RenderDataSplit(yaml: map<string, Value>, fields: set<string>, cfg: int, nvec: Option<int>)
    requires RenderData(yaml, fields, cfg, nvec).Ok?
    ensures TSources(yaml).Ok?
    ensures var base := BaseData(yaml, fields, cfg, nvec, TSources(yaml).value);
      EnsShort(base).Ok? && ChromaShTags.ParseEnsemble(EnsShort(base).value).Ok? &&
      RenderData(yaml, fields, cfg, nvec).value == base + EnsEntries(ChromaShTags.ParseEnsemble(EnsShort(base).value).value)
  {
  }

  /** The data keeps exactly the YAML entries the class declares, apart from the keys it sets
      and the ensemble's, and holds the keys it sets as it sets them: none of those is a key
      of the ensemble dict. */
  lemma RenderDataRules(yaml: map<string, Value>, fields: set<string>, cfg: int, nvec: Option<int>, k: string)
    requires RenderData(yaml, fields, cfg, nvec).Ok?
    ensures var d := RenderData(yaml, fields, cfg, nvec).value; var base := BaseData(yaml, fields, cfg, nvec, TSources(yaml).value);
      (k !in SetHere && k !in FieldNames ==> (k in d <==> k in yaml && k in fields) && (k in d ==> d[k] == Scalar(yaml[k]))) &&
      (k in SetHere && k in base ==> k in d && d[k] == base[k])
  {
    RenderDataSplit(yaml, fields, cfg, nvec);
    var ts := TSources(yaml).value;
    var base := BaseData(yaml, fields, cfg, nvec, ts);
    var ens := EnsEntries(ChromaShTags.ParseEnsemble(EnsShort(base).value).value);
    SetHereNotFields();
    if k !in SetHere {
      BaseKeeps(yaml, fields, cfg, nvec, ts, k);
    }
    assert k in FieldNames || k !in ens;
  }

  lemma SetHereNotFields()
    ensures forall k | k in SetHere :: k !in FieldNames
  {
  }

  /** Without `ens_short` among the kept entries, `parse_ensemble('')` raises KeyError(''). */
  lemma RenderDataNoTag(yaml: map<string, Value>, fields: set<string>, cfg: int, nvec: Option<int>)
    requires TSources(yaml).Ok? && !("ens_short" in yaml && "ens_short" in fields)
    ensures RenderData(yaml, fields, cfg, nvec) == Err(KeyError(""))
  {
    var ts := TSources(yaml).value;
    EnsShortNotSetHere();
    BaseKeeps(yaml, fields, cfg, nvec, ts, "ens_short");
    var base := BaseData(yaml, fields, cfg, nvec, ts);
    assert EnsShort(base) == Ok("");
    EmptyTagUnknown();
  }

  /** `ens_short` is not one of the keys `filtered_data` sets itself. */
  lemma EnsShortNotSetHere()
    ensures "ens_short" !in SetHere
  {
  }

  /** The empty tag is not a key of the table. */
  lemma EmptyTagUnknown()
    ensures "" !in ChromaShTags.LongTag
  {
    forall i | 0 <= i < |ChromaShTags.Table|
      ensures ChromaShTags.Table[i].0 != ""
    {
    }
  }
}
