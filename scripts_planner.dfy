/** The planning half of `process_yaml_file` in scripts/create_tasks_ens.py: the ensemble's
    dict is merged into the YAML data, the requested tasks are expanded into run objects,
    and for every config id of the range each object's file is located, skipped when it
    exists and overwriting is off, or rendered from its template and written.

    Directory creation, printing and YAML loading are not modelled: the YAML document is the
    map it loads to, and the Jinja2 templates are an oracle from a template file name and the
    template data to the rendered text or the exception rendering raises. */
module ScriptsPlanner {
  import opened Py
  import opened TagPatterns
  import opened EnsTags
  import opened ScriptsEnsemble
  import opened JobData
  import opened Plan
  import opened Momenta
  import MesonXml
  import DiscoXml

  // ------------------------------------------------------------ run objects

  /** The task names the expansion recognises. */
  const TaskNames: seq<string> :=
    ["eigs", "peram_mg", "peram_charm_mg", "peram_charm_mg_eric", "peram_clover",
     "peram_charm_clover", "peram", "meson", "disco"]

  /** The run objects one task adds. The task is compared with `==`, so only a listed name
      adds anything: the object of the same name, then its job script. */
  function TaskObjects(task: string): (objs: seq<string>)
    ensures objs == [] <==> task !in TaskNames
    ensures objs != [] ==> |objs| == 2 && objs[0] == task
  {
    if task == "eigs" then ["eigs", "chroma_eigs"]
    else if task == "peram_mg" then ["peram_mg", "chroma_peram_mg"]
    else if task == "peram_charm_mg" then ["peram_charm_mg", "chroma_peram_charm_mg"]
    else if task == "peram_charm_mg_eric" then ["peram_charm_mg_eric", "chroma_peram_charm_mg"]
    else if task == "peram_clover" then ["peram_clover", "chroma_peram_clover"]
    else if task == "peram_charm_clover" then ["peram_charm_clover", "chroma_peram_charm_clover"]
    else if task == "peram" then ["peram", "chroma_peram"]
    else if task == "meson" then ["meson", "chroma_meson"]
    else if task == "disco" then ["disco", "chroma_disco"]
    else []
  }

  /** `run_objects` after the loop over the tasks, before duplicates are removed. */
  function Expanded(tasks: seq<string>): seq<string>
  {
    FlatMap(TaskObjects, tasks)
  }

  /** The loop that extends `run_objects` task by task. */
  method ExpandTasks(tasks: seq<string>) returns (objs: seq<string>)
    ensures objs == Expanded(tasks)
  {
    objs := [];
    var i := 0;
    while i < |tasks|
      invariant 0 <= i <= |tasks|
      invariant objs == FlatMap(TaskObjects, tasks[..i])
    {
      assert tasks[..i + 1][..i] == tasks[..i];
      objs := objs + TaskObjects(tasks[i]);
      i := i + 1;
    }
    assert tasks[..i] == tasks;
  }

  /** `list(dict.fromkeys(run_objects))`: each object once, where it first occurs. */
  function RunObjects(tasks: seq<string>): (objs: seq<string>)
    ensures NoDups(objs)
  {
    Dedup(Expanded(tasks))
  }

  /** An object is run exactly when one of the tasks adds it; unknown tasks add nothing. */
  lemma RunObjectsMembers(tasks: seq<string>, x: string)
    ensures x in RunObjects(tasks) <==> exists i | 0 <= i < |tasks| :: x in TaskObjects(tasks[i])
  {
    FlatMapMembers(TaskObjects, tasks, x);
  }

  /** Two tasks that share a job script run it once, where the first of them put it. */
  lemma RunObjectsShared()
    ensures RunObjects(["peram_charm_mg", "peram_charm_mg_eric"])
      == ["peram_charm_mg", "chroma_peram_charm_mg", "peram_charm_mg_eric"]
  {
    var a, b, c := "peram_charm_mg", "chroma_peram_charm_mg", "peram_charm_mg_eric";
    FlatMapTwo(TaskObjects, a, c);
    assert TaskObjects(a) == [a, b];
    assert TaskObjects(c) == [c, b];
    assert [a, b] + [c, b] == [a, b, c] + [b];
    SharedDedup(a, b, c);
  }

  /** Deduplicating the expansion of the two tasks drops the second copy of the script. */
  lemma SharedDedup(a: string, b: string, c: string)
    requires a == "peram_charm_mg" && b == "chroma_peram_charm_mg" && c == "peram_charm_mg_eric"
    ensures Dedup([a, b, c] + [b]) == [a, b, c]
  {
    assert b in [a, b, c];
    DedupSnoc([a, b, c], b);
    assert a != c && b != c;
    assert [a, b] + [c] == [a, b, c];
    DedupSnoc([a, b], c);
    assert a != b;
    assert [a] + [b] == [a, b];
    DedupSnoc([a], b);
    assert [] + [a] == [a];
    DedupSnoc([], a);
  }

  // -------------------------------------------------------- where files go

  /** The sub-directory of the run path an object's files go to. */
  function TaskDir(obj: string): string
  {
    if obj in ["eigs", "chroma_eigs"] then "ini-eigs"
    else if obj in ["peram_mg", "chroma_peram_mg"] then "ini-perams"
    else if obj in ["peram_charm_mg", "chroma_peram_charm_mg"] then "ini-perams-charm"
    else if obj in ["meson", "chroma_meson"] then "ini-meson"
    else if obj in ["disco", "chroma_disco"] then "ini-disco"
    else "ini-other"
  }

  /** A task's input file and its job script share a directory, except for
      `peram_charm_mg_eric`, whose input goes to `ini-other` while the script it shares with
      `peram_charm_mg` goes to `ini-perams-charm`. */
  lemma TaskDirPairs(task: string)
    requires task in TaskNames
    ensures var objs := TaskObjects(task);
      (task != "peram_charm_mg_eric" <==> TaskDir(objs[0]) == TaskDir(objs[1]))
  {
    if task in ["eigs", "peram_mg", "peram_charm_mg"] {
      SharedDirs1(task);
    } else if task in ["meson", "disco"] {
      SharedDirs2(task);
    } else if task in ["peram_clover", "peram_charm_clover", "peram"] {
      SharedDirs3(task);
    } else {
      EricDirs();
    }
  }

  lemma SharedDirs1(task: string)
    requires task in ["eigs", "peram_mg", "peram_charm_mg"]
    ensures TaskDir(TaskObjects(task)[0]) == TaskDir(TaskObjects(task)[1])
  {
  }

  lemma SharedDirs2(task: string)
    requires task in ["meson", "disco"]
    ensures TaskDir(TaskObjects(task)[0]) == TaskDir(TaskObjects(task)[1])
  {
  }

  lemma SharedDirs3(task: string)
    requires task in ["peram_clover", "peram_charm_clover", "peram"]
    ensures TaskDir(TaskObjects(task)[0]) == TaskDir(TaskObjects(task)[1])
  {
  }

  lemma EricDirs()
    ensures TaskDir("peram_charm_mg_eric") == "ini-other"
    ensures TaskDir("chroma_peram_charm_mg") == "ini-perams-charm"
  {
  }

  /** `ini_out`: a job script's file name from the second `_`-field of its object, the
      other objects' from the whole object. */
  function FileName(obj: string, cfg: int): Result<string>
  {
    if obj in ["chroma_eigs", "chroma_disco"] then ScriptName(obj, cfg)
    else if obj != "chroma_eigs" && StartsWith(obj, "chroma") then ScriptName(obj, cfg)
    else if obj == "peram_charm_mg" then Ok("peram_charm_mg_cfg" + Pad2(cfg) + ".ini.xml")
    else if obj in ["disco", "eigs"] then Ok(obj + "_cfg" + Pad2(cfg) + ".ini.xml")
    else Ok(obj + "_cfg" + Pad2(cfg) + ".ini.xml")
  }

  /** The five branches come to two rules: a `chroma` object's script is named after the
      second `_`-field of the object, raising IndexError when there is none, and every other
      object's input file after the whole object. */
  lemma FileNameRules(obj: string, cfg: int)
    ensures FileName(obj, cfg).Err? <==> StartsWith(obj, "chroma") && '_' !in obj
    ensures !StartsWith(obj, "chroma") ==> FileName(obj, cfg) == Ok(obj + "_cfg" + Pad2(cfg) + ".ini.xml")
    ensures StartsWith(obj, "chroma") && '_' in obj ==>
      FileName(obj, cfg) == Ok(Split(obj, '_')[1] + "_cfg" + Pad2(cfg) + ".sh")
  {
    if StartsWith(obj, "chroma") {
      ScriptRule(obj, cfg);
    } else {
      InputRule(obj, cfg);
    }
  }

  lemma ScriptRule(obj: string, cfg: int)
    requires StartsWith(obj, "chroma")
    ensures FileName(obj, cfg) == ScriptName(obj, cfg)
  {
  }

  lemma InputRule(obj: string, cfg: int)
    requires !StartsWith(obj, "chroma")
    ensures FileName(obj, cfg) == Ok(obj + "_cfg" + Pad2(cfg) + ".ini.xml")
  {
    if obj in ["chroma_eigs", "chroma_disco"] {
      ChromaListed(obj);
      assert false;
    } else if obj == "peram_charm_mg" {
      PeramCharmName(cfg);
    }
  }

  lemma ChromaListed(obj: string)
    requires obj in ["chroma_eigs", "chroma_disco"]
    ensures StartsWith(obj, "chroma") && '_' in obj
  {
    assert obj[6] == '_';
  }

  lemma PeramCharmName(cfg: int)
    ensures !StartsWith("peram_charm_mg", "chroma")
    ensures "peram_charm_mg_cfg" + Pad2(cfg) + ".ini.xml" == "peram_charm_mg" + "_cfg" + Pad2(cfg) + ".ini.xml"
  {
    assert "peram_charm_mg"[0] != "chroma"[0];
    assert "peram_charm_mg_cfg" == "peram_charm_mg" + "_cfg";
  }

  /** `obj_dir`: `run_path/task_dir/cnfg{cfg_id:02d}`. */
  function ObjDir(runPath: string, cfg: int, obj: string): (d: string)
    ensures |d| > 0 && d[|d| - 1] != '/'
  {
    var sub := "cnfg" + Pad2(cfg);
    var d := PathJoin(PathJoin(runPath, TaskDir(obj)), sub);
    PadShape(cfg);
    assert d[|d| - 1] == sub[|sub| - 1];
    d
  }

  /** `ini_out_path`, or the exception working out the file name raises. */
  function Locate(runPath: string, cfg: int, obj: string): (r: Result<string>)
    ensures r.Ok? <==> FileName(obj, cfg).Ok?
  {
    var name :- FileName(obj, cfg);
    Ok(PathJoin(ObjDir(runPath, cfg, obj), name))
  }

  /** For an object without '/', the file sits directly in the object's directory and the
      last path component is the file name. */
  lemma LocateShape(runPath: string, cfg: int, obj: string)
    requires SlashFree(obj) && FileName(obj, cfg).Ok?
    ensures var name := FileName(obj, cfg).value;
      SlashFree(name) &&
      Locate(runPath, cfg, obj) == Ok(ObjDir(runPath, cfg, obj) + "/" + name) &&
      AfterLastSlash(Locate(runPath, cfg, obj).value) == name
  {
    var name := FileName(obj, cfg).value;
    NameSlashFree(obj, cfg);
    PathJoinName(ObjDir(runPath, cfg, obj), name);
    AfterLastSlashJoin(ObjDir(runPath, cfg, obj), name);
  }

  /** A file name made from an object without '/' has none either. */
  lemma NameSlashFree(obj: string, cfg: int)
    requires SlashFree(obj) && FileName(obj, cfg).Ok?
    ensures SlashFree(FileName(obj, cfg).value) && FileName(obj, cfg).value != ""
  {
    FileNameRules(obj, cfg);
    if StartsWith(obj, "chroma") {
      ScriptSlashFree(obj, cfg);
    } else {
      InputSlashFree(obj, cfg);
    }
  }

  lemma ScriptSlashFree(obj: string, cfg: int)
    requires SlashFree(obj) && '_' in obj
    ensures |Split(obj, '_')| >= 2
    ensures SlashFree(Split(obj, '_')[1] + "_cfg" + Pad2(cfg) + ".sh")
  {
    PadShape(cfg);
    assert SlashFree(Split(obj, '_')[1]);
  }

  lemma InputSlashFree(obj: string, cfg: int)
    requires SlashFree(obj)
    ensures SlashFree(obj + "_cfg" + Pad2(cfg) + ".ini.xml")
  {
    PadShape(cfg);
  }

  /** One object's files for two different config ids never coincide. */
  lemma LocateCfgInjective(runPath: string, c1: int, c2: int, obj: string)
    requires SlashFree(obj) && FileName(obj, c1).Ok? && FileName(obj, c2).Ok?
    requires Locate(runPath, c1, obj) == Locate(runPath, c2, obj)
    ensures c1 == c2
  {
    LocateShape(runPath, c1, obj);
    LocateShape(runPath, c2, obj);
    FileNameRules(obj, c1);
    FileNameRules(obj, c2);
    var n1 := FileName(obj, c1).value;
    var n2 := FileName(obj, c2).value;
    assert n1 == n2;
    var head := if StartsWith(obj, "chroma") then Split(obj, '_')[1] + "_cfg" else obj + "_cfg";
    var ext := if StartsWith(obj, "chroma") then ".sh" else ".ini.xml";
    assert n1 == head + Pad2(c1) + ext && n2 == head + Pad2(c2) + ext;
    assert Pad2(c1) == n1[|head|..|n1| - |ext|];
    assert Pad2(c2) == n2[|head|..|n2| - |ext|];
    Pad2Injective(c1, c2);
  }

  /** The job scripts of `peram`, `peram_clover` and `peram_charm_clover` are all
      `ini-other/cnfgNN/peram_cfgNN.sh`: each run writes the same file for all three. */
  lemma ChromaPeramCollision(runPath: string, cfg: int)
    ensures var path := PathJoin(ObjDir(runPath, cfg, "chroma_peram"), "peram_cfg" + Pad2(cfg) + ".sh");
      Locate(runPath, cfg, "chroma_peram") == Ok(path) &&
      Locate(runPath, cfg, "chroma_peram_clover") == Ok(path) &&
      Locate(runPath, cfg, "chroma_peram_charm_clover") == Ok(path)
  {
    PeramAt(runPath, cfg);
    PeramCloverAt(runPath, cfg);
    PeramCharmCloverAt(runPath, cfg);
  }

  lemma PeramAt(runPath: string, cfg: int)
    ensures Locate(runPath, cfg, "chroma_peram") ==
      Ok(PathJoin(ObjDir(runPath, cfg, "chroma_peram"), "peram_cfg" + Pad2(cfg) + ".sh"))
  {
    assert "chroma_peram" + "" == "chroma_peram";
    PeramScript(cfg, "");
  }

  lemma PeramCloverAt(runPath: string, cfg: int)
    ensures Locate(runPath, cfg, "chroma_peram_clover") ==
      Ok(PathJoin(ObjDir(runPath, cfg, "chroma_peram"), "peram_cfg" + Pad2(cfg) + ".sh"))
  {
    assert "chroma_peram" + "_clover" == "chroma_peram_clover";
    PeramScript(cfg, "_clover");
    OtherDirs();
  }

  lemma PeramCharmCloverAt(runPath: string, cfg: int)
    ensures Locate(runPath, cfg, "chroma_peram_charm_clover") ==
      Ok(PathJoin(ObjDir(runPath, cfg, "chroma_peram"), "peram_cfg" + Pad2(cfg) + ".sh"))
  {
    assert "chroma_peram" + "_charm_clover" == "chroma_peram_charm_clover";
    PeramScript(cfg, "_charm_clover");
    OtherDirs();
  }

  lemma OtherDirs()
    ensures TaskDir("chroma_peram") == "ini-other"
    ensures TaskDir("chroma_peram_clover") == "ini-other"
    ensures TaskDir("chroma_peram_charm_clover") == "ini-other"
  {
  }

  /** `chroma_peram` followed by more `_`-fields is named like `chroma_peram`. */
  lemma PeramScript(cfg: int, rest: string)
    requires rest == [] || rest[0] == '_'
    ensures FileName("chroma_peram" + rest, cfg) == Ok("peram_cfg" + Pad2(cfg) + ".sh")
  {
    var obj := "chroma_peram" + rest;
    ChromaPeramFields(rest);
    SplitFirst("chroma", '_', "peram" + rest);
    SplitHead("peram", '_', rest);
    FileNameRules(obj, cfg);
    PeramScriptName(cfg);
  }

  lemma ChromaPeramFields(rest: string)
    ensures "chroma_peram" + rest == "chroma" + ['_'] + ("peram" + rest)
    ensures StartsWith("chroma_peram" + rest, "chroma")
  {
    assert "chroma_peram" == "chroma" + ['_'] + "peram";
  }

  lemma PeramScriptName(cfg: int)
    ensures "peram" + "_cfg" + Pad2(cfg) + ".sh" == "peram_cfg" + Pad2(cfg) + ".sh"
  {
    assert "peram" + "_cfg" == "peram_cfg";
  }

  // -------------------------------------------------------------- rendering

  /** `handler.templates`: the template file of each object that has one. */
  const Templates: map<string, string> := map[
    "eigs" := "eigs_eric.jinja.xml",
    "peram_clover" := "peram_clover.jinja.xml",
    "peram_charm_clover" := "peram_charm_clover.jinja.xml",
    "peram_mg" := "peram_multigrid_eric.jinja.xml",
    "peram_strange_mg" := "peram_strange_multigrid.jinja.xml",
    "peram_charm_mg" := "peram_charm_multigrid_eric.jinja.xml",
    "peram" := "peram_multigrid.jinja.xml",
    "meson" := "meson_eric.jinja.xml",
    "disco" := "disco.jinja.xml",
    "chroma_eigs" := "eigs.sh.j2",
    "chroma_peram" := "peram_jureca.sh.j2",
    "chroma_peram_mg" := "peram_juwels.sh.j2",
    "chroma_peram_charm_mg" := "peram_charm_juwels.sh.j2",
    "chroma_peram_clover" := "peram_clover.sh.j2",
    "chroma_peram_charm_clover" := "peram_charm_clover.sh.j2",
    "chroma_meson" := "meson_juwels.sh.j2",
    "chroma_meson_jureca" := "meson_jureca.sh.j2",
    "chroma_disco" := "disco.sh.j2"]

  /** Every run object a task can add has a template, except `peram_charm_mg_eric`. */
  lemma TemplatesCover(task: string, k: nat)
    requires k < |TaskObjects(task)|
    ensures TaskObjects(task)[k] in Templates <==> TaskObjects(task)[k] != "peram_charm_mg_eric"
  {
  }

  /** The keys the loop sets in `filtered_data`. */
  const RenderKeys: set<string> :=
    {"cfg_id", "momentum_list", "displacement_list", "disco_displacement_list", "disco_t_sources"}

  /** `filtered_data` for one config id: a copy of the data with the padded id, the meson
      momentum and displacement lists and the disco displacement list (twice) set on top. */
  function RenderData(data: map<string, Value>, cfg: int): map<string, Entry>
  {
    (map k | k in data :: Scalar(data[k]))["cfg_id" := Scalar(Str(Pad2(cfg)))]
      ["momentum_list" := Strings(MesonXml.GenMomList())]
      ["displacement_list" := Strings(MesonXml.DisplacementList())]
      ["disco_displacement_list" := Strings(DiscoXml.DisplacementList())]
      ["disco_t_sources" := Strings(DiscoXml.DisplacementList())]
  }

  /** What every template receives: each key of the data but the five the loop sets, with
      its value; the padded config id, which reads back as the id; the texts of the three
      meson momenta and of the two meson displacements; and the thirteen disco
      displacements, where `disco_t_sources` is that displacement list again rather than a
      list of time sources. */
  lemma RenderDataRules(data: map<string, Value>, cfg: int)
    ensures var r := RenderData(data, cfg);
      forall k | k !in RenderKeys :: (k in r <==> k in data) && (k in data ==> r[k] == Scalar(data[k]))
    ensures var r := RenderData(data, cfg);
      RenderKeys <= r.Keys && r["cfg_id"].Scalar? && r["cfg_id"].v.Str? &&
      ParseInt(r["cfg_id"].v.s) == Some(cfg) && |r["cfg_id"].v.s| >= 2
    ensures var r := RenderData(data, cfg);
      r["momentum_list"].Strings? && Writes(r["momentum_list"].items, MesonXml.MesonMoms) &&
      r["displacement_list"].Strings? && WritesDisps(r["displacement_list"].items, MesonXml.MesonDisps) &&
      r["disco_displacement_list"].Strings? && WritesDisps(r["disco_displacement_list"].items, DiscoXml.DiscoDisps) &&
      r["disco_t_sources"] == r["disco_displacement_list"]
  {
    RenderDataSets(data, cfg);
  }

  /** The five keys the loop sets, with their values. */
  lemma RenderDataSets(data: map<string, Value>, cfg: int)
    ensures var r := RenderData(data, cfg);
      RenderKeys <= r.Keys && r["cfg_id"] == Scalar(Str(Pad2(cfg))) &&
      ParseInt(Pad2(cfg)) == Some(cfg) && |Pad2(cfg)| >= 2 &&
      r["momentum_list"] == Strings(MesonXml.GenMomList()) &&
      r["displacement_list"] == Strings(MesonXml.DisplacementList()) &&
      r["disco_displacement_list"] == Strings(DiscoXml.DisplacementList()) &&
      r["disco_t_sources"] == Strings(DiscoXml.DisplacementList())
  {
    var base := (map k | k in data :: Scalar(data[k]))["cfg_id" := Scalar(Str(Pad2(cfg)))];
    assert base["cfg_id"] == Scalar(Str(Pad2(cfg)));
    var moms := base["momentum_list" := Strings(MesonXml.GenMomList())]
      ["displacement_list" := Strings(MesonXml.DisplacementList())];
    assert moms["cfg_id"] == Scalar(Str(Pad2(cfg)));
    assert moms["momentum_list"] == Strings(MesonXml.GenMomList());
    var r := moms["disco_displacement_list" := Strings(DiscoXml.DisplacementList())]
      ["disco_t_sources" := Strings(DiscoXml.DisplacementList())];
    assert r == RenderData(data, cfg);
  }

  /** `handler.templates[obj].render(filtered_data)`: an object without a template raises
      KeyError; every other object's file is its template rendered on the template data. */
  function RenderObj(oracle: Oracle, data: map<string, Value>, cfg: int, obj: string): (r: Result<string>)
    ensures obj !in Templates ==> r == Err(KeyError(obj))
    ensures obj in Templates ==> r == oracle(Templates[obj], RenderData(data, cfg))
  {
    if obj !in Templates then Err(KeyError(obj))
    else oracle(Templates[obj], RenderData(data, cfg))
  }

  // ---------------------------------------------------------- template data

  /** The keys the loops read from the YAML document are not overwritten by the ensemble. */
  lemma YamlKeysKept()
    ensures "run_path" !in FieldNames && "run_path" !in SetKeys
    ensures "cfg_i" !in FieldNames && "cfg_i" !in SetKeys
    ensures "cfg_f" !in FieldNames && "cfg_f" !in SetKeys
    ensures "cfg_d" !in FieldNames && "cfg_d" !in SetKeys
  {
  }

  // ------------------------------------------------------------ one YAML file

  /** `parse_ensemble` as written, or as its `else` branch means it. */
  function Parse(shortTag: string, asWritten: bool): (r: Result<Info>)
    ensures r.Ok? ==> NL in r.value && NT in r.value
  {
    if asWritten then ParseEnsembleAsWritten(shortTag) else ParseEnsemble(shortTag)
  }

  /** What the loops run with. */
  datatype Setup = Setup(data: map<string, Value>, runPath: string, objs: seq<string>, cfgs: seq<int>)

  /** Everything `process_yaml_file` does before its loops, from the result of
      `parse_ensemble`, with the exceptions it raises in the order it raises them. */
  function Prepare(parsed: Result<Info>, shortTag: string, yaml: map<string, Value>, tasks: seq<string>): (r: Result<Setup>)
    requires parsed.Ok? ==> NL in parsed.value && NT in parsed.value
    ensures parsed.Err? ==> r == Err(parsed.error)
    ensures r.Ok? <==> parsed.Ok? && "run_path" in yaml && yaml["run_path"].Str? && CfgArgs(yaml)
    ensures r.Ok? ==> yaml["run_path"] == Str(r.value.runPath)
    ensures r.Ok? ==> r.value.objs == RunObjects(tasks)
    ensures r.Ok? ==> r.value.cfgs == Range(yaml["cfg_i"].i, yaml["cfg_f"].i, yaml["cfg_d"].i)
  {
    var props :- parsed;
    var data := DataMap(shortTag, yaml, props);
    YamlKeysKept();
    var runPath :- PathArg(data, "run_path");
    var objs := RunObjects(tasks);
    var cfgI :- Lookup(data, "cfg_i");
    var cfgF :- Lookup(data, "cfg_f");
    var cfgD :- Lookup(data, "cfg_d");
    var cfgs :- CfgRange(cfgI, cfgF, cfgD);
    Ok(Setup(data, runPath, objs, cfgs))
  }

  /** Where a step's file goes, for a run path. */
  function LocateIn(runPath: string): Plan.Locate
  {
    (cfg: int, obj: string) => Locate(runPath, cfg, obj)
  }

  /** What a step's file holds, for the template data of a run. */
  function RenderIn(oracle: Oracle, data: map<string, Value>): Plan.Render
  {
    (cfg: int, obj: string) => RenderObj(oracle, data, cfg, obj)
  }

  /** The steps of a prepared run. */
  function RunSetup(s: Setup, overwrite: bool, oracle: Oracle, fs: set<string>): Outcome
  {
    Run(LocateIn(s.runPath), RenderIn(oracle, s.data), overwrite, Steps(s.cfgs, s.objs), fs)
  }

  /** `process_yaml_file` for the YAML document of ensemble `shortTag`, the tasks and the
      overwrite flag of the command line, and the files that exist when it starts. */
  function Process(shortTag: string, yaml: map<string, Value>, tasks: seq<string>, overwrite: bool,
                   asWritten: bool, oracle: Oracle, fs: set<string>): (o: Outcome)
    ensures Parse(shortTag, asWritten).Err? ==> o == Outcome([], Some(Parse(shortTag, asWritten).error))
  {
    match Prepare(Parse(shortTag, asWritten), shortTag, yaml, tasks)
    case Err(e) => Outcome([], Some(e))
    case Ok(s) => RunSetup(s, overwrite, oracle, fs)
  }

  /** The function body step by step: the expansion loop, then the nested loops. */
  method ProcessYamlFile(shortTag: string, yaml: map<string, Value>, tasks: seq<string>, overwrite: bool,
                         asWritten: bool, oracle: Oracle, fs: set<string>)
    returns (writes: seq<Write>, error: Option<PyError>, fsOut: set<string>)
    ensures Outcome(writes, error) == Process(shortTag, yaml, tasks, overwrite, asWritten, oracle, fs)
    ensures fsOut == fs + Paths(writes)
  {
    var props := Parse(shortTag, asWritten);
    if props.Err? {
      return [], Some(props.error), fs;
    }
    var data := DataMap(shortTag, yaml, props.value);
    var runPath := PathArg(data, "run_path");
    if runPath.Err? {
      return [], Some(runPath.error), fs;
    }
    var expanded := ExpandTasks(tasks);
    var objs := Dedup(expanded);
    var cfgI := Lookup(data, "cfg_i");
    var cfgF := Lookup(data, "cfg_f");
    var cfgD := Lookup(data, "cfg_d");
    if cfgI.Err? || cfgF.Err? || cfgD.Err? {
      error := if cfgI.Err? then Some(cfgI.error) else if cfgF.Err? then Some(cfgF.error) else Some(cfgD.error);
      return [], error, fs;
    }
    var cfgs := CfgRange(cfgI.value, cfgF.value, cfgD.value);
    if cfgs.Err? {
      return [], Some(cfgs.error), fs;
    }
    assert Prepare(props, shortTag, yaml, tasks) == Ok(Setup(data, runPath.value, objs, cfgs.value));
    writes, error, fsOut := RunLoops(LocateIn(runPath.value), RenderIn(oracle, data), overwrite, cfgs.value, objs, fs);
  }

  // ------------------------------------------------------ what a run promises

  /** As written, a `_ms` ensemble stops the generator with KeyError('mc') before any file is
      written; with the derivation as meant, it gets as far as the YAML document allows. */
  lemma ProcessAsWrittenMs(shortTag: string, yaml: map<string, Value>, tasks: seq<string>, overwrite: bool,
                           oracle: Oracle, fs: set<string>)
    requires shortTag in LongTag && !McStyleTag(shortTag)
    ensures Process(shortTag, yaml, tasks, overwrite, true, oracle, fs) == Outcome([], Some(KeyError("mc")))
    ensures Prepare(Parse(shortTag, false), shortTag, yaml, tasks).Ok? <==>
      "run_path" in yaml && yaml["run_path"].Str? && CfgArgs(yaml)
  {
    ParseEnsembleAsWrittenMs(shortTag);
  }

  /** Every file a run writes is the file of a config id of the range and a requested object. */
  lemma RunSetupLocated(s: Setup, overwrite: bool, oracle: Oracle, fs: set<string>, k: nat)
    requires k < |RunSetup(s, overwrite, oracle, fs).writes|
    ensures var w := RunSetup(s, overwrite, oracle, fs).writes[k];
      exists cfg, i | cfg in s.cfgs && 0 <= i < |s.objs| ::
        w.obj == s.objs[i] && Locate(s.runPath, cfg, s.objs[i]) == Ok(w.path)
  {
    var steps := Steps(s.cfgs, s.objs);
    RunWritesLocated(LocateIn(s.runPath), RenderIn(oracle, s.data), overwrite, steps, fs, k);
    var w := RunSetup(s, overwrite, oracle, fs).writes[k];
    var j :| 0 <= j < |steps| && w.obj == steps[j].1 && LocateIn(s.runPath)(steps[j].0, steps[j].1) == Ok(w.path);
    StepsMembers(s.cfgs, s.objs, j);
    var i :| 0 <= i < |s.objs| && s.objs[i] == steps[j].1;
    assert w.obj == s.objs[i] && Locate(s.runPath, steps[j].0, s.objs[i]) == Ok(w.path);
  }

  /** With `--overwrite`, a run whose objects include `peram_charm_mg_eric` and whose config
      range is not empty always ends with an exception: that object has no template. */
  lemma RunSetupEricFails(s: Setup, oracle: Oracle, fs: set<string>)
    requires "peram_charm_mg_eric" in s.objs && s.cfgs != []
    ensures RunSetup(s, true, oracle, fs).error.Some?
  {
    var locate, render := LocateIn(s.runPath), RenderIn(oracle, s.data);
    var steps := Steps(s.cfgs, s.objs);
    var i := FirstIndex(s.objs, "peram_charm_mg_eric");
    assert steps == Row(s.cfgs[0], s.objs) + Steps(s.cfgs[1..], s.objs);
    assert steps[i] == (s.cfgs[0], "peram_charm_mg_eric");
    assert render(s.cfgs[0], "peram_charm_mg_eric").Err?;
    if Run(locate, render, true, steps, fs).error.None? {
      RunOverwriteAll(locate, render, steps, fs);
      assert false;
    }
  }

  /** Requesting `peram_charm_mg_eric` puts its object among the run objects. */
  lemma EricRequested(tasks: seq<string>)
    requires "peram_charm_mg_eric" in tasks
    ensures "peram_charm_mg_eric" in RunObjects(tasks)
  {
    var t :| 0 <= t < |tasks| && tasks[t] == "peram_charm_mg_eric";
    assert TaskObjects(tasks[t])[0] == "peram_charm_mg_eric";
    RunObjectsMembers(tasks, "peram_charm_mg_eric");
  }

  /** The config ids are those of `range`: they start at `cfg_i` and stop before `cfg_f`. */
  lemma CfgIds(i: int, f: int, d: int)
    requires d != 0
    ensures var r := Range(i, f, d);
      (d > 0 ==> forall k | 0 <= k < |r| :: i <= r[k] < f) &&
      (d < 0 ==> forall k | 0 <= k < |r| :: i >= r[k] > f)
  {
    RangeValues(i, f, d);
    RangeBounds(i, f, d);
    var r := Range(i, f, d);
    forall k | 0 <= k < |r|
      ensures d > 0 ==> i <= r[k]
      ensures d < 0 ==> i >= r[k]
    {
      if d > 0 { assert k * d >= 0; } else { assert k * d <= 0; }
    }
  }
}
