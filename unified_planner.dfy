/** The unified generator create_tasks_ens.py at the repository root: `parse_ensemble` without
    the derived configuration paths, and `process_yaml_file`, which merges the ensemble's dict
    into the YAML data, expands the tasks (the peram tasks through the parser of
    `UnifiedTasks`), and for every config id of the range locates each run object's file,
    skips it when it exists and overwriting is off, or renders it from its template.

    Directory creation, printing and YAML loading are not modelled. The Jinja2 templates are
    an oracle, and the meson lists the template data receives come from a module that is not
    part of this model, so they are a parameter. */
module UnifiedPlanner {
  import opened Py
  import opened TagPatterns
  import opened EnsTags
  import opened JobData
  import opened Plan
  import opened UnifiedTasks
  import DiscoXml

  // --------------------------------------------------------- parse_ensemble

  /** `parse_ensemble(short_tag)`: the lines that derive `cfg_path` and `cfg_name` are
      commented out, so the dict holds the converted groups and nothing else. */
  function ParseEnsemble(shortTag: string): (r: Result<Info>)
    ensures r.Err? <==> shortTag !in LongTag
    ensures r.Err? ==> r.error == ValueError("Unknown ensemble short tag: " + shortTag)
    ensures r.Ok? ==> InfoWell(shortTag, r.value) && CfgPath !in r.value && CfgName !in r.value
  {
    if shortTag !in LongTag then Decode(shortTag)
    else
      TableDecodes(shortTag);
      FirstMatchNoCfg(Patterns, LongTag[shortTag]);
      Decode(shortTag)
  }

  /** Neither pattern has a group for the configuration path or name. */
  lemma FirstMatchNoCfg(ps: seq<Pattern>, s: string)
    ensures CfgPath !in FirstMatch(ps, s) && CfgName !in FirstMatch(ps, s)
  {
    var rs := Matches(ps, s);
    FirstSomeNoCfg(rs);
  }

  lemma {:induction false} FirstSomeNoCfg(rs: seq<Option<Info>>)
    requires forall j | 0 <= j < |rs| && rs[j].Some? :: CfgPath !in rs[j].value && CfgName !in rs[j].value
    ensures CfgPath !in FirstSome(rs) && CfgName !in FirstSome(rs)
  {
    if rs != [] && rs[0].None? {
      assert forall j | 0 <= j < |rs[1..]| :: rs[1..][j] == rs[j + 1];
      FirstSomeNoCfg(rs[1..]);
    }
  }

  // -------------------------------------------------------- where files go

  /** The sub-directory of the launch path an object's files go to. Peram files are sorted
      by the flavor and inverter the data holds when the loops run. */
  function TaskDir(data: map<string, Value>, obj: string): Result<string>
  {
    if obj in ["eigs", "chroma_eigs"] then Ok("ini-eigs")
    else if obj in ["meson", "chroma_meson"] then Ok("ini-meson")
    else if obj in ["meson2", "chroma_meson2"] then Ok("ini-meson2")
    else if obj in ["disco", "chroma_disco"] then Ok("ini-disco")
    else if obj == "peram_unified" || obj == "chroma_peram" then
      var flavor :- Lookup(data, "flavor");
      var inverter :- Lookup(data, "inverter_type");
      Ok("ini-perams-" + Show(flavor) + "-" + Show(inverter))
    else Ok("ini-other")
  }

  /** The directory of a peram object: KeyError for the first of `flavor` and
      `inverter_type` the data lacks, otherwise both values in the name. */
  lemma PeramDir(data: map<string, Value>, obj: string)
    requires obj == "peram_unified" || obj == "chroma_peram"
    ensures "flavor" !in data ==> TaskDir(data, obj) == Err(KeyError("flavor"))
    ensures "flavor" in data && "inverter_type" !in data ==> TaskDir(data, obj) == Err(KeyError("inverter_type"))
    ensures "flavor" in data && "inverter_type" in data ==>
      TaskDir(data, obj) == Ok("ini-perams-" + Show(data["flavor"]) + "-" + Show(data["inverter_type"]))
  {
  }

  /** Every other object's directory does not depend on the data. */
  lemma FixedDirs(data: map<string, Value>, obj: string)
    requires obj != "peram_unified" && obj != "chroma_peram"
    ensures TaskDir(data, obj).Ok?
    ensures TaskDir(data, obj) == TaskDir(map[], obj)
  {
  }

  /** A task's input file and its job script always share a directory. */
  lemma TaskDirPairs(data: map<string, Value>, task: string)
    requires TaskObjects(task) != []
    ensures TaskDir(data, TaskObjects(task)[0]) == TaskDir(data, TaskObjects(task)[1])
  {
    if IsPeram(task) {
      PeramObjectsOf(task);
    }
  }

  /** `ini_out`: a job script's file name from the second `_`-field of its object, every
      other object's from the whole object. */
  function FileName(obj: string, cfg: int): Result<string>
  {
    if obj in ["chroma_eigs", "chroma_disco"] then ScriptName(obj, cfg)
    else if StartsWith(obj, "chroma") && obj !in ["chroma_eigs", "chroma_disco"] then ScriptName(obj, cfg)
    else if obj in ["disco", "eigs"] then Ok(obj + "_cfg" + Pad2(cfg) + ".ini.xml")
    else Ok(obj + "_cfg" + Pad2(cfg) + ".ini.xml")
  }

  /** The four branches come to two rules: a `chroma` object's script is named after the
      second `_`-field of the object, raising IndexError when there is none, and every other
      object's input file after the whole object. */
  lemma FileNameRules(obj: string, cfg: int)
    ensures FileName(obj, cfg).Err? <==> StartsWith(obj, "chroma") && '_' !in obj
    ensures !StartsWith(obj, "chroma") ==> FileName(obj, cfg) == Ok(obj + "_cfg" + Pad2(cfg) + ".ini.xml")
    ensures StartsWith(obj, "chroma") && '_' in obj ==>
      FileName(obj, cfg) == Ok(Split(obj, '_')[1] + "_cfg" + Pad2(cfg) + ".sh")
  {
    if StartsWith(obj, "chroma") {
      ScriptRule(obj, cfg);
    } else {
      InputRule(obj, cfg);
    }
  }

  lemma ScriptRule(obj: string, cfg: int)
    requires StartsWith(obj, "chroma")
    ensures FileName(obj, cfg) == ScriptName(obj, cfg)
  {
  }

  lemma InputRule(obj: string, cfg: int)
    requires !StartsWith(obj, "chroma")
    ensures FileName(obj, cfg) == Ok(obj + "_cfg" + Pad2(cfg) + ".ini.xml")
  {
    if obj in ["chroma_eigs", "chroma_disco"] {
      ChromaListed(obj);
      assert false;
    }
  }

  lemma ChromaListed(obj: string)
    requires obj in ["chroma_eigs", "chroma_disco"]
    ensures StartsWith(obj, "chroma")
  {
  }

  /** The peram job script is `peram_cfgNN.sh`, whatever the flavor and inverter. */
  lemma PeramScriptName(cfg: int)
    ensures FileName("chroma_peram", cfg) == Ok("peram_cfg" + Pad2(cfg) + ".sh")
  {
    ChromaPeramSplit();
    ScriptNameOf("chroma_peram", cfg, "peram");
    PeramCfgText();
  }

  lemma PeramCfgText()
    ensures "peram" + "_cfg" == "peram_cfg"
  {
  }

  lemma ScriptNameOf(obj: string, cfg: int, second: string)
    requires StartsWith(obj, "chroma") && '_' in obj && Split(obj, '_')[1] == second
    ensures FileName(obj, cfg) == Ok(second + "_cfg" + Pad2(cfg) + ".sh")
  {
    FileNameRules(obj, cfg);
  }

  lemma ChromaPeramSplit()
    ensures StartsWith("chroma_peram", "chroma") && '_' in "chroma_peram"
    ensures Split("chroma_peram", '_')[1] == "peram"
  {
    ChromaPeramParts();
    SplitFirst("chroma", '_', "peram");
    PeramHead();
  }

  lemma ChromaPeramParts()
    ensures "chroma_peram" == "chroma" + ['_'] + "peram"
    ensures '_' !in "chroma" && StartsWith("chroma_peram", "chroma") && '_' in "chroma_peram"
  {
    assert "chroma_peram"[..6] == "chroma" && "chroma_peram"[6] == '_';
  }

  lemma PeramHead()
    ensures Split("peram", '_')[0] == "peram"
  {
    SplitHead("peram", '_', "");
    assert "peram" + "" == "peram";
  }

  /** `ini_out_path`: the launch path, the object's directory, `cnfgNN`, the file name; or
      the exception the first failing part raises. */
  function Locate(data: map<string, Value>, cfg: int, obj: string): (r: Result<string>)
    ensures r.Ok? <==> TaskDir(data, obj).Ok? && PathArg(data, "launch_path").Ok? && FileName(obj, cfg).Ok?
    ensures TaskDir(data, obj).Err? ==> r == Err(TaskDir(data, obj).error)
  {
    var dir :- TaskDir(data, obj);
    var launch :- PathArg(data, "launch_path");
    var name :- FileName(obj, cfg);
    Ok(PathJoin(PathJoin(PathJoin(launch, dir), "cnfg" + Pad2(cfg)), name))
  }

  // -------------------------------------------------------------- rendering

  /** `handler.templates`: the template file of each object. */
  const Templates: map<string, string> := map[
    "eigs" := "eigs.jinja.xml",
    "meson" := "meson.jinja.xml",
    "meson2" := "meson2.jinja.xml",
    "disco" := "disco.jinja.xml",
    "peram_unified" := "peram_unified.jinja.xml",
    "chroma_eigs" := "eigs.sh.j2",
    "chroma_meson" := "meson.sh.j2",
    "chroma_meson2" := "meson2.sh.j2",
    "chroma_peram" := "peram_unified.sh.j2",
    "chroma_disco" := "disco.sh.j2"]

  /** Every run object a task can add has a template, and lies in a directory of its own
      kind rather than in `ini-other`. */
  lemma TemplatesCover(data: map<string, Value>, task: string, k: nat)
    requires k < |TaskObjects(task)|
    ensures TaskObjects(task)[k] in Templates
    ensures TaskDir(data, TaskObjects(task)[k]) != Ok("ini-other")
  {
  }

  /** The lists the meson module of the root package supplies: its momentum list, its second
      momentum list (or the exception asking for it raises), and its displacement list. */
  datatype MesonSource = MesonSource(momentumList: seq<string>, momentumList2: Result<seq<string>>,
                                     displacementList: seq<string>)

  /** The keys the loop sets in `filtered_data`. */
  const RenderKeys: set<string> :=
    {"cfg_id", "momentum_list", "displacement_list", "disco_displacement_list", "disco_t_sources"}

  /** `filtered_data` for one object and config id. */
  function RenderData(data: map<string, Value>, lists: MesonSource, cfg: int, obj: string): Result<map<string, Entry>>
  {
    var base := (map k | k in data :: Scalar(data[k]))["cfg_id" := Scalar(Str(Pad2(cfg)))];
    var withMoms :-
      if obj == "meson2" then
        var moms :- lists.momentumList2;
        Ok(base["momentum_list" := Strings(moms)])
      else if obj == "meson" then Ok(base["momentum_list" := Strings(lists.momentumList)])
      else Ok(base);
    Ok(withMoms["displacement_list" := Strings(lists.displacementList)]
      ["disco_displacement_list" := Strings(DiscoXml.DisplacementList())]
      ["disco_t_sources" := Strings(DiscoXml.DisplacementList())])
  }

  /** What an object's template receives: every key of the data but the five the loop sets;
      the padded config id; the first meson list for `meson`, the second for `meson2` (whose
      failure is the only way this step fails) and the data's own `momentum_list`, if any, for
      every other object; and the displacement lists, where `disco_t_sources` is the disco
      displacement list again rather than a list of time sources. */
  lemma RenderDataRules(data: map<string, Value>, lists: MesonSource, cfg: int, obj: string)
    ensures var r := RenderData(data, lists, cfg, obj);
      (r.Err? <==> obj == "meson2" && lists.momentumList2.Err?) &&
      (r.Err? ==> r.error == lists.momentumList2.error)
    ensures var r := RenderData(data, lists, cfg, obj);
      r.Ok? ==>
        (forall k | k !in RenderKeys :: (k in r.value <==> k in data) && (k in data ==> r.value[k] == Scalar(data[k]))) &&
        r.value["cfg_id"] == Scalar(Str(Pad2(cfg))) &&
        r.value["displacement_list"] == Strings(lists.displacementList) &&
        r.value["disco_displacement_list"] == Strings(DiscoXml.DisplacementList()) &&
        r.value["disco_t_sources"] == r.value["disco_displacement_list"]
    ensures var r := RenderData(data, lists, cfg, obj);
      r.Ok? ==>
        (obj == "meson" ==> r.value["momentum_list"] == Strings(lists.momentumList)) &&
        (obj == "meson2" ==> r.value["momentum_list"] == Strings(lists.momentumList2.value)) &&
        (obj != "meson" && obj != "meson2" ==>
          ("momentum_list" in r.value <==> "momentum_list" in data) &&
          ("momentum_list" in data ==> r.value["momentum_list"] == Scalar(data["momentum_list"])))
  {
  }

  /** `handler.templates[obj].render(filtered_data)`: the template data is built first, then
      an object without a template raises KeyError. */
  function RenderObj(oracle: Oracle, data: map<string, Value>, lists: MesonSource, cfg: int, obj: string): (r: Result<string>)
    ensures RenderData(data, lists, cfg, obj).Err? ==> r == Err(RenderData(data, lists, cfg, obj).error)
    ensures RenderData(data, lists, cfg, obj).Ok? && obj !in Templates ==> r == Err(KeyError(obj))
    ensures RenderData(data, lists, cfg, obj).Ok? && obj in Templates ==>
      r == oracle(Templates[obj], RenderData(data, lists, cfg, obj).value)
  {
    var filtered :- RenderData(data, lists, cfg, obj);
    if obj !in Templates then Err(KeyError(obj)) else oracle(Templates[obj], filtered)
  }

  // ------------------------------------------------------------ one YAML file

  /** The keys the generator reads from the YAML document are not overwritten, neither by
      the ensemble nor by the peram tasks. */
  lemma YamlKeysKept()
    ensures "data_path" !in FieldNames && "data_path" !in SetKeys
    ensures "cfg_i" !in FieldNames && "cfg_i" !in SetKeys && "cfg_i" !in PeramKeys
    ensures "cfg_f" !in FieldNames && "cfg_f" !in SetKeys && "cfg_f" !in PeramKeys
    ensures "cfg_d" !in FieldNames && "cfg_d" !in SetKeys && "cfg_d" !in PeramKeys
  {
  }

  /** What the loops run with. */
  datatype Setup = Setup(data: map<string, Value>, objs: seq<string>, cfgs: seq<int>)

  /** The data and objects of a setup are those the task loop leaves, with repeated objects
      dropped. */
  predicate Expanded(s: Setup, dataPath: string, asWritten: bool, data: map<string, Value>, tasks: seq<string>)
  {
    var st := Expand(dataPath, asWritten, data, tasks);
    st.Ok? && s.data == st.value.data && s.objs == Dedup(st.value.objs)
  }

  /** Everything `process_yaml_file` does before its loops, from the result of
      `parse_ensemble`, with the exceptions it raises in the order it raises them. */
  function Prepare(parsed: Result<Info>, shortTag: string, yaml: map<string, Value>, tasks: seq<string>,
                   asWritten: bool): (r: Result<Setup>)
    requires parsed.Ok? ==> NL in parsed.value && NT in parsed.value
    ensures parsed.Err? ==> r == Err(parsed.error)
    ensures parsed.Ok? && "data_path" !in yaml ==> r == Err(KeyError("data_path"))
    ensures r.Ok? ==> "data_path" in yaml && yaml["data_path"].Str?
    ensures r.Ok? ==> Expanded(r.value, yaml["data_path"].s, asWritten, DataMap(shortTag, yaml, parsed.value), tasks)
    ensures r.Ok? ==> r.value.objs == Dedup(FlatMap(TaskObjects, tasks))
    ensures r.Ok? ==> CfgArgs(yaml) && r.value.cfgs == Range(yaml["cfg_i"].i, yaml["cfg_f"].i, yaml["cfg_d"].i)
  {
    var props :- parsed;
    var data := DataMap(shortTag, yaml, props);
    YamlKeysKept();
    var dataPath :- PathArg(data, "data_path");
    var st :- Expand(dataPath, asWritten, data, tasks);
    ExpandObjects(dataPath, asWritten, data, tasks);
    var cfgI :- Lookup(st.data, "cfg_i");
    var cfgF :- Lookup(st.data, "cfg_f");
    var cfgD :- Lookup(st.data, "cfg_d");
    var cfgs :- CfgRange(cfgI, cfgF, cfgD);
    Ok(Setup(st.data, Dedup(st.objs), cfgs))
  }

  /** Where a step's file goes, for the data of a run. */
  function LocateIn(data: map<string, Value>): Plan.Locate
  {
    (cfg: int, obj: string) => Locate(data, cfg, obj)
  }

  /** What a step's file holds, for the data of a run. */
  function RenderIn(oracle: Oracle, data: map<string, Value>, lists: MesonSource): Plan.Render
  {
    (cfg: int, obj: string) => RenderObj(oracle, data, lists, cfg, obj)
  }

  /** The steps of a prepared run. */
  function RunSetup(s: Setup, overwrite: bool, lists: MesonSource, oracle: Oracle, fs: set<string>): Outcome
  {
    Run(LocateIn(s.data), RenderIn(oracle, s.data, lists), overwrite, Steps(s.cfgs, s.objs), fs)
  }

  /** `process_yaml_file` for the YAML document of ensemble `shortTag`, the tasks and the
      overwrite flag of the command line, and the files that exist when it starts. */
  function Process(shortTag: string, yaml: map<string, Value>, tasks: seq<string>, overwrite: bool,
                   asWritten: bool, lists: MesonSource, oracle: Oracle, fs: set<string>): (o: Outcome)
    ensures shortTag !in LongTag ==> o == Outcome([], Some(ValueError("Unknown ensemble short tag: " + shortTag)))
  {
    match Prepare(ParseEnsemble(shortTag), shortTag, yaml, tasks, asWritten)
    case Err(e) => Outcome([], Some(e))
    case Ok(s) => RunSetup(s, overwrite, lists, oracle, fs)
  }

  /** The function body step by step: the task loop, then the nested loops. */
  method ProcessYamlFile(shortTag: string, yaml: map<string, Value>, tasks: seq<string>, overwrite: bool,
                         asWritten: bool, lists: MesonSource, oracle: Oracle, fs: set<string>)
    returns (writes: seq<Write>, error: Option<PyError>, fsOut: set<string>)
    ensures Outcome(writes, error) == Process(shortTag, yaml, tasks, overwrite, asWritten, lists, oracle, fs)
    ensures fsOut == fs + Paths(writes)
  {
    var props := ParseEnsemble(shortTag);
    if props.Err? {
      return [], Some(props.error), fs;
    }
    var data := DataMap(shortTag, yaml, props.value);
    var dataPath := PathArg(data, "data_path");
    if dataPath.Err? {
      return [], Some(dataPath.error), fs;
    }
    var expanded := ExpandTasks(dataPath.value, asWritten, data, tasks);
    if expanded.Err? {
      return [], Some(expanded.error), fs;
    }
    var st := expanded.value;
    var objs := Dedup(st.objs);
    var cfgI := Lookup(st.data, "cfg_i");
    var cfgF := Lookup(st.data, "cfg_f");
    var cfgD := Lookup(st.data, "cfg_d");
    if cfgI.Err? || cfgF.Err? || cfgD.Err? {
      error := if cfgI.Err? then Some(cfgI.error) else if cfgF.Err? then Some(cfgF.error) else Some(cfgD.error);
      return [], error, fs;
    }
    var cfgs := CfgRange(cfgI.value, cfgF.value, cfgD.value);
    if cfgs.Err? {
      return [], Some(cfgs.error), fs;
    }
    assert Prepare(props, shortTag, yaml, tasks, asWritten) == Ok(Setup(st.data, objs, cfgs.value));
    writes, error, fsOut := RunLoops(LocateIn(st.data), RenderIn(oracle, st.data, lists), overwrite, cfgs.value, objs, fs);
  }

  // ------------------------------------------------------ what a run promises

  /** Every file a run writes is the file of a config id of the range and a run object. */
  lemma RunSetupLocated(s: Setup, overwrite: bool, lists: MesonSource, oracle: Oracle, fs: set<string>, k: nat)
    requires k < |RunSetup(s, overwrite, lists, oracle, fs).writes|
    ensures var w := RunSetup(s, overwrite, lists, oracle, fs).writes[k];
      exists cfg, i | cfg in s.cfgs && 0 <= i < |s.objs| ::
        w.obj == s.objs[i] && Locate(s.data, cfg, s.objs[i]) == Ok(w.path)
  {
    var steps := Steps(s.cfgs, s.objs);
    RunWritesLocated(LocateIn(s.data), RenderIn(oracle, s.data, lists), overwrite, steps, fs, k);
    var w := RunSetup(s, overwrite, lists, oracle, fs).writes[k];
    var j :| 0 <= j < |steps| && w.obj == steps[j].1 && LocateIn(s.data)(steps[j].0, steps[j].1) == Ok(w.path);
    StepsMembers(s.cfgs, s.objs, j);
    var i :| 0 <= i < |s.objs| && s.objs[i] == steps[j].1;
    assert w.obj == s.objs[i] && Locate(s.data, steps[j].0, s.objs[i]) == Ok(w.path);
  }

  /** The objects of a prepared run each come once, have a template, and have a directory of
      their own kind. */
  lemma PreparedObjects(s: Setup, dataPath: string, asWritten: bool, data: map<string, Value>, tasks: seq<string>, i: nat)
    requires Expanded(s, dataPath, asWritten, data, tasks) && i < |s.objs|
    ensures NoDups(s.objs) && s.objs[i] in Templates
    ensures TaskDir(s.data, s.objs[i]).Ok? && TaskDir(s.data, s.objs[i]) != Ok("ini-other")
  {
    var obj := s.objs[i];
    ExpandObjects(dataPath, asWritten, data, tasks);
    FlatMapMembers(TaskObjects, tasks, obj);
    var t :| 0 <= t < |tasks| && obj in TaskObjects(tasks[t]);
    var k :| 0 <= k < |TaskObjects(tasks[t])| && TaskObjects(tasks[t])[k] == obj;
    TemplatesCover(s.data, tasks[t], k);
    if obj == "peram_unified" || obj == "chroma_peram" {
      PeramObjectsOf(tasks[t]);
      PeramObjectsHaveKeys(dataPath, asWritten, data, tasks);
      PeramDir(s.data, obj);
    } else {
      FixedDirs(s.data, obj);
    }
  }

  /** Peram files go to `ini-perams-<flavor>-<inverter>` of the last peram task, for every
      peram task of the command line: earlier peram tasks' settings are overwritten. */
  lemma PeramDirOfLastTask(s: Setup, dataPath: string, asWritten: bool, data: map<string, Value>, tasks: seq<string>, j: nat)
    requires Expanded(s, dataPath, asWritten, data, tasks)
    requires j < |tasks| && IsPeram(tasks[j]) && forall l | j < l < |tasks| :: !IsPeram(tasks[l])
    ensures PeramName(tasks[j]).Ok?
    ensures TaskDir(s.data, "peram_unified") ==
      Ok("ini-perams-" + PeramName(tasks[j]).value.1 + "-" + PeramName(tasks[j]).value.0)
    ensures TaskDir(s.data, "chroma_peram") == TaskDir(s.data, "peram_unified")
  {
    LastPeramWins(dataPath, asWritten, data, tasks, j);
    PeramDir(s.data, "peram_unified");
    PeramDir(s.data, "chroma_peram");
  }

  /** One object's files for two different config ids never coincide. */
  lemma LocateCfgInjective(data: map<string, Value>, c1: int, c2: int, obj: string)
    requires SlashFree(obj)
    requires Locate(data, c1, obj).Ok? && Locate(data, c1, obj) == Locate(data, c2, obj)
    ensures c1 == c2
  {
    var dir := TaskDir(data, obj).value;
    var launch := PathArg(data, "launch_path").value;
    var n1, n2 := FileName(obj, c1).value, FileName(obj, c2).value;
    var d1 := PathJoin(PathJoin(launch, dir), "cnfg" + Pad2(c1));
    var d2 := PathJoin(PathJoin(launch, dir), "cnfg" + Pad2(c2));
    CfgDirName(launch, dir, c1);
    CfgDirName(launch, dir, c2);
    NameSlashFree(obj, c1);
    NameSlashFree(obj, c2);
    PathJoinName(d1, n1);
    PathJoinName(d2, n2);
    SameLastComponent(d1, n1, d2, n2);
    FileNameRules(obj, c1);
    FileNameRules(obj, c2);
    var head := if StartsWith(obj, "chroma") then Split(obj, '_')[1] + "_cfg" else obj + "_cfg";
    var ext := if StartsWith(obj, "chroma") then ".sh" else ".ini.xml";
    assert n1 == head + Pad2(c1) + ext && n2 == head + Pad2(c2) + ext;
    assert Pad2(c1) == n1[|head|..|n1| - |ext|];
    assert Pad2(c2) == n2[|head|..|n2| - |ext|];
    Pad2Injective(c1, c2);
  }

  /** The `cnfgNN` directory: not empty and not ending in '/'. */
  lemma CfgDirName(launch: string, dir: string, cfg: int)
    ensures var d := PathJoin(PathJoin(launch, dir), "cnfg" + Pad2(cfg));
      |d| > 0 && d[|d| - 1] != '/'
  {
    var sub := "cnfg" + Pad2(cfg);
    var d := PathJoin(PathJoin(launch, dir), sub);
    PadShape(cfg);
    assert d[|d| - 1] == sub[|sub| - 1];
  }

  /** A file name made from an object without '/' has none either. */
  lemma NameSlashFree(obj: string, cfg: int)
    requires SlashFree(obj) && FileName(obj, cfg).Ok?
    ensures SlashFree(FileName(obj, cfg).value) && FileName(obj, cfg).value != ""
  {
    FileNameRules(obj, cfg);
    PadShape(cfg);
    if StartsWith(obj, "chroma") {
      assert SlashFree(Split(obj, '_')[1]);
    }
  }
}
