/** `process_yaml_file` of create-jureca.py: the `paths` block of the YAML document, the
    ensemble dict merged into the data, the run objects from `task_map`, and the loop over
    config ids and objects that writes one file per pair, skipping files that exist unless
    overwriting, catching every exception rendering or writing raises, and counting the
    files written. */
module JurecaPlanner {
  import opened Py
  import opened TagPatterns
  import opened JobData
  import opened Plan
  import JurecaTags
  import opened JurecaObjects
  import MesonXml

  // ------------------------------------------------------------ the document

  /** The YAML document: its top-level scalars other than `paths`, and the `paths` mapping
      when it has one. */
  datatype Doc = Doc(fields: map<string, Value>, paths: Option<map<string, Value>>)

  /** `str(Path(p).expanduser())`: a leading `~` becomes the home directory and the text is
      put in Path's normal form (no trailing '/', no doubled '/', no `.` components). The
      home directory belongs to the environment, so the function is a parameter. */
  type PathStr = string -> string

  /** What the `paths` mapping gives: four directories, already expanded and normalised, and
      the config file name stem. */
  datatype Locations = Locations(data: string, eigs: string, launch: string, cfg: string, cfgName: Value)

  /** `Path(paths[key])`: a missing key raises KeyError, a value that is not a string
      TypeError. */
  function PathOf(paths: map<string, Value>, key: string): (r: Result<string>)
    ensures r.Ok? <==> key in paths && paths[key].Str?
    ensures r.Ok? ==> paths[key] == Str(r.value)
    ensures key !in paths ==> r == Err(KeyError(key))
  {
    var v :- Lookup(paths, key);
    if v.Str? then Ok(v.s)
    else Err(TypeError("argument should be a str or an os.PathLike object where __fspath__ returns a str, not '" +
      TypeName(v) + "'"))
  }

  /** The `paths` mapping holds the four directories as strings and a config name. */
  predicate PathsWell(paths: map<string, Value>)
  {
    "data_path" in paths && paths["data_path"].Str? && "eigs_path" in paths && paths["eigs_path"].Str? &&
    "launch_path" in paths && paths["launch_path"].Str? && "cfg_path" in paths && paths["cfg_path"].Str? &&
    "cfg_name" in paths
  }

  /** `dataMap["paths"]` and the five lookups into it, in the order the function makes them;
      each of the four directories is expanded and normalised, the config name is kept as
      it is. */
  function ReadLocations(doc: Doc, pathStr: PathStr): (r: Result<Locations>)
    ensures doc.paths.None? ==> r == Err(KeyError("paths"))
    ensures r.Ok? <==> doc.paths.Some? && PathsWell(doc.paths.value)
    ensures r.Ok? ==> var p := doc.paths.value;
      r.value == Locations(pathStr(p["data_path"].s), pathStr(p["eigs_path"].s), pathStr(p["launch_path"].s),
                           pathStr(p["cfg_path"].s), p["cfg_name"])
    ensures doc.paths.Some? && "data_path" !in doc.paths.value ==> r == Err(KeyError("data_path"))
  {
    if doc.paths.None? then Err(KeyError("paths"))
    else
      var p := doc.paths.value;
      var data :- PathOf(p, "data_path");
      var eigs :- PathOf(p, "eigs_path");
      var launch :- PathOf(p, "launch_path");
      var cfg :- PathOf(p, "cfg_path");
      var name :- Lookup(p, "cfg_name");
      Ok(Locations(pathStr(data), pathStr(eigs), pathStr(launch), pathStr(cfg), name))
  }

  /** The keys the function sets after merging the ensemble dict. */
  const AssignedKeys: set<string> := {"ens_short", "Nt_forward", "prop_t_fwd", "meson_t_fwd", "NL"}

  /** `dataMap` after `dataMap.update(ens_props)` and the four assignments that follow. */
  function DataOf(fields: map<string, Value>, shortTag: string, info: Info): (data: map<string, Value>)
    requires NL in info && NT in info
    ensures forall k | k !in FieldNames && k !in AssignedKeys ::
      (k in data <==> k in fields) && (k in fields ==> data[k] == fields[k])
  {
    (fields + Props(info))["ens_short" := Str(shortTag)]["Nt_forward" := info[NT]]["prop_t_fwd" := info[NT]]
      ["meson_t_fwd" := info[NT]]["NL" := info[NL]]
  }

  /** The ensemble's fields are in the data under their own names; the short tag and the
      time extent are copied to the keys the templates use. */
  lemma DataOfRules(fields: map<string, Value>, shortTag: string, info: Info)
    requires NL in info && NT in info
    ensures var data := DataOf(fields, shortTag, info);
      (forall k | k in info :: FieldName(k) in data && data[FieldName(k)] == info[k]) &&
      "ens_short" in data && data["ens_short"] == Str(shortTag) &&
      "Nt_forward" in data && "prop_t_fwd" in data && "meson_t_fwd" in data &&
      data["Nt_forward"] == data["prop_t_fwd"] == data["meson_t_fwd"] == info[NT]
  {
    forall k | k in info
      ensures var data := DataOf(fields, shortTag, info); FieldName(k) in data && data[FieldName(k)] == info[k]
    {
      DataOfField(fields, shortTag, info, k);
    }
  }

  /** One field of the ensemble dict, under its own name. */
  lemma DataOfField(fields: map<string, Value>, shortTag: string, info: Info, k: Field)
    requires NL in info && NT in info && k in info
    ensures var data := DataOf(fields, shortTag, info); FieldName(k) in data && data[FieldName(k)] == info[k]
  {
    var merged := fields + Props(info);
    assert FieldName(k) in merged && merged[FieldName(k)] == info[k];
    if k != NL {
      assert FieldName(k) in FieldNames - {"NL"};
      assert FieldName(k) !in AssignedKeys;
    }
  }

  /** The config range keys are the document's own. */
  lemma DataOfKeepsRange(fields: map<string, Value>, shortTag: string, info: Info)
    requires NL in info && NT in info
    ensures CfgArgs(DataOf(fields, shortTag, info)) ==> CfgArgs(fields)
    ensures CfgArgs(fields) ==> var data := DataOf(fields, shortTag, info);
      data["cfg_i"] == fields["cfg_i"] && data["cfg_f"] == fields["cfg_f"] && data["cfg_d"] == fields["cfg_d"]
  {
    assert "cfg_i" !in FieldNames && "cfg_f" !in FieldNames && "cfg_d" !in FieldNames;
    assert "cfg_i" !in AssignedKeys && "cfg_f" !in AssignedKeys && "cfg_d" !in AssignedKeys;
  }

  // ----------------------------------------------------------- the config ids

  /** `cfg_f + 1`: only an int can be added to. */
  function PlusOne(v: Value): (r: Result<int>)
    ensures r.Ok? <==> v.Int?
    ensures r.Ok? ==> r.value == v.i + 1
  {
    match v
    case Int(i) => Ok(i + 1)
    case Str(_) => Err(TypeError("can only concatenate str (not \"int\") to str"))
    case PyNone => Err(TypeError("unsupported operand type(s) for +: 'NoneType' and 'int'"))
  }

  /** `range(cfg_i, cfg_f + 1, cfg_step)`, with the three lookups before it. */
  function CfgIds(data: map<string, Value>): (r: Result<seq<int>>)
    ensures r.Ok? <==> CfgArgs(data)
    ensures r.Ok? ==> r.value == Range(data["cfg_i"].i, data["cfg_f"].i + 1, data["cfg_d"].i)
  {
    var i :- Lookup(data, "cfg_i");
    var f :- Lookup(data, "cfg_f");
    var d :- Lookup(data, "cfg_d");
    var stop :- PlusOne(f);
    CfgRange(i, Int(stop), d)
  }

  /** With a positive step the ids run from cfg_i up to cfg_f inclusive: cfg_f itself is one
      of them exactly when it is cfg_i plus a whole number of steps. No id repeats. */
  lemma CfgIdsInclusive(data: map<string, Value>)
    requires CfgIds(data).Ok? && data["cfg_d"].i > 0
    ensures var ids := CfgIds(data).value; var i := data["cfg_i"].i; var f := data["cfg_f"].i; var d := data["cfg_d"].i;
      (forall k | 0 <= k < |ids| :: i <= ids[k] <= f && (ids[k] - i) % d == 0) &&
      (f in ids <==> i <= f && (f - i) % d == 0) &&
      NoDups(ids)
  {
    var i, f, d := data["cfg_i"].i, data["cfg_f"].i, data["cfg_d"].i;
    RangeInclusive(i, f, d);
    RangeNoDups(i, f + 1, d);
  }

  lemma RangeInclusive(i: int, f: int, d: int)
    requires d > 0
    ensures var ids := Range(i, f + 1, d);
      (forall k | 0 <= k < |ids| :: i <= ids[k] <= f && (ids[k] - i) % d == 0) &&
      (f in ids <==> i <= f && (f - i) % d == 0)
  {
    var ids := Range(i, f + 1, d);
    RangeValues(i, f + 1, d);
    RangeBounds(i, f + 1, d);
    forall k | 0 <= k < |ids|
      ensures i <= ids[k] <= f && (ids[k] - i) % d == 0
    {
      MulMod(k, d);
    }
    if i <= f && (f - i) % d == 0 {
      var k := (f - i) / d;
      RangeHits(i, f, d, k, |ids|);
      assert ids[k] == f;
    }
  }

  lemma MulMod(k: nat, d: int)
    requires d > 0
    ensures k * d >= 0 && (k * d) % d == 0
  {
    var q, r := (k * d) / d, (k * d) % d;
    assert (k - q) * d == r;
    MulBounds(k - q, d);
  }

  lemma MulBounds(m: int, d: int)
    requires d > 0
    ensures m >= 1 ==> m * d >= d
    ensures m <= -1 ==> m * d <= -d
  {
  }

  lemma RangeHits(i: int, f: int, d: int, k: int, n: nat)
    requires d > 0 && i <= f && (f - i) % d == 0 && k == (f - i) / d && i + n * d >= f + 1
    ensures 0 <= k < n && i + k * d == f
  {
    assert k * d == f - i;
    assert (n - k) * d == n * d - k * d;
    MulBounds(k, d);
    MulBounds(n - k, d);
  }

  /** `cfg_path / f"{cfg_name}{cfg_str}.lime"`. */
  function GaugeFile(locs: Locations, cfg: int): string
  {
    PathJoin(locs.cfg, Show(locs.cfgName) + IntToString(cfg) + ".lime")
  }

  // ------------------------------------------------------------- rendering

  /** The keys the render data sets on top of the data. */
  const RenderKeys: set<string> :=
    {"cfg_id", "data_path", "cfg_path", "eigs_path", "launch_path", "gauge_file", "momentum_list", "displacement_list"}

  /** `render_data` for one config id: a copy of the document, `paths` block included, with
      the loop's keys set on top. */
  function RenderData(data: map<string, Value>, paths: map<string, Value>, locs: Locations, cfg: int): map<string, Entry>
  {
    (map k | k in data :: Scalar(data[k]))["paths" := Mapping(paths)]["cfg_id" := Scalar(Str(IntToString(cfg)))]
      ["data_path" := Scalar(Str(locs.data))]["cfg_path" := Scalar(Str(locs.cfg))]
      ["eigs_path" := Scalar(Str(locs.eigs))]["launch_path" := Scalar(Str(locs.launch))]
      ["gauge_file" := Scalar(Str(GaugeFile(locs, cfg)))]
      ["momentum_list" := Strings(MesonXml.GenMomList())]["displacement_list" := Strings(MesonXml.DisplacementList())]
  }

  /** The render data is the data, its `paths` block and the normalised directories, the
      unpadded id, the gauge file of the id and the meson lists set on top; no other key
      changes. */
  lemma RenderDataRules(data: map<string, Value>, paths: map<string, Value>, locs: Locations, cfg: int)
    ensures var r := RenderData(data, paths, locs, cfg);
      (forall k | k !in RenderKeys && k != "paths" :: (k in r <==> k in data) && (k in data ==> r[k] == Scalar(data[k]))) &&
      "paths" in r && r["paths"] == Mapping(paths)
    ensures var r := RenderData(data, paths, locs, cfg);
      RenderKeys <= r.Keys &&
      r["cfg_id"] == Scalar(Str(IntToString(cfg))) && r["gauge_file"] == Scalar(Str(GaugeFile(locs, cfg))) &&
      r["data_path"] == Scalar(Str(locs.data)) && r["cfg_path"] == Scalar(Str(locs.cfg)) &&
      r["eigs_path"] == Scalar(Str(locs.eigs)) && r["launch_path"] == Scalar(Str(locs.launch)) &&
      r["momentum_list"] == Strings(MesonXml.GenMomList()) && r["displacement_list"] == Strings(MesonXml.DisplacementList())
  {
    forall k | k !in RenderKeys && k != "paths"
      ensures var r := RenderData(data, paths, locs, cfg); (k in r <==> k in data) && (k in data ==> r[k] == Scalar(data[k]))
    {
      RenderDataKeeps(data, paths, locs, cfg, k);
    }
    RenderDataSets(data, paths, locs, cfg);
  }

  /** A key the render data does not set keeps its data value, or stays absent. */
  lemma RenderDataKeeps(data: map<string, Value>, paths: map<string, Value>, locs: Locations, cfg: int, k: string)
    requires k !in RenderKeys && k != "paths"
    ensures var r := RenderData(data, paths, locs, cfg); (k in r <==> k in data) && (k in data ==> r[k] == Scalar(data[k]))
  {
  }

  /** The keys the render data sets, with their values. */
  lemma RenderDataSets(data: map<string, Value>, paths: map<string, Value>, locs: Locations, cfg: int)
    ensures var r := RenderData(data, paths, locs, cfg);
      "paths" in r && r["paths"] == Mapping(paths) && RenderKeys <= r.Keys &&
      r["cfg_id"] == Scalar(Str(IntToString(cfg))) && r["gauge_file"] == Scalar(Str(GaugeFile(locs, cfg))) &&
      r["data_path"] == Scalar(Str(locs.data)) && r["cfg_path"] == Scalar(Str(locs.cfg)) &&
      r["eigs_path"] == Scalar(Str(locs.eigs)) && r["launch_path"] == Scalar(Str(locs.launch)) &&
      r["momentum_list"] == Strings(MesonXml.GenMomList()) && r["displacement_list"] == Strings(MesonXml.DisplacementList())
  {
    var base := (map k | k in data :: Scalar(data[k]))["paths" := Mapping(paths)]["cfg_id" := Scalar(Str(IntToString(cfg)))];
    assert base["paths"] == Mapping(paths) && base["cfg_id"] == Scalar(Str(IntToString(cfg)));
    var dirs := base["data_path" := Scalar(Str(locs.data))]["cfg_path" := Scalar(Str(locs.cfg))]
      ["eigs_path" := Scalar(Str(locs.eigs))]["launch_path" := Scalar(Str(locs.launch))];
    assert dirs["paths"] == Mapping(paths) && dirs["cfg_id"] == Scalar(Str(IntToString(cfg)));
    assert dirs["data_path"] == Scalar(Str(locs.data)) && dirs["cfg_path"] == Scalar(Str(locs.cfg));
    assert dirs["eigs_path"] == Scalar(Str(locs.eigs)) && dirs["launch_path"] == Scalar(Str(locs.launch));
    var r := dirs["gauge_file" := Scalar(Str(GaugeFile(locs, cfg)))]
      ["momentum_list" := Strings(MesonXml.GenMomList())]["displacement_list" := Strings(MesonXml.DisplacementList())];
    assert r == RenderData(data, paths, locs, cfg);
    assert r["gauge_file"] == Scalar(Str(GaugeFile(locs, cfg)));
  }

  /** `handler.templates[obj].render(render_data)`: KeyError for an object without a
      template, otherwise whatever the template engine gives. */
  function RenderObj(oracle: Oracle, data: map<string, Value>, paths: map<string, Value>, locs: Locations, cfg: int, obj: string): (r: Result<string>)
    ensures ObjOf(obj).None? ==> r == Err(KeyError(obj))
  {
    match ObjOf(obj)
    case None => Err(KeyError(obj))
    case Some(o) => oracle(Template(o), RenderData(data, paths, locs, cfg))
  }

  /** Each of the sixteen objects renders its own template with the render data. */
  lemma RenderObjTemplate(oracle: Oracle, data: map<string, Value>, paths: map<string, Value>, locs: Locations, cfg: int, o: Obj)
    ensures RenderObj(oracle, data, paths, locs, cfg, ObjName(o)) == oracle(Template(o), RenderData(data, paths, locs, cfg))
  {
    ObjOfName(o);
  }

  // ------------------------------------------------------------ one YAML file

  /** What the function has worked out when its loops start. */
  datatype Setup = Setup(data: map<string, Value>, paths: map<string, Value>, locs: Locations, objs: seq<string>,
                         cfgs: seq<int>)

  /** Everything before the loops: the paths, the ensemble dict, the merged data, the run
      objects and the config ids, with the exceptions in the order they can be raised. */
  function Prepare(shortTag: string, doc: Doc, tasks: seq<string>, pathStr: PathStr): (r: Result<Setup>)
    ensures ReadLocations(doc, pathStr).Err? ==> r == Err(ReadLocations(doc, pathStr).error)
    ensures ReadLocations(doc, pathStr).Ok? && JurecaTags.ParseEnsemble(shortTag).Err? ==>
      r == Err(JurecaTags.ParseEnsemble(shortTag).error)
    ensures r.Ok? ==> ReadLocations(doc, pathStr) == Ok(r.value.locs) && JurecaTags.ParseEnsemble(shortTag).Ok?
    ensures r.Ok? ==> doc.paths == Some(r.value.paths)
    ensures r.Ok? ==> r.value.objs == RunObjects(tasks) && CfgIds(r.value.data) == Ok(r.value.cfgs)
    ensures r.Ok? ==> r.value.data == DataOf(doc.fields, shortTag, JurecaTags.ParseEnsemble(shortTag).value)
  {
    var locs :- ReadLocations(doc, pathStr);
    var info :- JurecaTags.ParseEnsemble(shortTag);
    var data := DataOf(doc.fields, shortTag, info);
    var cfgs :- CfgIds(data);
    Ok(Setup(data, doc.paths.value, locs, RunObjects(tasks), cfgs))
  }

  /** The config range is read from the document: the ensemble dict and the keys set after
      it do not touch `cfg_i`, `cfg_f` or `cfg_d`. */
  lemma PrepareRange(shortTag: string, doc: Doc, tasks: seq<string>, pathStr: PathStr)
    requires Prepare(shortTag, doc, tasks, pathStr).Ok?
    ensures CfgArgs(doc.fields)
    ensures Prepare(shortTag, doc, tasks, pathStr).value.cfgs ==
      Range(doc.fields["cfg_i"].i, doc.fields["cfg_f"].i + 1, doc.fields["cfg_d"].i)
  {
    var info := JurecaTags.ParseEnsemble(shortTag).value;
    DataOfKeepsRange(doc.fields, shortTag, info);
  }

  /** What a prepared run promises its loops: distinct config ids, and distinct objects
      each with a template, a directory and a name without '/'. */
  predicate SetupWell(s: Setup)
  {
    NoDups(s.cfgs) && NoDups(s.objs) &&
    forall obj | obj in s.objs :: ObjOf(obj).Some? && SlashFree(obj)
  }

  lemma PreparedWell(shortTag: string, doc: Doc, tasks: seq<string>, pathStr: PathStr)
    requires Prepare(shortTag, doc, tasks, pathStr).Ok?
    ensures SetupWell(Prepare(shortTag, doc, tasks, pathStr).value)
  {
    var s := Prepare(shortTag, doc, tasks, pathStr).value;
    CfgIdsNoDups(s.data);
    RunObjectsWell(tasks);
  }

  /** The templates of a prepared run see the document's own `paths` block next to the
      expanded and normalised directories it names, and the files go under the normalised
      launch directory. */
  lemma PreparedRenderPaths(shortTag: string, doc: Doc, tasks: seq<string>, pathStr: PathStr, cfg: int)
    requires Prepare(shortTag, doc, tasks, pathStr).Ok?
    ensures doc.paths.Some? && PathsWell(doc.paths.value)
    ensures var s := Prepare(shortTag, doc, tasks, pathStr).value; var p := doc.paths.value;
      var r := RenderData(s.data, s.paths, s.locs, cfg);
      r["paths"] == Mapping(p) &&
      r["data_path"] == Scalar(Str(pathStr(p["data_path"].s))) && r["cfg_path"] == Scalar(Str(pathStr(p["cfg_path"].s))) &&
      r["eigs_path"] == Scalar(Str(pathStr(p["eigs_path"].s))) &&
      r["launch_path"] == Scalar(Str(pathStr(p["launch_path"].s))) &&
      s.locs.launch == pathStr(p["launch_path"].s)
  {
    var s := Prepare(shortTag, doc, tasks, pathStr).value;
    RenderDataSets(s.data, s.paths, s.locs, cfg);
  }

  /** No config id repeats. */
  lemma CfgIdsNoDups(data: map<string, Value>)
    requires CfgIds(data).Ok?
    ensures NoDups(CfgIds(data).value)
  {
    RangeNoDups(data["cfg_i"].i, data["cfg_f"].i + 1, data["cfg_d"].i);
  }

  function LocateIn(s: Setup): Locate
  {
    (cfg: int, obj: string) => Ok(OutFile(s.locs.launch, obj, cfg))
  }

  function RenderIn(oracle: Oracle, s: Setup): Render
  {
    (cfg: int, obj: string) => RenderObj(oracle, s.data, s.paths, s.locs, cfg, obj)
  }

  /** The files one YAML file writes, or the exception raised before the loops. */
  function Process(oracle: Oracle, pathStr: PathStr, shortTag: string, doc: Doc, tasks: seq<string>, overwrite: bool,
                   fs: set<string>): (r: Result<seq<Write>>)
    ensures JurecaTags.ParseEnsemble(shortTag).Err? ==> r.Err?
  {
    var s :- Prepare(shortTag, doc, tasks, pathStr);
    Ok(RunOf(oracle, s, overwrite, fs))
  }

  /** The loops of a prepared run. */
  function RunOf(oracle: Oracle, s: Setup, overwrite: bool, fs: set<string>): seq<Write>
  {
    RunCaught(LocateIn(s), RenderIn(oracle, s), overwrite, Steps(s.cfgs, s.objs), fs)
  }

  lemma RunOfUnfold(oracle: Oracle, s: Setup, overwrite: bool, fs: set<string>)
    ensures RunOf(oracle, s, overwrite, fs) == RunCaught(LocateIn(s), RenderIn(oracle, s), overwrite, Steps(s.cfgs, s.objs), fs)
  {
  }

  /** `process_yaml_file`: the exception raised before the loops, or the files written and
      their count; the filesystem gains exactly the files written. */
  method ProcessYamlFile(oracle: Oracle, pathStr: PathStr, shortTag: string, doc: Doc, tasks: seq<string>, overwrite: bool,
                         fs: set<string>)
    returns (r: Result<seq<Write>>, written: int, fsOut: set<string>)
    ensures r == Process(oracle, pathStr, shortTag, doc, tasks, overwrite, fs)
    ensures r.Ok? ==> written == |r.value| && fsOut == fs + Paths(r.value)
    ensures r.Err? ==> written == 0 && fsOut == fs
  {
    var prepared := Prepare(shortTag, doc, tasks, pathStr);
    if prepared.Err? {
      return Err(prepared.error), 0, fs;
    }
    var s := prepared.value;
    var writes;
    writes, written, fsOut := RunLoopsCaught(LocateIn(s), RenderIn(oracle, s), overwrite, s.cfgs, s.objs, fs);
    r := Ok(writes);
  }

  // ------------------------------------------------------------- what a run promises

  /** No path is written twice in one run, overwriting or not: the steps are distinct and
      distinct steps have distinct output files. */
  lemma RunDistinct(oracle: Oracle, s: Setup, overwrite: bool, fs: set<string>)
    requires SetupWell(s)
    ensures var ws := RunOf(oracle, s, overwrite, fs);
      forall k, l | 0 <= k < l < |ws| :: ws[k].path != ws[l].path
  {
    RunOfUnfold(oracle, s, overwrite, fs);
    var steps := Steps(s.cfgs, s.objs);
    var locate := LocateIn(s);
    StepsNoDups(s.cfgs, s.objs);
    forall k, l | 0 <= k < l < |steps| && locate(steps[k].0, steps[k].1).Ok?
      ensures locate(steps[k].0, steps[k].1) != locate(steps[l].0, steps[l].1)
    {
      StepsMembers(s.cfgs, s.objs, k);
      StepsMembers(s.cfgs, s.objs, l);
      OutFileInjective(s.locs.launch, steps[k].1, steps[k].0, steps[l].1, steps[l].0);
    }
    RunCaughtDistinct(locate, RenderIn(oracle, s), overwrite, steps, fs);
  }

  /** Every file written is the output file of a listed config id and a run object, and
      that object has a template and a directory. */
  lemma RunWritesLocated(oracle: Oracle, s: Setup, overwrite: bool, fs: set<string>, k: nat)
    requires SetupWell(s)
    requires k < |RunOf(oracle, s, overwrite, fs)|
    ensures var w := RunOf(oracle, s, overwrite, fs)[k];
      w.obj in s.objs && ObjOf(w.obj).Some? &&
      exists cfg | cfg in s.cfgs :: w.path == OutFile(s.locs.launch, w.obj, cfg)
  {
    RunOfUnfold(oracle, s, overwrite, fs);
    var steps := Steps(s.cfgs, s.objs);
    RunCaughtLocated(LocateIn(s), RenderIn(oracle, s), overwrite, steps, fs, k);
    var w := RunOf(oracle, s, overwrite, fs)[k];
    var i :| 0 <= i < |steps| && w.obj == steps[i].1 && LocateIn(s)(steps[i].0, steps[i].1) == Ok(w.path);
    StepsMembers(s.cfgs, s.objs, i);
  }

  /** `written` is at most one per config id and object; with overwriting on and every
      render succeeding it is exactly that. */
  lemma RunCount(oracle: Oracle, s: Setup, overwrite: bool, fs: set<string>)
    ensures |RunOf(oracle, s, overwrite, fs)| <= |s.cfgs| * |s.objs|
    ensures overwrite && (forall cfg, obj | cfg in s.cfgs && obj in s.objs :: RenderObj(oracle, s.data, s.paths, s.locs, cfg, obj).Ok?) ==>
      |RunOf(oracle, s, overwrite, fs)| == |s.cfgs| * |s.objs|
  {
    RunOfUnfold(oracle, s, overwrite, fs);
    var steps := Steps(s.cfgs, s.objs);
    forall k | 0 <= k < |steps|
      ensures steps[k].0 in s.cfgs && steps[k].1 in s.objs
    {
      StepsMembers(s.cfgs, s.objs, k);
    }
    RunCaughtCount(LocateIn(s), RenderIn(oracle, s), overwrite, steps, fs);
  }

  /** Without overwriting, no file that existed before the run is written. */
  lemma RunFresh(oracle: Oracle, s: Setup, fs: set<string>)
    ensures var ws := RunOf(oracle, s, false, fs);
      forall k | 0 <= k < |ws| :: ws[k].path !in fs
  {
    RunOfUnfold(oracle, s, false, fs);
    RunCaughtFresh(LocateIn(s), RenderIn(oracle, s), Steps(s.cfgs, s.objs), fs);
  }
}
