/** scripts/create_binned_tasks.py: one job script per group of up to four config ids, each id
    run on its own GPU. The requested tasks are expanded by substring into job-script objects;
    config ids are grouped by integer arithmetic (`--cfg_step` is never read: the step is 50
    and a group spans four of them); and a script is rendered only for an object whose name
    is itself one of the requested tasks. The script never checks whether a file exists, so
    `--overwrite` has no effect and every rendered file is written. */
module ScriptsBinned {
  import opened Py
  import opened TagPatterns
  import opened Plan
  import ScriptsTasks
  import ChromaShTags
  import MesonXml

  // ------------------------------------------------------------ run objects

  /** The four job-script objects, in the order the expansion tests them. */
  datatype Binned = Peram | PeramStrange | PeramCharm | Meson

  const Tested: seq<Binned> := [Peram, PeramStrange, PeramCharm, Meson]

  /** The substring that adds an object; it is also the object's name after `chroma_`. */
  function Tail(b: Binned): string
  {
    match b
    case Peram => "peram"
    case PeramStrange => "peram_strange"
    case PeramCharm => "peram_charm"
    case Meson => "meson"
  }

  /** The object as `run_objects` holds it. */
  function BinName(b: Binned): string
  {
    "chroma_" + Tail(b)
  }

  /** The objects one task appends: each object whose substring occurs in the task, in
      test order. */
  function Added(task: string, bs: seq<Binned>): seq<Binned>
  {
    if bs == [] then []
    else (if Contains(task, Tail(bs[0])) then [bs[0]] else []) + Added(task, bs[1..])
  }

  function TaskObjects(task: string): seq<Binned>
  {
    Added(task, Tested)
  }

  /** `run_objects` after the loop over the tasks; duplicates stay. */
  function RunObjects(tasks: seq<string>): seq<Binned>
  {
    FlatMap(TaskObjects, tasks)
  }

  /** The loop that appends to `run_objects` task by task. */
  method ExpandTasks(tasks: seq<string>) returns (objs: seq<Binned>)
    ensures objs == RunObjects(tasks)
  {
    objs := [];
    var i := 0;
    while i < |tasks|
      invariant 0 <= i <= |tasks|
      invariant objs == FlatMap(TaskObjects, tasks[..i])
    {
      assert tasks[..i + 1][..i] == tasks[..i];
      objs := objs + TaskObjects(tasks[i]);
      i := i + 1;
    }
    assert tasks[..i] == tasks;
  }

  /** A task appends an object exactly when the object's substring occurs in it. */
  lemma {:induction false} AddedMembers(task: string, bs: seq<Binned>, b: Binned)
    ensures b in Added(task, bs) <==> b in bs && Contains(task, Tail(b))
  {
    if bs != [] {
      AddedMembers(task, bs[1..], b);
      assert b in bs <==> b == bs[0] || b in bs[1..] by {
        assert bs == [bs[0]] + bs[1..];
      }
    }
  }

  lemma TestedComplete(b: Binned)
    ensures b in Tested
  {
  }

  /** An object is run exactly when some task contains its substring. */
  lemma RunObjectsMembers(tasks: seq<string>, b: Binned)
    ensures b in RunObjects(tasks) <==> exists i | 0 <= i < |tasks| :: Contains(tasks[i], Tail(b))
  {
    FlatMapMembers(TaskObjects, tasks, b);
    TestedComplete(b);
    forall i | 0 <= i < |tasks|
      ensures b in TaskObjects(tasks[i]) <==> Contains(tasks[i], Tail(b))
    {
      AddedMembers(tasks[i], Tested, b);
    }
  }

  /** One step of the expansion. */
  lemma AddedStep(task: string, b: Binned, bs: seq<Binned>)
    ensures Added(task, [b] + bs) == (if Contains(task, Tail(b)) then [b] else []) + Added(task, bs)
  {
    assert ([b] + bs)[1..] == bs;
  }

  /** A text contains itself. */
  lemma ContainsSelf(s: string)
    ensures Contains(s, s)
  {
    assert s[0..|s|] == s;
    assert OccursAt(s, s, 0);
  }

  /** A text does not contain a longer one. */
  lemma NotContainsLonger(s: string, sub: string)
    requires |s| < |sub|
    ensures !Contains(s, sub)
  {
  }

  /** The expansion of a task in which exactly the `peram` and `peram_strange` tests hold. */
  lemma StrangeExpansion(task: string)
    requires Contains(task, "peram") && Contains(task, "peram_strange")
    requires !Contains(task, "peram_charm") && !Contains(task, "meson")
    ensures TaskObjects(task) == [Peram, PeramStrange]
  {
    AddedStep(task, Meson, []);
    AddedStep(task, PeramCharm, [Meson] + []);
    AddedStep(task, PeramStrange, [PeramCharm] + ([Meson] + []));
    AddedStep(task, Peram, [PeramStrange] + ([PeramCharm] + ([Meson] + [])));
    assert Tested == [Peram] + ([PeramStrange] + ([PeramCharm] + ([Meson] + [])));
  }

  /** The expansion of a task in which only the `peram` test holds. */
  lemma PeramOnlyExpansion(task: string)
    requires Contains(task, "peram") && !Contains(task, "peram_strange")
    requires !Contains(task, "peram_charm") && !Contains(task, "meson")
    ensures TaskObjects(task) == [Peram]
  {
    AddedStep(task, Meson, []);
    AddedStep(task, PeramCharm, [Meson] + []);
    AddedStep(task, PeramStrange, [PeramCharm] + ([Meson] + []));
    AddedStep(task, Peram, [PeramStrange] + ([PeramCharm] + ([Meson] + [])));
    assert Tested == [Peram] + ([PeramStrange] + ([PeramCharm] + ([Meson] + [])));
  }

  /** The tests that hold for the task `peram_strange`. */
  lemma PeramStrangeTests()
    ensures Contains("peram_strange", "peram") && Contains("peram_strange", "peram_strange")
    ensures !Contains("peram_strange", "peram_charm") && !Contains("peram_strange", "meson")
  {
    var t := "peram_strange";
    ContainsSelf(t);
    PeramStrangePrefix();
    NoCharmInStrange();
    NoMesonInStrange();
  }

  lemma PeramStrangePrefix()
    ensures Contains("peram_strange", "peram")
  {
    assert "peram_strange" == "peram" + "_strange";
    ScriptsTasks.ContainsPrefix("peram", "_strange");
  }

  lemma NoCharmInStrange()
    ensures !Contains("peram_strange", "peram_charm")
  {
    assert "peram_charm"[7] == 'h' && 'h' !in "peram_strange";
    ScriptsTasks.NotContainsByChar("peram_strange", "peram_charm", 7);
  }

  lemma NoMesonInStrange()
    ensures !Contains("peram_strange", "meson")
  {
    assert "meson"[3] == 'o' && 'o' !in "peram_strange";
    ScriptsTasks.NotContainsByChar("peram_strange", "meson", 3);
  }

  /** The task `peram_strange` runs `chroma_peram` as well as `chroma_peram_strange`. */
  lemma PeramStrangeTask()
    ensures TaskObjects("peram_strange") == [Peram, PeramStrange]
  {
    PeramStrangeTests();
    StrangeExpansion("peram_strange");
  }

  /** The task `peram` runs `chroma_peram` only. */
  lemma PeramTask()
    ensures TaskObjects("peram") == [Peram]
  {
    ContainsSelf("peram");
    NotContainsLonger("peram", "peram_strange");
    NotContainsLonger("peram", "peram_charm");
    assert "meson"[1] == 'e' && "meson"[2] == 's' && 's' !in "peram";
    ScriptsTasks.NotContainsByChar("peram", "meson", 2);
    PeramOnlyExpansion("peram");
  }

  /** Duplicates are not removed: `peram peram_strange` runs `chroma_peram` twice. */
  lemma DuplicatesKept()
    ensures RunObjects(["peram", "peram_strange"]) == [Peram, Peram, PeramStrange]
  {
    PeramTask();
    PeramStrangeTask();
    var ts := ["peram", "peram_strange"];
    assert ts[..1] == ["peram"] && ts[..1][..0] == [];
    assert FlatMap(TaskObjects, ts[..1]) == [Peram];
  }

  // ------------------------------------------------------------ config groups

  const CfgStep: int := 50
  const GroupSize: int := 4
  /** The GPU indices, one per config id of a group. */
  const Devices: seq<int> := [0, 1, 2, 3]

  /** The first config ids of the groups: `range(cfg_i, cfg_f, cfg_step * group_size)`. */
  function GroupStarts(cfgI: int, cfgF: int): seq<int>
  {
    Range(cfgI, cfgF, CfgStep * GroupSize)
  }

  /** `cfg_group_end = min(cfg_group_start + cfg_step * (group_size - 1), cfg_f)`. */
  function GroupEnd(start: int, cfgF: int): int
  {
    if start + CfgStep * (GroupSize - 1) <= cfgF then start + CfgStep * (GroupSize - 1) else cfgF
  }

  /** `cfg_ids = range(cfg_group_start, cfg_group_end + cfg_step, cfg_step)`. */
  function CfgIds(start: int, end: int): seq<int>
  {
    Range(start, end + CfgStep, CfgStep)
  }

  /** `list(zip(xs, ys))`: pairs up to the shorter list. */
  function Zip(xs: seq<int>, ys: seq<int>): (r: seq<(int, int)>)
    ensures |r| == if |xs| <= |ys| then |xs| else |ys|
    ensures forall k | 0 <= k < |r| :: r[k] == (xs[k], ys[k])
  {
    if xs == [] || ys == [] then [] else [(xs[0], ys[0])] + Zip(xs[1..], ys[1..])
  }

  /** The groups start at `cfg_i` and every 200 after it while below `cfg_f`, and together
      reach `cfg_f`. */
  lemma GroupStartsShape(cfgI: int, cfgF: int)
    ensures var g := GroupStarts(cfgI, cfgF);
      (forall k | 0 <= k < |g| :: g[k] == cfgI + 200 * k && g[k] < cfgF) &&
      cfgI + 200 * |g| >= cfgF
  {
    RangeValues(cfgI, cfgF, 200);
    RangeBounds(cfgI, cfgF, 200);
    var g := GroupStarts(cfgI, cfgF);
    assert forall k | 0 <= k < |g| :: k * 200 == 200 * k;
  }

  /** A group ends at most 150 after its start and at `cfg_f` at the latest: `start <= end <=
      cfg_f`. Its ids are `start, start+50, ...` while below `end + 50`: at least one, at most
      four, the last one at or past `end` (so past `cfg_f` when `cfg_f - start` is not a
      multiple of 50). */
  lemma GroupShape(start: int, cfgF: int)
    requires start < cfgF
    ensures var end := GroupEnd(start, cfgF); var ids := CfgIds(start, end);
      start <= end <= cfgF && end <= start + 150 &&
      1 <= |ids| <= 4 && ids[0] == start &&
      (forall k | 0 <= k < |ids| :: ids[k] == start + 50 * k && ids[k] < end + 50) &&
      ids[|ids| - 1] >= end
  {
    var end := GroupEnd(start, cfgF);
    var ids := CfgIds(start, end);
    RangeValues(start, end + 50, 50);
    RangeBounds(start, end + 50, 50);
    assert ids == [start] + Range(start + 50, end + 50, 50);
    assert forall k | 0 <= k < |ids| :: k * 50 == 50 * k;
    var n := |ids|;
    assert ids[n - 1] == start + 50 * (n - 1) < end + 50;
    IdsCount(n, start, end);
    assert start + n * 50 >= end + 50;
  }

  lemma IdsCount(n: int, start: int, end: int)
    requires n >= 1 && end <= start + 150
    requires start + 50 * (n - 1) < end + 50
    ensures n <= 4
  {
  }

  /** Each id of a group runs on the GPU of its position: `(ids[k], k)`, one pair per id. */
  lemma DevicesPaired(start: int, cfgF: int)
    requires start < cfgF
    ensures var ids := CfgIds(start, GroupEnd(start, cfgF)); var pairs := Zip(ids, Devices);
      |pairs| == |ids| && forall k | 0 <= k < |pairs| :: pairs[k] == (ids[k], k)
  {
    GroupShape(start, cfgF);
  }

  /** The groups tile the ids `cfg_i, cfg_i+50, ...`: the j-th id of the k-th group is
      `cfg_i + 50 * (4k + j)`. */
  lemma GroupsTile(cfgI: int, cfgF: int, k: nat, j: nat)
    requires k < |GroupStarts(cfgI, cfgF)|
    requires var start := GroupStarts(cfgI, cfgF)[k]; j < |CfgIds(start, GroupEnd(start, cfgF))|
    ensures var start := GroupStarts(cfgI, cfgF)[k]; CfgIds(start, GroupEnd(start, cfgF))[j] == cfgI + 50 * (4 * k + j)
  {
    GroupStartsShape(cfgI, cfgF);
    GroupShape(GroupStarts(cfgI, cfgF)[k], cfgF);
  }

  /** From 0 to 120: one group, ending at 120, whose last id 150 lies past `cfg_f`. */
  lemma LastIdPastEnd()
    ensures GroupStarts(0, 120) == [0] && GroupEnd(0, 120) == 120
    ensures CfgIds(0, 120) == [0, 50, 100, 150]
  {
    assert Range(200, 120, 200) == [];
    assert Range(200, 170, 50) == [];
  }

  // ------------------------------------------------------------ names

  /** `cfgs_<start>-<end>`. */
  function GroupName(start: int, end: int): string
  {
    "cfgs_" + (IntToString(start) + ("-" + IntToString(end)))
  }

  /** `<obj without chroma_>_<nvec>_cfgs_<start>-<end>.sh`. */
  function ScriptName(b: Binned, nvec: int, start: int, end: int): string
  {
    Tail(b) + ("_" + (IntToString(nvec) + ("_" + (GroupName(start, end) + ".sh"))))
  }

  /** `ini_path`: the script in `numvec<nvec>` under the group directory under `--run_dir`. */
  function BinPath(runDir: string, b: Binned, nvec: int, start: int, end: int): string
  {
    PathJoin(PathJoin(PathJoin(runDir, GroupName(start, end)), "numvec" + IntToString(nvec)), ScriptName(b, nvec, start, end))
  }

  /** Every object starts with `chroma_`, so the `else` branch of the name choice is never
      taken, and `obj[len('chroma_'):]` is the object's substring. */
  lemma StripChroma(b: Binned)
    ensures StartsWith(BinName(b), "chroma_") && BinName(b)[|"chroma_"|..] == Tail(b)
  {
  }

  /** Joining two names that do not start with `/` onto one directory gives one path only
      for one name. */
  lemma PathJoinCancel(d: string, x: string, y: string)
    requires x != "" && x[0] != '/' && y != "" && y[0] != '/'
    requires PathJoin(d, x) == PathJoin(d, y)
    ensures x == y
  {
    var p := if d == "" || d[|d| - 1] == '/' then d else d + "/";
    assert PathJoin(d, x) == p + x && PathJoin(d, y) == p + y;
    assert (p + x)[|p|..] == x && (p + y)[|p|..] == y;
  }

  /** Within a group and an nvec, different objects have different script paths. */
  lemma BinPathInjective(runDir: string, a: Binned, b: Binned, nvec: int, start: int, end: int)
    requires BinPath(runDir, a, nvec, start, end) == BinPath(runDir, b, nvec, start, end)
    ensures a == b
  {
    var dir := PathJoin(PathJoin(runDir, GroupName(start, end)), "numvec" + IntToString(nvec));
    assert Tail(a)[0] != '/' && Tail(b)[0] != '/';
    PathJoinCancel(dir, ScriptName(a, nvec, start, end), ScriptName(b, nvec, start, end));
  }

  // ------------------------------------------------------------ template data

  /** `handler.templates[obj]`. */
  function Template(b: Binned): string
  {
    match b
    case Peram => "peram_mg_binned.sh.j2"
    case PeramStrange => "peram_strange_mg_binned.sh.j2"
    case PeramCharm => "peram_charm_mg_binned.sh.j2"
    case Meson => "meson_binned.sh.j2"
  }

  /** `filtered_data` before `ens_short` is read: the YAML entries `ChromaOptions` declares,
      the group's ids and id/GPU pairs, its bounds, the meson lists and the nvec. */
  function GroupData(yaml: map<string, Value>, fields: set<string>, start: int, end: int, nvec: int): map<string, Entry>
  {
    var ids := CfgIds(start, end);
    var filtered := map k | k in yaml && k in fields :: Scalar(yaml[k]);
    filtered["cfg_ids" := Ints(ids)]["cfg_ids_and_devices" := Pairs(Zip(ids, Devices))]
      ["cfg_group_start" := Scalar(Int(start))]["cfg_group_end" := Scalar(Int(end))]
      ["momentum_list" := Strings(MesonXml.GenMomList())]["displacement_list" := Strings(MesonXml.DisplacementList())]
      ["num_vecs_perams" := Scalar(Int(nvec))]["meson_nvec" := Scalar(Int(nvec))]
  }

  /** `filtered_data['ens_short']`: KeyError when the class does not keep it. */
  function EnsShortOf(data: map<string, Entry>): Result<string>
  {
    if "ens_short" !in data then Err(KeyError("ens_short"))
    else match data["ens_short"]
      case Scalar(Str(s)) => Ok(s)
      case Scalar(v) => Err(KeyError(Show(v)))
      case Mapping(_) => Err(TypeError("unhashable type: 'dict'"))
      case _ => Err(TypeError("unhashable type: 'list'"))
  }

  /** The data handed to the template, or the exception raised building it. */
  function BinData(yaml: map<string, Value>, fields: set<string>, start: int, end: int, nvec: int): Result<map<string, Entry>>
  {
    var data := GroupData(yaml, fields, start, end, nvec);
    var tag :- EnsShortOf(data);
    var info :- ChromaShTags.ParseEnsemble(tag);
    Ok(data + ScriptsTasks.EnsEntries(info))
  }

  /** The keys the script sets itself. */
  const SetHere: set<string> :=
    {"cfg_ids", "cfg_ids_and_devices", "cfg_group_start", "cfg_group_end", "momentum_list", "displacement_list",
     "num_vecs_perams", "meson_nvec"}

  /** The group keys hold the group's ids, their GPU pairs and its bounds; the nvec keys hold
      the nvec, whatever the YAML document says. */
  lemma GroupDataSets(yaml: map<string, Value>, fields: set<string>, start: int, end: int, nvec: int)
    ensures var d := GroupData(yaml, fields, start, end, nvec);
      d["cfg_ids"] == Ints(CfgIds(start, end)) && d["cfg_ids_and_devices"] == Pairs(Zip(CfgIds(start, end), Devices)) &&
      d["cfg_group_start"] == Scalar(Int(start)) && d["cfg_group_end"] == Scalar(Int(end)) &&
      d["num_vecs_perams"] == Scalar(Int(nvec)) && d["meson_nvec"] == Scalar(Int(nvec))
  {
  }

  /** Every other key is a YAML entry the class declares. */
  lemma GroupDataKeeps(yaml: map<string, Value>, fields: set<string>, start: int, end: int, nvec: int, k: string)
    requires k !in SetHere
    ensures var d := GroupData(yaml, fields, start, end, nvec);
      (k in d <==> k in yaml && k in fields) && (k in d ==> d[k] == Scalar(yaml[k]))
  {
  }

  /** A YAML document whose `ens_short` the class does not keep raises KeyError('ens_short')
      for every file. */
  lemma BinDataNoTag(yaml: map<string, Value>, fields: set<string>, start: int, end: int, nvec: int)
    requires !("ens_short" in yaml && "ens_short" in fields)
    ensures BinData(yaml, fields, start, end, nvec) == Err(KeyError("ens_short"))
  {
    GroupDataKeeps(yaml, fields, start, end, nvec, "ens_short");
  }

  /** An unknown `ens_short` raises KeyError with the tag. */
  lemma BinDataUnknownTag(yaml: map<string, Value>, fields: set<string>, start: int, end: int, nvec: int, tag: string)
    requires "ens_short" in yaml && "ens_short" in fields && yaml["ens_short"] == Str(tag)
    requires tag !in ChromaShTags.LongTag
    ensures BinData(yaml, fields, start, end, nvec) == Err(KeyError(tag))
  {
    GroupDataKeeps(yaml, fields, start, end, nvec, "ens_short");
  }

  // ------------------------------------------------------------ the run

  /** One pass of the innermost loop body: a group, an nvec and a run object. */
  datatype BinJob = BinJob(start: int, end: int, nvec: int, obj: Binned)

  /** The inner loop, over `run_objects`, for one group and nvec. */
  function NvecJobs(start: int, end: int, nvec: int, objs: seq<Binned>): (r: seq<BinJob>)
    ensures |r| == |objs|
    ensures forall k | 0 <= k < |objs| :: r[k] == BinJob(start, end, nvec, objs[k])
  {
    if objs == [] then [] else [BinJob(start, end, nvec, objs[0])] + NvecJobs(start, end, nvec, objs[1..])
  }

  /** The middle loop, over `--num_vecs`, for one group. */
  function GroupJobs(start: int, end: int, nvecs: seq<int>, objs: seq<Binned>): (r: seq<BinJob>)
    ensures |r| == |nvecs| * |objs|
  {
    if nvecs == [] then [] else NvecJobs(start, end, nvecs[0], objs) + GroupJobs(start, end, nvecs[1..], objs)
  }

  /** The outer loop, over the group starts. */
  function AllJobs(starts: seq<int>, cfgF: int, nvecs: seq<int>, objs: seq<Binned>): (r: seq<BinJob>)
    ensures |r| == |starts| * |nvecs| * |objs|
  {
    if starts == [] then []
    else GroupJobs(starts[0], GroupEnd(starts[0], cfgF), nvecs, objs) + AllJobs(starts[1..], cfgF, nvecs, objs)
  }

  /** Every job is one of a group, one of the nvecs and one of the run objects. */
  lemma {:induction false} GroupJobsMembers(start: int, end: int, nvecs: seq<int>, objs: seq<Binned>, j: BinJob)
    ensures j in GroupJobs(start, end, nvecs, objs) <==>
      j.start == start && j.end == end && j.nvec in nvecs && j.obj in objs
  {
    if nvecs != [] {
      GroupJobsMembers(start, end, nvecs[1..], objs, j);
      assert j in NvecJobs(start, end, nvecs[0], objs) <==> j.start == start && j.end == end && j.nvec == nvecs[0] && j.obj in objs by {
        if j in NvecJobs(start, end, nvecs[0], objs) {
          var k :| 0 <= k < |objs| && NvecJobs(start, end, nvecs[0], objs)[k] == j;
        }
        if j.start == start && j.end == end && j.nvec == nvecs[0] && j.obj in objs {
          var k :| 0 <= k < |objs| && objs[k] == j.obj;
          assert NvecJobs(start, end, nvecs[0], objs)[k] == j;
        }
      }
      assert j.nvec in nvecs <==> j.nvec == nvecs[0] || j.nvec in nvecs[1..] by {
        assert nvecs == [nvecs[0]] + nvecs[1..];
      }
    }
  }

  /** The job of every group start, nvec and run object is run, and no other. */
  lemma {:induction false} AllJobsMembers(starts: seq<int>, cfgF: int, nvecs: seq<int>, objs: seq<Binned>, j: BinJob)
    ensures j in AllJobs(starts, cfgF, nvecs, objs) <==>
      j.start in starts && j.end == GroupEnd(j.start, cfgF) && j.nvec in nvecs && j.obj in objs
  {
    if starts != [] {
      AllJobsMembers(starts[1..], cfgF, nvecs, objs, j);
      GroupJobsMembers(starts[0], GroupEnd(starts[0], cfgF), nvecs, objs, j);
      assert j.start in starts <==> j.start == starts[0] || j.start in starts[1..] by {
        assert starts == [starts[0]] + starts[1..];
      }
    }
  }

  /** What a job does: the path of its script, its rendered text, and whether the object
      passes the `obj in options.list_tasks` gate. */
  datatype BinRunner = BinRunner(path: BinJob -> string, render: BinJob -> Result<string>, gated: BinJob -> bool,
                                 name: BinJob -> string)

  /** The inputs of a run besides the command-line lists: the YAML document (after any
      prompted keys were added), the field names `ChromaOptions` declares, `--run_dir`, and
      the template engine. */
  datatype BinSetup = BinSetup(yaml: map<string, Value>, fields: set<string>, runDir: string, oracle: Oracle)

  /** The rendered script of a job, or the exception raised on the way. */
  function BinRender(s: BinSetup, j: BinJob): Result<string>
  {
    var data :- BinData(s.yaml, s.fields, j.start, j.end, j.nvec);
    s.oracle(Template(j.obj), data)
  }

  /** The runner of the script for `--list_tasks` `tasks`. */
  function BinRunnerOf(s: BinSetup, tasks: seq<string>): BinRunner
  {
    BinRunner((j: BinJob) => BinPath(s.runDir, j.obj, j.nvec, j.start, j.end), (j: BinJob) => BinRender(s, j),
              (j: BinJob) => BinName(j.obj) in tasks, (j: BinJob) => BinName(j.obj))
  }

  /** One pass of the innermost loop body. Nothing checks whether the file exists. */
  function BinStep(r: BinRunner, j: BinJob): StepResult
  {
    if !r.gated(j) then Skip
    else match r.render(j)
      case Err(e) => Fail(e)
      case Ok(text) => Emit(Write(r.path(j), r.name(j), text))
  }

  /** The jobs run in order; the first exception ends the run. */
  function RunBins(r: BinRunner, jobs: seq<BinJob>): Outcome
  {
    if jobs == [] then Outcome([], None)
    else match BinStep(r, jobs[0])
      case Skip => RunBins(r, jobs[1..])
      case Fail(e) => Outcome([], Some(e))
      case Emit(w) => After([w], RunBins(r, jobs[1..]))
  }

  lemma RunBinsCons(r: BinRunner, j: BinJob, rest: seq<BinJob>)
    ensures var o := RunBins(r, [j] + rest);
      var st := BinStep(r, j);
      (st.Skip? ==> o == RunBins(r, rest)) &&
      (st.Fail? ==> o == Outcome([], Some(st.e))) &&
      (st.Emit? ==> o == After([st.w], RunBins(r, rest)))
  {
    assert ([j] + rest)[0] == j && ([j] + rest)[1..] == rest;
  }

  /** `main` past reading the YAML document, for a runner. */
  function MainWith(r: BinRunner, cfgI: int, cfgF: int, tasks: seq<string>, numVecs: seq<int>): Outcome
  {
    RunBins(r, AllJobs(GroupStarts(cfgI, cfgF), cfgF, numVecs, RunObjects(tasks)))
  }

  /** `main` past reading the YAML document. */
  function Main(s: BinSetup, cfgI: int, cfgF: int, tasks: seq<string>, numVecs: seq<int>): Outcome
  {
    MainWith(BinRunnerOf(s, tasks), cfgI, cfgF, tasks, numVecs)
  }

  /** The loops of `main`: the task expansion, then groups, nvecs and objects. */
  method MainLoops(r: BinRunner, cfgI: int, cfgF: int, tasks: seq<string>, numVecs: seq<int>)
    returns (writes: seq<Write>, error: Option<PyError>)
    ensures Outcome(writes, error) == MainWith(r, cfgI, cfgF, tasks, numVecs)
  {
    var objs := ExpandTasks(tasks);
    var starts := GroupStarts(cfgI, cfgF);
    writes, error := [], None;
    var i := 0;
    while i < |starts|
      invariant 0 <= i <= |starts|
      invariant MainWith(r, cfgI, cfgF, tasks, numVecs) == After(writes, RunBins(r, AllJobs(starts[i..], cfgF, numVecs, objs)))
    {
      var start := starts[i];
      var end := GroupEnd(start, cfgF);
      ghost var later := AllJobs(starts[i + 1..], cfgF, numVecs, objs);
      assert AllJobs(starts[i..], cfgF, numVecs, objs) == GroupJobs(start, end, numVecs, objs) + later by {
        assert starts[i..][1..] == starts[i + 1..];
      }
      ghost var before := writes;
      var ws, e := RunGroup(r, start, end, numVecs, objs, later);
      writes := writes + ws;
      if e.Some? {
        error := e;
        return;
      }
      AfterAfter(before, ws, RunBins(r, later));
      i := i + 1;
    }
    assert AllJobs(starts[i..], cfgF, numVecs, objs) == [] by {
      assert starts[i..] == [];
    }
    assert writes + [] == writes;
  }

  /** The loop over the nvecs of one group; `later` are the jobs after the group. */
  method RunGroup(r: BinRunner, start: int, end: int, nvecs: seq<int>, objs: seq<Binned>, ghost later: seq<BinJob>)
    returns (writes: seq<Write>, error: Option<PyError>)
    ensures RunBins(r, GroupJobs(start, end, nvecs, objs) + later) ==
      if error.Some? then Outcome(writes, error) else After(writes, RunBins(r, later))
  {
    writes, error := [], None;
    var k := 0;
    while k < |nvecs|
      invariant 0 <= k <= |nvecs|
      invariant RunBins(r, GroupJobs(start, end, nvecs, objs) + later)
        == After(writes, RunBins(r, GroupJobs(start, end, nvecs[k..], objs) + later))
    {
      ghost var rest := GroupJobs(start, end, nvecs[k + 1..], objs) + later;
      assert GroupJobs(start, end, nvecs[k..], objs) + later == NvecJobs(start, end, nvecs[k], objs) + rest by {
        assert nvecs[k..][1..] == nvecs[k + 1..];
      }
      ghost var before := writes;
      var ws, e := RunNvec(r, start, end, nvecs[k], objs, rest);
      writes := writes + ws;
      if e.Some? {
        error := e;
        return;
      }
      AfterAfter(before, ws, RunBins(r, rest));
      k := k + 1;
    }
    assert GroupJobs(start, end, nvecs[k..], objs) + later == later by {
      assert nvecs[k..] == [];
    }
  }

  /** The loop over `run_objects` for one group and nvec. */
  method RunNvec(r: BinRunner, start: int, end: int, nvec: int, objs: seq<Binned>, ghost later: seq<BinJob>)
    returns (writes: seq<Write>, error: Option<PyError>)
    ensures RunBins(r, NvecJobs(start, end, nvec, objs) + later) ==
      if error.Some? then Outcome(writes, error) else After(writes, RunBins(r, later))
  {
    writes, error := [], None;
    var m := 0;
    while m < |objs|
      invariant 0 <= m <= |objs|
      invariant RunBins(r, NvecJobs(start, end, nvec, objs) + later)
        == After(writes, RunBins(r, NvecJobs(start, end, nvec, objs[m..]) + later))
    {
      var job := BinJob(start, end, nvec, objs[m]);
      ghost var rest := NvecJobs(start, end, nvec, objs[m + 1..]) + later;
      assert NvecJobs(start, end, nvec, objs[m..]) + later == [job] + rest by {
        assert objs[m..][1..] == objs[m + 1..];
      }
      RunBinsCons(r, job, rest);
      match BinStep(r, job) {
        case Skip =>
        case Fail(e) =>
          assert writes + [] == writes;
          error := Some(e);
          return;
        case Emit(w) =>
          AfterAfter(writes, [w], RunBins(r, rest));
          writes := writes + [w];
      }
      m := m + 1;
    }
    assert NvecJobs(start, end, nvec, objs[m..]) + later == later by {
      assert objs[m..] == [];
    }
  }

  // ------------------------------------------------------------ what a run promises

  /** The jobs that pass the gate, in order. */
  function Gated(r: BinRunner, jobs: seq<BinJob>): (g: seq<BinJob>)
    ensures |g| <= |jobs|
  {
    if jobs == [] then [] else (if r.gated(jobs[0]) then [jobs[0]] else []) + Gated(r, jobs[1..])
  }

  /** Every write is the script of a job that passed the gate, at that job's path, holding
      its rendered text. */
  lemma {:induction false} RunBinsGated(r: BinRunner, jobs: seq<BinJob>, k: nat)
    requires k < |RunBins(r, jobs).writes|
    ensures var w := RunBins(r, jobs).writes[k];
      exists i | 0 <= i < |jobs| :: r.gated(jobs[i]) && r.render(jobs[i]).Ok? &&
        w == Write(r.path(jobs[i]), r.name(jobs[i]), r.render(jobs[i]).value)
  {
    var j := jobs[0];
    var w := RunBins(r, jobs).writes[k];
    RunBinsCons(r, j, jobs[1..]);
    assert jobs == [j] + jobs[1..];
    var st := BinStep(r, j);
    if st.Emit? && k == 0 {
      assert w == st.w;
    } else {
      RunBinsGated(r, jobs[1..], if st.Emit? then k - 1 else k);
      var i :| 0 <= i < |jobs[1..]| && r.gated(jobs[1..][i]) && r.render(jobs[1..][i]).Ok? &&
        w == Write(r.path(jobs[1..][i]), r.name(jobs[1..][i]), r.render(jobs[1..][i]).value);
      assert jobs[1..][i] == jobs[i + 1];
    }
  }

  /** A run in which no job passes the gate writes nothing and raises nothing. */
  lemma {:induction false} RunBinsNoneGated(r: BinRunner, jobs: seq<BinJob>)
    requires forall i | 0 <= i < |jobs| :: !r.gated(jobs[i])
    ensures RunBins(r, jobs) == Outcome([], None)
  {
    if jobs != [] {
      assert forall i | 0 <= i < |jobs[1..]| :: jobs[1..][i] == jobs[i + 1];
      RunBinsNoneGated(r, jobs[1..]);
    }
  }

  /** A run that ends without an exception wrote one script per gated job, in order: existing
      files are overwritten, and a job repeated (an object listed twice) writes its path
      again. */
  lemma {:induction false} RunBinsAll(r: BinRunner, jobs: seq<BinJob>)
    requires RunBins(r, jobs).error.None?
    ensures var ws := RunBins(r, jobs).writes; var g := Gated(r, jobs);
      |ws| == |g| &&
      forall k | 0 <= k < |g| ::
        r.render(g[k]).Ok? && ws[k] == Write(r.path(g[k]), r.name(g[k]), r.render(g[k]).value)
  {
    if jobs != [] {
      var j := jobs[0];
      RunBinsAll(r, jobs[1..]);
      if r.gated(j) {
        var ws := RunBins(r, jobs).writes;
        var g := Gated(r, jobs);
        assert g == [j] + Gated(r, jobs[1..]);
        assert forall k | 1 <= k < |g| :: g[k] == Gated(r, jobs[1..])[k - 1];
      }
    }
  }

  /** The run stops at the first gated job whose rendering fails, with that exception. */
  lemma {:induction false} RunBinsFails(r: BinRunner, jobs: seq<BinJob>, i: nat)
    requires i < |jobs| && r.gated(jobs[i]) && r.render(jobs[i]).Err?
    requires forall h | 0 <= h < i :: !r.gated(jobs[h]) || r.render(jobs[h]).Ok?
    ensures RunBins(r, jobs).error == Some(r.render(jobs[i]).error)
    ensures |RunBins(r, jobs).writes| <= i
  {
    if i > 0 {
      assert forall h | 0 <= h < i - 1 :: jobs[1..][h] == jobs[h + 1];
      RunBinsFails(r, jobs[1..], i - 1);
    }
  }

  /** Tasks as the usage documents them (`peram`, `meson`, ...) render nothing: the gate
      asks for the object's own name, and every object name starts with `chroma_`. */
  lemma MainPlainTasks(s: BinSetup, cfgI: int, cfgF: int, tasks: seq<string>, numVecs: seq<int>)
    requires forall i | 0 <= i < |tasks| :: !StartsWith(tasks[i], "chroma_")
    ensures Main(s, cfgI, cfgF, tasks, numVecs) == Outcome([], None)
  {
    var r := BinRunnerOf(s, tasks);
    var jobs := AllJobs(GroupStarts(cfgI, cfgF), cfgF, numVecs, RunObjects(tasks));
    forall i | 0 <= i < |jobs|
      ensures !r.gated(jobs[i])
    {
      StripChroma(jobs[i].obj);
    }
    RunBinsNoneGated(r, jobs);
  }

  /** With the gate passed, the script of a job is the template of its object rendered on the
      group data, at `<run_dir>/cfgs_<start>-<end>/numvec<nvec>/<script name>`. */
  lemma BinRunnerOfJob(s: BinSetup, tasks: seq<string>, j: BinJob)
    ensures var r := BinRunnerOf(s, tasks);
      (r.gated(j) <==> BinName(j.obj) in tasks) && r.name(j) == BinName(j.obj) &&
      r.path(j) == PathJoin(PathJoin(PathJoin(s.runDir, GroupName(j.start, j.end)), "numvec" + IntToString(j.nvec)),
        ScriptName(j.obj, j.nvec, j.start, j.end)) &&
      (BinData(s.yaml, s.fields, j.start, j.end, j.nvec).Err? ==> r.render(j) == Err(BinData(s.yaml, s.fields, j.start, j.end, j.nvec).error)) &&
      (BinData(s.yaml, s.fields, j.start, j.end, j.nvec).Ok? ==> r.render(j) == s.oracle(Template(j.obj), BinData(s.yaml, s.fields, j.start, j.end, j.nvec).value))
  {
  }
}
