/** scripts/create_tasks.py, its run: for each config id of `range(cfg_i, cfg_f, cfg_step)`,
    each run object and each nvec, the file is located, skipped when it exists and
    overwriting is off, and otherwise rendered and written. The first exception ends the run.

    The loop body prints `ini_path`, a name the script never assigns, so as written the run
    raises NameError before its first file. The corrected run takes the directory as a
    parameter. `os.path.realpath` is an oracle, and the filesystem is the set of existing
    paths. */
module ScriptsTasksRun {
  import opened Py
  import opened Plan
  import opened ScriptsTasks

  /** One pass of the innermost loop body. */
  datatype Job = Job(cfg: int, obj: Obj, nvec: Option<int>)

  /** What the run reads apart from the loop ranges: the YAML document, the model fields
      of each class, `os.path.realpath`, `--run_dir`, `--overwrite` and the template engine. */
  datatype Setup = Setup(yaml: map<string, Value>, fields: XmlClass -> set<string>, realpath: string -> string,
                         runDir: string, overwrite: bool, oracle: Oracle)

  // ------------------------------------------------------------ the jobs

  /** `options.num_vecs if options.num_vecs else [None]`. */
  function NvecValues(numVecs: seq<int>): (r: seq<Option<int>>)
    ensures |r| >= 1
    ensures numVecs == [] ==> r == [None]
    ensures numVecs != [] ==> |r| == |numVecs| && forall k | 0 <= k < |r| :: r[k] == Some(numVecs[k])
  {
    if numVecs == [] then [None] else seq(|numVecs|, k requires 0 <= k < |numVecs| => Some(numVecs[k]))
  }

  /** The nvec loop for one object. */
  function ObjJobs(cfg: int, o: Obj, nvecs: seq<Option<int>>): (r: seq<Job>)
    ensures |r| == |nvecs|
    ensures forall k | 0 <= k < |r| :: r[k] == Job(cfg, o, nvecs[k])
  {
    if nvecs == [] then [] else [Job(cfg, o, nvecs[0])] + ObjJobs(cfg, o, nvecs[1..])
  }

  /** The object loop for one config id. */
  function CfgJobs(cfg: int, objs: seq<Obj>, nvecs: seq<Option<int>>): (r: seq<Job>)
    ensures |r| == |objs| * |nvecs|
  {
    if objs == [] then [] else ObjJobs(cfg, objs[0], nvecs) + CfgJobs(cfg, objs[1..], nvecs)
  }

  /** The three nested loops as one list of jobs, config ids outermost. */
  function Jobs(cfgs: seq<int>, objs: seq<Obj>, nvecs: seq<Option<int>>): (r: seq<Job>)
    ensures |r| == |cfgs| * (|objs| * |nvecs|)
  {
    if cfgs == [] then [] else CfgJobs(cfgs[0], objs, nvecs) + Jobs(cfgs[1..], objs, nvecs)
  }

  lemma {:induction false} CfgJobsMembers(cfg: int, objs: seq<Obj>, nvecs: seq<Option<int>>, j: Job)
    ensures j in CfgJobs(cfg, objs, nvecs) <==> j.cfg == cfg && j.obj in objs && j.nvec in nvecs
  {
    if objs != [] {
      CfgJobsMembers(cfg, objs[1..], nvecs, j);
      assert j.obj in objs <==> j.obj == objs[0] || j.obj in objs[1..] by {
        assert objs == [objs[0]] + objs[1..];
      }
      if j.cfg == cfg && j.obj == objs[0] && j.nvec in nvecs {
        var k :| 0 <= k < |nvecs| && nvecs[k] == j.nvec;
        assert ObjJobs(cfg, objs[0], nvecs)[k] == j;
      }
    }
  }

  /** Each combination of a config id, an object and an nvec is a job, and nothing else is. */
  lemma {:induction false} JobsMembers(cfgs: seq<int>, objs: seq<Obj>, nvecs: seq<Option<int>>, j: Job)
    ensures j in Jobs(cfgs, objs, nvecs) <==> j.cfg in cfgs && j.obj in objs && j.nvec in nvecs
  {
    if cfgs != [] {
      JobsMembers(cfgs[1..], objs, nvecs, j);
      CfgJobsMembers(cfgs[0], objs, nvecs, j);
      assert j.cfg in cfgs <==> j.cfg == cfgs[0] || j.cfg in cfgs[1..] by {
        assert cfgs == [cfgs[0]] + cfgs[1..];
      }
    }
  }

  // ------------------------------------------------------------ one job

  /** `os.path.realpath(os.path.join('..', ini_path, f'cnfg{cfg_id:02d}'))`, joined onto
      `--run_dir`. */
  function RunDir(s: Setup, iniPath: string, cfg: int): string
  {
    PathJoin(s.runDir, s.realpath(PathJoin(PathJoin("..", iniPath), "cnfg" + Pad2(cfg))))
  }

  /** The directory of a job's file: `numvec<nvec>` under the run directory when there is an
      nvec. */
  function JobDir(s: Setup, iniPath: string, j: Job): string
  {
    if HasNvec(j.nvec) then PathJoin(RunDir(s, iniPath, j.cfg), "numvec" + IntToString(j.nvec.value)) else RunDir(s, iniPath, j.cfg)
  }

  /** `ini_out_path` of a job, by the naming rule of its object. */
  function JobPath(s: Setup, iniPath: string, j: Job): string
  {
    PathJoin(JobDir(s, iniPath, j),
             BaseName(j.obj) + ((if NamesNvec(j.obj) then NvecPart(j.nvec) else "") + ("_cfg" + (Pad2(j.cfg) + Ext(j.obj)))))
  }

  /** The branches of the name and directory choice, applied to the object's name, give the
      job's path and raise nothing. */
  lemma JobPathAsWritten(s: Setup, iniPath: string, j: Job)
    ensures OutPath(RunDir(s, iniPath, j.cfg), ObjName(j.obj), j.cfg, j.nvec) == Ok(JobPath(s, iniPath, j))
  {
    OutPathRule(RunDir(s, iniPath, j.cfg), j.obj, j.cfg, j.nvec);
  }

  /** The rendered file of a job: its data, then its template. */
  function Render(s: Setup, j: Job): Result<string>
  {
    var data :- RenderData(s.yaml, s.fields(ClassOf(j.obj)), j.cfg, j.nvec);
    s.oracle(TemplateOf(j.obj), data)
  }

  /** What the loop body does with a job: where its file goes, what it holds, the object name
      it is written for, and `--overwrite`. */
  datatype Runner = Runner(locate: Job -> Result<string>, render: Job -> Result<string>, name: Job -> string, overwrite: bool)

  /** The runner of the script with `ini_path` given. */
  function RunnerOf(s: Setup, iniPath: string): Runner
  {
    Runner((j: Job) => OutPath(RunDir(s, iniPath, j.cfg), ObjName(j.obj), j.cfg, j.nvec), (j: Job) => Render(s, j),
           (j: Job) => ObjName(j.obj), s.overwrite)
  }

  /** One pass of the innermost loop body. */
  function JobStep(r: Runner, j: Job, fs: set<string>): StepResult
  {
    match r.locate(j)
    case Err(e) => Fail(e)
    case Ok(path) =>
      if path in fs && !r.overwrite then Skip
      else match r.render(j)
        case Err(e) => Fail(e)
        case Ok(text) => Emit(Write(path, r.name(j), text))
  }

  /** The jobs run in order; each write adds its path to the filesystem, and the first
      exception ends the run. */
  function RunJobs(r: Runner, jobs: seq<Job>, fs: set<string>): Outcome
  {
    if jobs == [] then Outcome([], None)
    else match JobStep(r, jobs[0], fs)
      case Skip => RunJobs(r, jobs[1..], fs)
      case Fail(e) => Outcome([], Some(e))
      case Emit(w) =>
        var rest := RunJobs(r, jobs[1..], fs + {w.path});
        Outcome([w] + rest.writes, rest.error)
  }

  lemma RunJobsCons(r: Runner, j: Job, rest: seq<Job>, fs: set<string>)
    ensures var o := RunJobs(r, [j] + rest, fs);
      var st := JobStep(r, j, fs);
      (st.Skip? ==> o == RunJobs(r, rest, fs)) &&
      (st.Fail? ==> o == Outcome([], Some(st.e))) &&
      (st.Emit? ==> o == After([st.w], RunJobs(r, rest, fs + {st.w.path})))
  {
    assert ([j] + rest)[0] == j && ([j] + rest)[1..] == rest;
  }

  // ------------------------------------------------------------ the whole run

  /** `process_yaml_file` as written: past the expansion and `range`, the first pass of the
      config loop raises NameError at `print(ini_path)`. */
  function ProcessAsWritten(cfgI: int, cfgF: int, cfgStep: int): Outcome
  {
    match PyRange(cfgI, cfgF, cfgStep)
    case Err(e) => Outcome([], Some(e))
    case Ok(cfgs) => if cfgs == [] then Outcome([], None) else Outcome([], Some(NameError("ini_path")))
  }

  /** The run of `process_yaml_file` past the expansion, for a runner. */
  function ProcessWith(r: Runner, cfgI: int, cfgF: int, cfgStep: int, tasks: seq<string>, numVecs: seq<int>, fs: set<string>): Outcome
  {
    match PyRange(cfgI, cfgF, cfgStep)
    case Err(e) => Outcome([], Some(e))
    case Ok(cfgs) => RunJobs(r, Jobs(cfgs, RunObjects(tasks), NvecValues(numVecs)), fs)
  }

  /** `process_yaml_file` with `ini_path` given. */
  function Process(s: Setup, iniPath: string, cfgI: int, cfgF: int, cfgStep: int, tasks: seq<string>, numVecs: seq<int>, fs: set<string>)
    : Outcome
  {
    ProcessWith(RunnerOf(s, iniPath), cfgI, cfgF, cfgStep, tasks, numVecs, fs)
  }

  /** As written, nothing is ever written: the run raises NameError whenever the range of
      config ids is not empty, and otherwise does nothing. */
  lemma ProcessAsWrittenFails(cfgI: int, cfgF: int, cfgStep: int)
    ensures ProcessAsWritten(cfgI, cfgF, cfgStep).writes == []
    ensures cfgStep > 0 && cfgI < cfgF ==> ProcessAsWritten(cfgI, cfgF, cfgStep) == Outcome([], Some(NameError("ini_path")))
  {
    if cfgStep > 0 && cfgI < cfgF {
      assert |Range(cfgI, cfgF, cfgStep)| > 0;
    }
  }

  /** The corrected run agrees with the written one wherever the written one reaches no
      `print(ini_path)`: a bad range or an empty one. */
  lemma ProcessAgreesBeforeLoop(r: Runner, cfgI: int, cfgF: int, cfgStep: int, tasks: seq<string>, numVecs: seq<int>, fs: set<string>)
    requires PyRange(cfgI, cfgF, cfgStep).Err? || PyRange(cfgI, cfgF, cfgStep).value == []
    ensures ProcessWith(r, cfgI, cfgF, cfgStep, tasks, numVecs, fs) == ProcessAsWritten(cfgI, cfgF, cfgStep)
  {
  }

  /** The loops of the run, as the script writes them: expand the tasks, then `for cfg_id`,
      `for obj`, `for nvec`. */
  method ProcessLoops(r: Runner, cfgI: int, cfgF: int, cfgStep: int, tasks: seq<string>, numVecs: seq<int>, fs: set<string>)
    returns (writes: seq<Write>, error: Option<PyError>, fsOut: set<string>)
    ensures Outcome(writes, error) == ProcessWith(r, cfgI, cfgF, cfgStep, tasks, numVecs, fs)
    ensures fsOut == fs + Paths(writes)
  {
    var objs := ExpandTasks(tasks);
    var range := PyRange(cfgI, cfgF, cfgStep);
    if range.Err? {
      writes, error, fsOut := [], Some(range.error), fs;
      assert Paths([]) == {};
      return;
    }
    writes, error, fsOut := RunLoops(r, range.value, objs, NvecValues(numVecs), fs);
  }

  /** The three nested loops over the config ids, the objects and the nvecs. */
  method RunLoops(r: Runner, cfgs: seq<int>, objs: seq<Obj>, nvecs: seq<Option<int>>, fs: set<string>)
    returns (writes: seq<Write>, error: Option<PyError>, fsOut: set<string>)
    ensures Outcome(writes, error) == RunJobs(r, Jobs(cfgs, objs, nvecs), fs)
    ensures fsOut == fs + Paths(writes)
  {
    writes, error, fsOut := [], None, fs;
    var i := 0;
    while i < |cfgs|
      invariant 0 <= i <= |cfgs|
      invariant fsOut == fs + Paths(writes)
      invariant RunJobs(r, Jobs(cfgs, objs, nvecs), fs) == After(writes, RunJobs(r, Jobs(cfgs[i..], objs, nvecs), fsOut))
    {
      ghost var later := Jobs(cfgs[i + 1..], objs, nvecs);
      assert Jobs(cfgs[i..], objs, nvecs) == CfgJobs(cfgs[i], objs, nvecs) + later by {
        assert cfgs[i..][1..] == cfgs[i + 1..];
      }
      ghost var before := writes;
      var ws, e, fs' := RunCfg(r, cfgs[i], objs, nvecs, later, fsOut);
      PathsAppend(writes, ws);
      writes, fsOut := writes + ws, fs';
      if e.Some? {
        error := e;
        return;
      }
      AfterAfter(before, ws, RunJobs(r, later, fsOut));
      i := i + 1;
    }
    assert Jobs(cfgs[i..], objs, nvecs) == [];
    assert writes + [] == writes;
  }

  /** The object loop of one config id; `later` are the jobs after it. */
  method RunCfg(r: Runner, cfg: int, objs: seq<Obj>, nvecs: seq<Option<int>>, ghost later: seq<Job>, fs: set<string>)
    returns (writes: seq<Write>, error: Option<PyError>, fsOut: set<string>)
    ensures fsOut == fs + Paths(writes)
    ensures RunJobs(r, CfgJobs(cfg, objs, nvecs) + later, fs) ==
      if error.Some? then Outcome(writes, error) else After(writes, RunJobs(r, later, fsOut))
  {
    writes, error, fsOut := [], None, fs;
    var j := 0;
    while j < |objs|
      invariant 0 <= j <= |objs|
      invariant fsOut == fs + Paths(writes)
      invariant RunJobs(r, CfgJobs(cfg, objs, nvecs) + later, fs)
        == After(writes, RunJobs(r, CfgJobs(cfg, objs[j..], nvecs) + later, fsOut))
    {
      ghost var rest := CfgJobs(cfg, objs[j + 1..], nvecs) + later;
      CfgJobsFrom(cfg, objs, nvecs, j, later);
      ghost var before := writes;
      var ws, e, fs' := RunObj(r, cfg, objs[j], nvecs, rest, fsOut);
      PathsAppend(writes, ws);
      writes, fsOut := writes + ws, fs';
      if e.Some? {
        error := e;
        return;
      }
      AfterAfter(before, ws, RunJobs(r, rest, fsOut));
      j := j + 1;
    }
    assert objs[j..] == [];
    assert CfgJobs(cfg, objs[j..], nvecs) + later == later;
  }

  /** The jobs of a config id from its `j`-th object on: that object's jobs, then the rest. */
  lemma CfgJobsFrom(cfg: int, objs: seq<Obj>, nvecs: seq<Option<int>>, j: nat, later: seq<Job>)
    requires j < |objs|
    ensures CfgJobs(cfg, objs[j..], nvecs) + later == ObjJobs(cfg, objs[j], nvecs) + (CfgJobs(cfg, objs[j + 1..], nvecs) + later)
  {
    assert objs[j..][1..] == objs[j + 1..];
  }

  /** The nvec loop of one object; `later` are the jobs after it. */
  method RunObj(r: Runner, cfg: int, o: Obj, nvecs: seq<Option<int>>, ghost later: seq<Job>, fs: set<string>)
    returns (writes: seq<Write>, error: Option<PyError>, fsOut: set<string>)
    ensures fsOut == fs + Paths(writes)
    ensures RunJobs(r, ObjJobs(cfg, o, nvecs) + later, fs) ==
      if error.Some? then Outcome(writes, error) else After(writes, RunJobs(r, later, fsOut))
  {
    writes, error, fsOut := [], None, fs;
    var k := 0;
    while k < |nvecs|
      invariant 0 <= k <= |nvecs|
      invariant fsOut == fs + Paths(writes)
      invariant RunJobs(r, ObjJobs(cfg, o, nvecs) + later, fs)
        == After(writes, RunJobs(r, ObjJobs(cfg, o, nvecs[k..]) + later, fsOut))
    {
      var job := Job(cfg, o, nvecs[k]);
      ghost var rest := ObjJobs(cfg, o, nvecs[k + 1..]) + later;
      ObjJobsFrom(cfg, o, nvecs, k, later);
      RunJobsCons(r, job, rest, fsOut);
      match JobStep(r, job, fsOut) {
        case Skip =>
        case Fail(e) =>
          assert writes + [] == writes;
          error := Some(e);
          return;
        case Emit(w) =>
          PathsAppend(writes, [w]);
          AfterAfter(writes, [w], RunJobs(r, rest, fsOut + {w.path}));
          writes := writes + [w];
          fsOut := fsOut + {w.path};
      }
      k := k + 1;
    }
    assert nvecs[k..] == [];
    assert ObjJobs(cfg, o, nvecs[k..]) + later == later;
  }

  /** The jobs of an object from its `k`-th nvec on: the `k`-th job, then the rest. */
  lemma ObjJobsFrom(cfg: int, o: Obj, nvecs: seq<Option<int>>, k: nat, later: seq<Job>)
    requires k < |nvecs|
    ensures ObjJobs(cfg, o, nvecs[k..]) + later == [Job(cfg, o, nvecs[k])] + (ObjJobs(cfg, o, nvecs[k + 1..]) + later)
  {
    assert nvecs[k..][1..] == nvecs[k + 1..];
  }

  // ------------------------------------------------------------ what a run promises

  /** Without overwriting, no file that existed is written, and no path is written twice:
      of two jobs with one path only the first is written. */
  lemma {:induction false} RunJobsFresh(r: Runner, jobs: seq<Job>, fs: set<string>)
    requires !r.overwrite
    ensures var ws := RunJobs(r, jobs, fs).writes;
      (forall k | 0 <= k < |ws| :: ws[k].path !in fs) &&
      (forall k, l | 0 <= k < l < |ws| :: ws[k].path != ws[l].path)
  {
    if jobs != [] {
      RunJobsCons(r, jobs[0], jobs[1..], fs);
      assert jobs == [jobs[0]] + jobs[1..];
      match JobStep(r, jobs[0], fs)
      case Skip =>
        RunJobsFresh(r, jobs[1..], fs);
      case Fail(e) =>
      case Emit(w) =>
        assert w.path !in fs;
        RunJobsFresh(r, jobs[1..], fs + {w.path});
        var ws := RunJobs(r, jobs, fs).writes;
        var rest := RunJobs(r, jobs[1..], fs + {w.path}).writes;
        assert ws == [w] + rest;
        assert forall k | 1 <= k < |ws| :: ws[k] == rest[k - 1];
    }
  }

  /** Every write is the file of one of the jobs, at its located path, rendered from its
      template and recorded under its object's name. */
  lemma {:induction false} RunJobsLocated(r: Runner, jobs: seq<Job>, fs: set<string>, k: nat)
    requires k < |RunJobs(r, jobs, fs).writes|
    ensures var w := RunJobs(r, jobs, fs).writes[k];
      exists i | 0 <= i < |jobs| :: w.obj == r.name(jobs[i]) && r.locate(jobs[i]) == Ok(w.path) && r.render(jobs[i]) == Ok(w.content)
  {
    var w := RunJobs(r, jobs, fs).writes[k];
    match JobStep(r, jobs[0], fs)
    case Skip =>
      RunJobsLocated(r, jobs[1..], fs, k);
      var i :| 0 <= i < |jobs[1..]| && w.obj == r.name(jobs[1..][i]) && r.locate(jobs[1..][i]) == Ok(w.path) && r.render(jobs[1..][i]) == Ok(w.content);
      assert jobs[1..][i] == jobs[i + 1];
    case Emit(w0) =>
      if k == 0 {
        assert w == w0;
      } else {
        RunJobsLocated(r, jobs[1..], fs + {w0.path}, k - 1);
        var i :| 0 <= i < |jobs[1..]| && w.obj == r.name(jobs[1..][i]) && r.locate(jobs[1..][i]) == Ok(w.path) && r.render(jobs[1..][i]) == Ok(w.content);
        assert jobs[1..][i] == jobs[i + 1];
      }
  }

  /** With overwriting on, a run that ends without an exception wrote one file per job, in
      job order. */
  lemma {:induction false} RunJobsOverwriteAll(r: Runner, jobs: seq<Job>, fs: set<string>)
    requires r.overwrite && RunJobs(r, jobs, fs).error.None?
    ensures var ws := RunJobs(r, jobs, fs).writes;
      |ws| == |jobs| &&
      forall k | 0 <= k < |jobs| :: r.locate(jobs[k]) == Ok(ws[k].path) && r.render(jobs[k]) == Ok(ws[k].content) && ws[k].obj == r.name(jobs[k])
  {
    if jobs != [] {
      match JobStep(r, jobs[0], fs)
      case Emit(w) =>
        RunJobsOverwriteAll(r, jobs[1..], fs + {w.path});
        assert forall k | 1 <= k < |jobs| :: jobs[k] == jobs[1..][k - 1];
    }
  }

  /** A run in which every job is located and none renders writes nothing, and ends with the
      rendering exception or with every file skipped; with overwriting on, the first job
      raises it. */
  lemma {:induction false} RunJobsNoRender(r: Runner, jobs: seq<Job>, fs: set<string>, e: PyError)
    requires forall k | 0 <= k < |jobs| :: r.locate(jobs[k]).Ok? && r.render(jobs[k]) == Err(e)
    ensures RunJobs(r, jobs, fs).writes == []
    ensures RunJobs(r, jobs, fs).error == None || RunJobs(r, jobs, fs).error == Some(e)
    ensures r.overwrite && jobs != [] ==> RunJobs(r, jobs, fs) == Outcome([], Some(e))
  {
    if jobs != [] {
      assert r.locate(jobs[0]).Ok? && r.render(jobs[0]) == Err(e);
      if JobStep(r, jobs[0], fs).Skip? {
        assert forall k | 0 <= k < |jobs[1..]| :: jobs[1..][k] == jobs[k + 1];
        RunJobsNoRender(r, jobs[1..], fs, e);
      }
    }
  }

  /** Without overwriting, a whole run never writes a file that existed and never writes
      one path twice. */
  lemma ProcessWritesFresh(r: Runner, cfgI: int, cfgF: int, cfgStep: int, tasks: seq<string>, numVecs: seq<int>, fs: set<string>)
    requires !r.overwrite
    ensures var ws := ProcessWith(r, cfgI, cfgF, cfgStep, tasks, numVecs, fs).writes;
      (forall k | 0 <= k < |ws| :: ws[k].path !in fs) &&
      (forall k, l | 0 <= k < l < |ws| :: ws[k].path != ws[l].path)
  {
    if PyRange(cfgI, cfgF, cfgStep).Ok? {
      var jobs := Jobs(PyRange(cfgI, cfgF, cfgStep).value, RunObjects(tasks), NvecValues(numVecs));
      assert ProcessWith(r, cfgI, cfgF, cfgStep, tasks, numVecs, fs) == RunJobs(r, jobs, fs);
      RunJobsFresh(r, jobs, fs);
    }
  }

  /** Every file a run writes belongs to a config id of the range, an object of the expanded
      tasks and one of the nvecs, and sits at that job's path with that job's rendering. */
  lemma ProcessWritesLocated(r: Runner, cfgI: int, cfgF: int, cfgStep: int, tasks: seq<string>, numVecs: seq<int>, fs: set<string>, k: nat)
    requires k < |ProcessWith(r, cfgI, cfgF, cfgStep, tasks, numVecs, fs).writes|
    ensures PyRange(cfgI, cfgF, cfgStep).Ok?
    ensures var w := ProcessWith(r, cfgI, cfgF, cfgStep, tasks, numVecs, fs).writes[k];
      exists j: Job :: j.cfg in PyRange(cfgI, cfgF, cfgStep).value && j.obj in RunObjects(tasks) && j.nvec in NvecValues(numVecs) &&
        w.obj == r.name(j) && r.locate(j) == Ok(w.path) && r.render(j) == Ok(w.content)
  {
    var cfgs := PyRange(cfgI, cfgF, cfgStep).value;
    var jobs := Jobs(cfgs, RunObjects(tasks), NvecValues(numVecs));
    RunJobsLocated(r, jobs, fs, k);
    var w := ProcessWith(r, cfgI, cfgF, cfgStep, tasks, numVecs, fs).writes[k];
    var i :| 0 <= i < |jobs| && w.obj == r.name(jobs[i]) && r.locate(jobs[i]) == Ok(w.path) && r.render(jobs[i]) == Ok(w.content);
    JobsMembers(cfgs, RunObjects(tasks), NvecValues(numVecs), jobs[i]);
  }

  // ------------------------------------------------------------ the script's runner

  /** The script's runner locates every job at its path, names it after its object, and
      renders it from the object's template and data. */
  lemma RunnerOfJob(s: Setup, iniPath: string, j: Job)
    ensures RunnerOf(s, iniPath).locate(j) == Ok(JobPath(s, iniPath, j))
    ensures RunnerOf(s, iniPath).name(j) == ObjName(j.obj)
    ensures RunnerOf(s, iniPath).render(j) == Render(s, j)
    ensures RunnerOf(s, iniPath).overwrite == s.overwrite
  {
    JobPathAsWritten(s, iniPath, j);
  }

  /** A YAML document without `ens_short` writes no file: every file that is not skipped
      raises KeyError('') in `parse_ensemble`. */
  lemma ProcessNoTag(s: Setup, iniPath: string, cfgI: int, cfgF: int, cfgStep: int, tasks: seq<string>, numVecs: seq<int>, fs: set<string>)
    requires TSources(s.yaml).Ok? && "ens_short" !in s.yaml
    ensures Process(s, iniPath, cfgI, cfgF, cfgStep, tasks, numVecs, fs).writes == []
  {
    var r := RunnerOf(s, iniPath);
    if PyRange(cfgI, cfgF, cfgStep).Ok? {
      var jobs := Jobs(PyRange(cfgI, cfgF, cfgStep).value, RunObjects(tasks), NvecValues(numVecs));
      forall k | 0 <= k < |jobs|
        ensures r.locate(jobs[k]).Ok? && r.render(jobs[k]) == Err(KeyError(""))
      {
        RunnerOfJob(s, iniPath, jobs[k]);
        RenderDataNoTag(s.yaml, s.fields(ClassOf(jobs[k].obj)), jobs[k].cfg, jobs[k].nvec);
      }
      RunJobsNoRender(r, jobs, fs, KeyError(""));
    }
  }

  /** The five perambulator job scripts of one config id and nvec are one file, and so are the
      eric input and the `peram_charm_mg` input: without overwriting only the first of each
      is written (ProcessWritesFresh). */
  lemma SharedPaths(s: Setup, iniPath: string, cfg: int, a: ScriptKind, b: ScriptKind, nvec: Option<int>)
    requires a != ChromaEigs && a != ChromaMeson && a != ChromaDisco
    requires b != ChromaEigs && b != ChromaMeson && b != ChromaDisco
    ensures RunnerOf(s, iniPath).locate(Job(cfg, Script(a), nvec)) == RunnerOf(s, iniPath).locate(Job(cfg, Script(b), nvec))
    ensures RunnerOf(s, iniPath).locate(Job(cfg, Input(PeramCharmMgEric), nvec)) ==
            RunnerOf(s, iniPath).locate(Job(cfg, Input(PeramCharmMg), nvec))
  {
    RunnerOfJob(s, iniPath, Job(cfg, Script(a), nvec));
    RunnerOfJob(s, iniPath, Job(cfg, Script(b), nvec));
    RunnerOfJob(s, iniPath, Job(cfg, Input(PeramCharmMgEric), nvec));
    RunnerOfJob(s, iniPath, Job(cfg, Input(PeramCharmMg), nvec));
  }
}
