/** The task loop of `process_yaml_file` in create_tasks_ens.py: each requested task adds
    its run objects, and a `peram_<inverter>_<flavor>` task first checks its name and then
    writes the flavor's settings into the template data, so that later peram tasks
    overwrite earlier ones. */
module UnifiedTasks {
  import opened Py
  import opened JobData

  /** The inverters a peram task may name. */
  const Inverters: seq<string> := ["mg", "clover"]

  /** The sub-directories of `data_path` the script creates before the task loop. */
  const AdditionalDirs: seq<string> :=
    ["eigs_sdb", "perams_sdb", "meson_sdb", "meson2_sdb", "chroma_out", "perams_charm_sdb", "perams_strange_sdb"]

  /** The keys a peram task writes into the template data. */
  const PeramKeys: set<string> := {"mass_label", "quark_mass", "output_sdb_path", "inverter_type", "flavor"}

  /** `dataMap.get(key)`: None for a missing key. */
  function DictGet(data: map<string, Value>, key: string): (v: Value)
    ensures key in data ==> v == data[key]
    ensures key !in data ==> v == PyNone
  {
    if key in data then data[key] else PyNone
  }

  /** The flavor's entry of the `flavor_config` dict display, or the ValueError for a flavor
      without one. `light` is the value the display already read for the light quark. */
  function FlavorConfig(flavor: string, light: Value, labels: MassLabels, dataPath: string): (r: Result<map<string, Value>>)
    ensures r.Err? <==> !KnownFlavor(flavor)
    ensures r.Err? ==> r.error == ValueError("Invalid flavor: " + flavor)
    ensures r.Ok? ==> r.value.Keys == {"mass_label", "quark_mass", "output_sdb_path"}
    ensures r.Ok? ==> r.value["mass_label"] == Str(flavor)
  {
    if flavor == "light" then
      Ok(map["mass_label" := Str("light"), "quark_mass" := light, "output_sdb_path" := Str(dataPath + "/perams_sdb")])
    else if flavor == "strange" then
      Ok(map["mass_label" := Str("strange"), "quark_mass" := labels.strange,
             "output_sdb_path" := Str(dataPath + "/perams_strange_sdb")])
    else if flavor == "charm" then
      Ok(map["mass_label" := Str("charm"), "quark_mass" := labels.charm,
             "output_sdb_path" := Str(dataPath + "/perams_charm_sdb")])
    else Err(ValueError("Invalid flavor: " + flavor))
  }

  /** The inverter and the lower-cased flavor a peram task names, or the ValueError its
      name raises: a name that is not three `_`-fields, then an unknown inverter. */
  function PeramName(task: string): (r: Result<(string, string)>)
    ensures var parts := Split(task, '_');
      (r.Ok? <==> |parts| == 3 && parts[1] in Inverters) &&
      (r.Ok? ==> r.value == (parts[1], Lower(parts[2])))
  {
    var parts := Split(task, '_');
    if |parts| != 3 then Err(ValueError("Invalid peram task: " + task + ". Use peram_mg_light, peram_clover_charm, etc."))
    else if parts[1] !in Inverters then Err(ValueError("Invalid inverter: " + parts[1]))
    else Ok((parts[1], Lower(parts[2])))
  }

  /** The flavors with settings. */
  predicate KnownFlavor(flavor: string)
  {
    flavor == "light" || flavor == "strange" || flavor == "charm"
  }

  /** The three mass labels the flavor settings read: the light one with `dataMap[...]`,
      the other two with `dataMap.get(...)`. */
  datatype MassLabels = MassLabels(light: Result<Value>, strange: Value, charm: Value)

  function Labels(data: map<string, Value>): (l: MassLabels)
    ensures l.light == Lookup(data, "prop_mass_light_label")
    ensures l.strange == DictGet(data, "prop_mass_strange_label") && l.charm == DictGet(data, "prop_mass_charm_label")
  {
    MassLabels(Lookup(data, "prop_mass_light_label"), DictGet(data, "prop_mass_strange_label"), DictGet(data, "prop_mass_charm_label"))
  }

  /** What one peram task writes into the template data, or the exception it raises: a bad
      name, then a missing light-quark mass label, then an unknown flavor. As written
      (`asWritten`), the dict display reads the light-quark label whatever the flavor; as
      the `.get` of the other two flavors means it, only the light flavor needs it. */
  function PeramUpdate(task: string, dataPath: string, asWritten: bool, data: map<string, Value>): (r: Result<map<string, Value>>)
  {
    PeramSettings(task, dataPath, asWritten, Labels(data))
  }

  function PeramSettings(task: string, dataPath: string, asWritten: bool, labels: MassLabels): (r: Result<map<string, Value>>)
  {
    var (inverter, flavor) :- PeramName(task);
    var light :- if asWritten || flavor == "light" then labels.light else Ok(PyNone);
    var config :- FlavorConfig(flavor, light, labels, dataPath);
    Ok(config["inverter_type" := Str(inverter)]["flavor" := Str(flavor)])
  }

  /** A peram task succeeds exactly when its name is `<x>_<inverter>_<flavor>` with a known
      inverter and, after lower-casing, a known flavor, and the light-quark mass label is
      present; as written every flavor needs that label, as meant only `light`. */
  lemma PeramUpdateFails(task: string, dataPath: string, asWritten: bool, data: map<string, Value>)
    ensures PeramUpdate(task, dataPath, asWritten, data).Ok? <==>
      PeramName(task).Ok? && KnownFlavor(PeramName(task).value.1) &&
      ("prop_mass_light_label" in data || (!asWritten && PeramName(task).value.1 != "light"))
  {
  }

  /** A peram task that succeeds sets the five peram keys: the inverter and flavor it names,
      the flavor as the mass label, and the flavor's output directory under `data_path`. */
  lemma PeramUpdateSets(task: string, dataPath: string, asWritten: bool, data: map<string, Value>)
    requires PeramUpdate(task, dataPath, asWritten, data).Ok?
    ensures var r := PeramUpdate(task, dataPath, asWritten, data).value; var (inverter, flavor) := PeramName(task).value;
      r.Keys == PeramKeys && KnownFlavor(flavor) &&
      r["inverter_type"] == Str(inverter) && r["flavor"] == Str(flavor) && r["mass_label"] == Str(flavor) &&
      r["output_sdb_path"] == Str(dataPath + "/" + SdbDir(flavor))
  {
    var (inverter, flavor) := PeramName(task).value;
    SdbPaths(dataPath, flavor, if asWritten || flavor == "light" then data["prop_mass_light_label"] else PyNone, Labels(data));
  }

  /** The output directory of a flavor's perambulators. */
  function SdbDir(flavor: string): (d: string)
    requires KnownFlavor(flavor)
    ensures d in AdditionalDirs
  {
    if flavor == "light" then "perams_sdb" else if flavor == "strange" then "perams_strange_sdb" else "perams_charm_sdb"
  }

  lemma SdbPaths(dataPath: string, flavor: string, light: Value, labels: MassLabels)
    requires KnownFlavor(flavor)
    ensures FlavorConfig(flavor, light, labels, dataPath).Ok?
    ensures FlavorConfig(flavor, light, labels, dataPath).value["output_sdb_path"] == Str(dataPath + "/" + SdbDir(flavor))
  {
    assert dataPath + "/perams_sdb" == dataPath + "/" + "perams_sdb";
    assert dataPath + "/perams_strange_sdb" == dataPath + "/" + "perams_strange_sdb";
    assert dataPath + "/perams_charm_sdb" == dataPath + "/" + "perams_charm_sdb";
  }

  /** The strange and charm quark masses fall back to None when their labels are missing. */
  lemma QuarkMassFallback(task: string, dataPath: string, asWritten: bool, data: map<string, Value>)
    requires PeramUpdate(task, dataPath, asWritten, data).Ok?
    ensures var flavor := PeramName(task).value.1; var q := PeramUpdate(task, dataPath, asWritten, data).value["quark_mass"];
      (flavor == "light" ==> "prop_mass_light_label" in data && q == data["prop_mass_light_label"]) &&
      (flavor == "strange" ==> q == DictGet(data, "prop_mass_strange_label")) &&
      (flavor == "charm" ==> q == DictGet(data, "prop_mass_charm_label"))
  {
  }

  /** The peram settings depend on the data only through the three mass labels. */
  lemma PeramUpdateReads(task: string, dataPath: string, asWritten: bool, d1: map<string, Value>, d2: map<string, Value>)
    requires Agrees(d1, d2)
    ensures PeramUpdate(task, dataPath, asWritten, d1) == PeramUpdate(task, dataPath, asWritten, d2)
  {
    LabelKeys();
    assert Labels(d1) == Labels(d2);
  }

  lemma LabelKeys()
    ensures "prop_mass_light_label" !in PeramKeys
    ensures "prop_mass_strange_label" !in PeramKeys
    ensures "prop_mass_charm_label" !in PeramKeys
  {
  }

  /** Two versions of the template data that differ at most in the peram keys. */
  ghost predicate Agrees(d1: map<string, Value>, d2: map<string, Value>)
  {
    forall k | k !in PeramKeys :: (k in d1 <==> k in d2) && (k in d1 ==> d1[k] == d2[k])
  }

  // --------------------------------------------------------------- the loop

  /** `dataMap` and `run_objects` as the loop leaves them after a task. */
  datatype TaskState = TaskState(data: map<string, Value>, objs: seq<string>)

  /** A task the loop hands to the peram parser. */
  predicate IsPeram(task: string)
  {
    task != "eigs" && StartsWith(task, "peram")
  }

  /** The run objects a task adds when it succeeds. Only `eigs`, `meson`, `meson2`, `disco`
      and tasks starting with `peram` add anything. */
  function TaskObjects(task: string): (objs: seq<string>)
  {
    if task == "eigs" then ["eigs", "chroma_eigs"]
    else if StartsWith(task, "peram") then ["peram_unified", "chroma_peram"]
    else if task == "meson" then ["meson", "chroma_meson"]
    else if task == "meson2" then ["meson2", "chroma_meson2"]
    else if task == "disco" then ["disco", "chroma_disco"]
    else []
  }

  /** One pass of the loop body. */
  function TaskStep(dataPath: string, asWritten: bool, st: TaskState, task: string): (r: Result<TaskState>)
    ensures r.Err? <==> IsPeram(task) && PeramUpdate(task, dataPath, asWritten, st.data).Err?
    ensures r.Ok? ==> r.value.objs == st.objs + TaskObjects(task)
    ensures r.Ok? && !IsPeram(task) ==> r.value.data == st.data
    ensures r.Ok? && IsPeram(task) ==> r.value.data == st.data + PeramUpdate(task, dataPath, asWritten, st.data).value
  {
    if task == "eigs" then Ok(TaskState(st.data, st.objs + ["eigs", "chroma_eigs"]))
    else if StartsWith(task, "peram") then
      var update :- PeramUpdate(task, dataPath, asWritten, st.data);
      Ok(TaskState(st.data + update, st.objs + ["peram_unified", "chroma_peram"]))
    else if task == "meson" then Ok(TaskState(st.data, st.objs + ["meson", "chroma_meson"]))
    else if task == "meson2" then Ok(TaskState(st.data, st.objs + ["meson2", "chroma_meson2"]))
    else if task == "disco" then Ok(TaskState(st.data, st.objs + ["disco", "chroma_disco"]))
    else Ok(st)
  }

  /** The loop over the tasks, from the data it starts with; the first exception ends it. */
  function Expand(dataPath: string, asWritten: bool, data: map<string, Value>, tasks: seq<string>): Result<TaskState>
  {
    if tasks == [] then Ok(TaskState(data, []))
    else
      var st :- Expand(dataPath, asWritten, data, tasks[..|tasks| - 1]);
      TaskStep(dataPath, asWritten, st, tasks[|tasks| - 1])
  }

  /** The loop as written. */
  method ExpandTasks(dataPath: string, asWritten: bool, data: map<string, Value>, tasks: seq<string>) returns (r: Result<TaskState>)
    ensures r == Expand(dataPath, asWritten, data, tasks)
  {
    var st := TaskState(data, []);
    var i := 0;
    while i < |tasks|
      invariant 0 <= i <= |tasks|
      invariant Expand(dataPath, asWritten, data, tasks[..i]) == Ok(st)
    {
      assert tasks[..i + 1][..i] == tasks[..i];
      var next := TaskStep(dataPath, asWritten, st, tasks[i]);
      if next.Err? {
        assert Expand(dataPath, asWritten, data, tasks[..i + 1]).Err?;
        ExpandErrStays(dataPath, asWritten, data, tasks, i + 1);
        return next;
      }
      st := next.value;
      i := i + 1;
    }
    assert tasks[..i] == tasks;
    return Ok(st);
  }

  /** An exception in the loop is the exception of the whole loop. */
  lemma {:induction false} ExpandErrStays(dataPath: string, asWritten: bool, data: map<string, Value>, tasks: seq<string>, n: nat)
    requires 0 < n <= |tasks| && Expand(dataPath, asWritten, data, tasks[..n]).Err?
    ensures Expand(dataPath, asWritten, data, tasks) == Expand(dataPath, asWritten, data, tasks[..n])
    decreases |tasks| - n
  {
    if n < |tasks| {
      assert tasks[..n + 1][..n] == tasks[..n];
      ExpandErrStays(dataPath, asWritten, data, tasks, n + 1);
    } else {
      assert tasks[..n] == tasks;
    }
  }

  // ------------------------------------------------------ what the loop does

  /** A finished loop has added each task's objects in task order, and has changed the
      template data only in the peram keys. */
  lemma {:induction false} ExpandObjects(dataPath: string, asWritten: bool, data: map<string, Value>, tasks: seq<string>)
    requires Expand(dataPath, asWritten, data, tasks).Ok?
    ensures Expand(dataPath, asWritten, data, tasks).value.objs == FlatMap(TaskObjects, tasks)
    ensures Agrees(Expand(dataPath, asWritten, data, tasks).value.data, data)
  {
    if tasks != [] {
      var pre := tasks[..|tasks| - 1];
      ExpandObjects(dataPath, asWritten, data, pre);
      var st := Expand(dataPath, asWritten, data, pre).value;
      var last := tasks[|tasks| - 1];
      if IsPeram(last) {
        PeramUpdateSets(last, dataPath, asWritten, st.data);
      }
    }
  }

  /** A task whose peram settings fail. */
  predicate Fails(dataPath: string, asWritten: bool, data: map<string, Value>, task: string)
  {
    IsPeram(task) && PeramUpdate(task, dataPath, asWritten, data).Err?
  }

  /** The loop raises exactly when one of the tasks is a failing peram task; unknown tasks
      are passed over. */
  lemma ExpandFails(dataPath: string, asWritten: bool, data: map<string, Value>, tasks: seq<string>)
    ensures Expand(dataPath, asWritten, data, tasks).Err? <==> exists i | 0 <= i < |tasks| :: Fails(dataPath, asWritten, data, tasks[i])
  {
    if Expand(dataPath, asWritten, data, tasks).Err? {
      ExpandErrWitness(dataPath, asWritten, data, tasks);
    }
    if exists i | 0 <= i < |tasks| :: Fails(dataPath, asWritten, data, tasks[i]) {
      var i :| 0 <= i < |tasks| && Fails(dataPath, asWritten, data, tasks[i]);
      ExpandFailAt(dataPath, asWritten, data, tasks, i);
    }
  }

  /** A loop that raised has a failing peram task. */
  lemma {:induction false} ExpandErrWitness(dataPath: string, asWritten: bool, data: map<string, Value>, tasks: seq<string>)
    requires Expand(dataPath, asWritten, data, tasks).Err?
    ensures exists i | 0 <= i < |tasks| :: Fails(dataPath, asWritten, data, tasks[i])
  {
    var n := |tasks| - 1;
    var pre := tasks[..n];
    ExpandLast(dataPath, asWritten, data, tasks);
    if Expand(dataPath, asWritten, data, pre).Err? {
      ExpandErrWitness(dataPath, asWritten, data, pre);
      var i :| 0 <= i < |pre| && Fails(dataPath, asWritten, data, pre[i]);
      assert pre[i] == tasks[i];
    } else {
      assert Fails(dataPath, asWritten, data, tasks[n]);
    }
  }

  /** A failing peram task makes the loop raise. */
  lemma ExpandFailAt(dataPath: string, asWritten: bool, data: map<string, Value>, tasks: seq<string>, i: nat)
    requires i < |tasks| && Fails(dataPath, asWritten, data, tasks[i])
    ensures Expand(dataPath, asWritten, data, tasks).Err?
  {
    ExpandFailAtUpTo(dataPath, asWritten, data, tasks, i, |tasks|);
    assert tasks[..|tasks|] == tasks;
  }

  /** The same, for the loop stopped after its first `m` tasks. */
  lemma {:induction false} ExpandFailAtUpTo(dataPath: string, asWritten: bool, data: map<string, Value>, tasks: seq<string>,
                                            i: nat, m: nat)
    requires i < m <= |tasks| && Fails(dataPath, asWritten, data, tasks[i])
    ensures Expand(dataPath, asWritten, data, tasks[..m]).Err?
    decreases m
  {
    if i < m - 1 {
      ExpandFailAtUpTo(dataPath, asWritten, data, tasks, i, m - 1);
      ExpandErrLast(dataPath, asWritten, data, tasks, m);
    } else if Expand(dataPath, asWritten, data, tasks[..m - 1]).Err? {
      ExpandErrLast(dataPath, asWritten, data, tasks, m);
    } else {
      ExpandFailsLast(dataPath, asWritten, data, tasks, m);
    }
  }

  /** The exception the loop raises is that of the first failing peram task. */
  lemma ExpandFirstError(dataPath: string, asWritten: bool, data: map<string, Value>, tasks: seq<string>, i: nat)
    requires i < |tasks| && Fails(dataPath, asWritten, data, tasks[i])
    requires forall j | 0 <= j < i :: !Fails(dataPath, asWritten, data, tasks[j])
    ensures Expand(dataPath, asWritten, data, tasks) == Err(PeramUpdate(tasks[i], dataPath, asWritten, data).error)
  {
    ExpandFirstErrorUpTo(dataPath, asWritten, data, tasks, i, |tasks|);
    assert tasks[..|tasks|] == tasks;
  }

  /** The same, for the loop stopped after its first `m` tasks. */
  lemma {:induction false} ExpandFirstErrorUpTo(dataPath: string, asWritten: bool, data: map<string, Value>, tasks: seq<string>,
                                                i: nat, m: nat)
    requires i < m <= |tasks| && Fails(dataPath, asWritten, data, tasks[i])
    requires forall j | 0 <= j < i :: !Fails(dataPath, asWritten, data, tasks[j])
    ensures Expand(dataPath, asWritten, data, tasks[..m]) == Err(PeramUpdate(tasks[i], dataPath, asWritten, data).error)
    decreases m
  {
    if i < m - 1 {
      ExpandFirstErrorUpTo(dataPath, asWritten, data, tasks, i, m - 1);
      ExpandErrLast(dataPath, asWritten, data, tasks, m);
    } else {
      ExpandNoFail(dataPath, asWritten, data, tasks, i);
      ExpandFailsLast(dataPath, asWritten, data, tasks, m);
    }
  }

  /** A loop that raised within its first `m - 1` tasks raised the same within its first `m`. */
  lemma ExpandErrLast(dataPath: string, asWritten: bool, data: map<string, Value>, tasks: seq<string>, m: nat)
    requires 0 < m <= |tasks| && Expand(dataPath, asWritten, data, tasks[..m - 1]).Err?
    ensures Expand(dataPath, asWritten, data, tasks[..m]) == Expand(dataPath, asWritten, data, tasks[..m - 1])
  {
    assert tasks[..m][..m - 1] == tasks[..m - 1];
  }

  /** A loop that finished its first `m - 1` tasks raises at task `m - 1` exactly as that
      task's peram settings do. */
  lemma ExpandFailsLast(dataPath: string, asWritten: bool, data: map<string, Value>, tasks: seq<string>, m: nat)
    requires 0 < m <= |tasks| && Expand(dataPath, asWritten, data, tasks[..m - 1]).Ok?
    requires Fails(dataPath, asWritten, data, tasks[m - 1])
    ensures Expand(dataPath, asWritten, data, tasks[..m]) == Err(PeramUpdate(tasks[m - 1], dataPath, asWritten, data).error)
  {
    var upto := tasks[..m];
    assert upto[..m - 1] == tasks[..m - 1] && upto[m - 1] == tasks[m - 1];
    ExpandLast(dataPath, asWritten, data, upto);
  }

  /** Without a failing peram task among the first `m`, the loop over them finishes. */
  lemma {:induction false} ExpandNoFail(dataPath: string, asWritten: bool, data: map<string, Value>, tasks: seq<string>, m: nat)
    requires m <= |tasks| && forall j | 0 <= j < m :: !Fails(dataPath, asWritten, data, tasks[j])
    ensures Expand(dataPath, asWritten, data, tasks[..m]).Ok?
  {
    if m > 0 {
      var upto := tasks[..m];
      assert upto[..m - 1] == tasks[..m - 1] && upto[m - 1] == tasks[m - 1];
      ExpandNoFail(dataPath, asWritten, data, tasks, m - 1);
      ExpandLast(dataPath, asWritten, data, upto);
    }
  }

  /** The loop over all tasks is the loop over all but the last, then the last task. */
  lemma ExpandLast(dataPath: string, asWritten: bool, data: map<string, Value>, tasks: seq<string>)
    requires tasks != []
    ensures var pre := Expand(dataPath, asWritten, data, tasks[..|tasks| - 1]); var last := tasks[|tasks| - 1];
      var r := Expand(dataPath, asWritten, data, tasks);
      (pre.Err? ==> r == pre) &&
      (pre.Ok? ==> (r.Err? <==> Fails(dataPath, asWritten, data, last))) &&
      (pre.Ok? && r.Err? ==> r.error == PeramUpdate(last, dataPath, asWritten, data).error)
  {
    var pre := Expand(dataPath, asWritten, data, tasks[..|tasks| - 1]);
    if pre.Ok? {
      ExpandObjects(dataPath, asWritten, data, tasks[..|tasks| - 1]);
      PeramUpdateReads(tasks[|tasks| - 1], dataPath, asWritten, pre.value.data, data);
    }
  }

  /** After a finished loop, the inverter and flavor in the template data are those of the
      last peram task: each peram task overwrites the ones before it. */
  lemma {:induction false} LastPeramWins(dataPath: string, asWritten: bool, data: map<string, Value>, tasks: seq<string>, j: nat)
    requires j < |tasks| && IsPeram(tasks[j]) && forall l | j < l < |tasks| :: !IsPeram(tasks[l])
    requires Expand(dataPath, asWritten, data, tasks).Ok?
    ensures var st := Expand(dataPath, asWritten, data, tasks).value;
      PeramName(tasks[j]).Ok? && "flavor" in st.data && "inverter_type" in st.data &&
      st.data["flavor"] == Str(PeramName(tasks[j]).value.1) && st.data["inverter_type"] == Str(PeramName(tasks[j]).value.0)
  {
    var n := |tasks| - 1;
    var pre := tasks[..n];
    var st := Expand(dataPath, asWritten, data, pre).value;
    if j == n {
      PeramUpdateSets(tasks[j], dataPath, asWritten, st.data);
    } else {
      assert pre[j] == tasks[j];
      LastPeramWins(dataPath, asWritten, data, pre, j);
    }
  }

  /** Without a peram task the loop leaves the template data as it found it. */
  lemma {:induction false} NoPeramKeepsData(dataPath: string, asWritten: bool, data: map<string, Value>, tasks: seq<string>)
    requires forall i | 0 <= i < |tasks| :: !IsPeram(tasks[i])
    ensures Expand(dataPath, asWritten, data, tasks).Ok? && Expand(dataPath, asWritten, data, tasks).value.data == data
  {
    if tasks != [] {
      var pre := tasks[..|tasks| - 1];
      assert forall i | 0 <= i < |pre| :: pre[i] == tasks[i];
      NoPeramKeepsData(dataPath, asWritten, data, pre);
    }
  }

  /** A peram object is run only after a peram task, which sets the inverter and the flavor. */
  lemma PeramObjectsHaveKeys(dataPath: string, asWritten: bool, data: map<string, Value>, tasks: seq<string>)
    requires Expand(dataPath, asWritten, data, tasks).Ok?
    requires exists i | 0 <= i < |tasks| :: IsPeram(tasks[i])
    ensures var st := Expand(dataPath, asWritten, data, tasks).value; "flavor" in st.data && "inverter_type" in st.data
  {
    LastPeramWins(dataPath, asWritten, data, tasks, LastPeram(tasks));
  }

  /** The position of the last peram task. */
  function LastPeram(tasks: seq<string>): (j: nat)
    requires exists i | 0 <= i < |tasks| :: IsPeram(tasks[i])
    ensures j < |tasks| && IsPeram(tasks[j]) && forall l | j < l < |tasks| :: !IsPeram(tasks[l])
  {
    var n := |tasks| - 1;
    if IsPeram(tasks[n]) then n
    else
      var i :| 0 <= i < |tasks| && IsPeram(tasks[i]);
      assert tasks[..n][i] == tasks[i];
      var j := LastPeram(tasks[..n]);
      assert forall l | j < l < n :: tasks[..n][l] == tasks[l];
      j
  }

  /** The peram objects come from peram tasks only. */
  lemma PeramObjectsFromPeramTasks(tasks: seq<string>)
    requires "peram_unified" in FlatMap(TaskObjects, tasks) || "chroma_peram" in FlatMap(TaskObjects, tasks)
    ensures exists i | 0 <= i < |tasks| :: IsPeram(tasks[i])
  {
    FlatMapMembers(TaskObjects, tasks, "peram_unified");
    FlatMapMembers(TaskObjects, tasks, "chroma_peram");
    var i :| 0 <= i < |tasks| && ("peram_unified" in TaskObjects(tasks[i]) || "chroma_peram" in TaskObjects(tasks[i]));
    PeramObjectsOf(tasks[i]);
  }

  /** The tasks that add the peram objects are the peram tasks. */
  lemma PeramObjectsOf(task: string)
    ensures ("peram_unified" in TaskObjects(task) || "chroma_peram" in TaskObjects(task)) <==> IsPeram(task)
  {
    if task == "eigs" {
      assert TaskObjects(task) == ["eigs", "chroma_eigs"];
    } else if StartsWith(task, "peram") {
    } else if task == "meson" {
      assert TaskObjects(task) == ["meson", "chroma_meson"];
    } else if task == "meson2" {
      assert TaskObjects(task) == ["meson2", "chroma_meson2"];
    } else if task == "disco" {
      assert TaskObjects(task) == ["disco", "chroma_disco"];
    }
  }

  // ------------------------------------------------- the light-quark label

  /** `peram_mg_strange` names the multigrid inverter and the strange flavor. */
  lemma StrangeName()
    ensures PeramName("peram_mg_strange") == Ok(("mg", "strange"))
  {
    StrangeParts();
    LowerStrange();
  }

  lemma StrangeParts()
    ensures Split("peram_mg_strange", '_') == ["peram", "mg", "strange"]
  {
    var a, b, c := "peram", "mg", "strange";
    assert '_' !in a && '_' !in b && '_' !in c;
    SplitOf3(a, b, c);
    StrangeText();
  }

  lemma StrangeText()
    ensures "peram" + "_" + "mg" + "_" + "strange" == "peram_mg_strange"
  {
  }

  lemma LowerStrange()
    ensures Lower("strange") == "strange"
  {
    LowerOfLower("strange");
  }

  lemma SplitOf3(a: string, b: string, c: string)
    requires '_' !in a && '_' !in b && '_' !in c
    ensures Split(a + "_" + b + "_" + c, '_') == [a, b, c]
  {
    var bc := b + ['_'] + c;
    SplitOne(c);
    SplitFirst(b, '_', c);
    SplitFirst(a, '_', bc);
    Underscores(a, b, c);
  }

  lemma SplitOne(c: string)
    requires '_' !in c
    ensures Split(c, '_') == [c]
  {
  }

  lemma Underscores(a: string, b: string, c: string)
    ensures a + "_" + b + "_" + c == a + ['_'] + (b + ['_'] + c)
  {
  }

  lemma LowerOfLower(s: string)
    requires forall i | 0 <= i < |s| :: !('A' <= s[i] <= 'Z')
    ensures Lower(s) == s
  {
  }

  /** As written, a strange-quark task on a YAML document without a light-quark mass label
      stops the generator with KeyError; as meant, it runs with the strange label, or None. */
  lemma StrangeNeedsLightLabel(task: string, dataPath: string, data: map<string, Value>)
    requires PeramName(task).Ok? && PeramName(task).value.1 == "strange"
    requires "prop_mass_light_label" !in data
    ensures PeramUpdate(task, dataPath, true, data) == Err(KeyError("prop_mass_light_label"))
    ensures PeramUpdate(task, dataPath, false, data).Ok?
    ensures PeramUpdate(task, dataPath, false, data).value["quark_mass"] == DictGet(data, "prop_mass_strange_label")
  {
  }

  /** `peram_mg_strange` is such a task. */
  lemma StrangeTaskNeedsLightLabel(dataPath: string, data: map<string, Value>)
    requires "prop_mass_light_label" !in data
    ensures PeramUpdate("peram_mg_strange", dataPath, true, data) == Err(KeyError("prop_mass_light_label"))
    ensures PeramUpdate("peram_mg_strange", dataPath, false, data).Ok?
  {
    StrangeName();
    StrangeNeedsLightLabel("peram_mg_strange", dataPath, data);
  }

  /** As meant, each flavor needs its own label only: a light-quark task still raises
      KeyError without the light label, and the strange and charm tasks never do. */
  lemma IntendedLabels(task: string, dataPath: string, data: map<string, Value>)
    requires PeramName(task).Ok? && KnownFlavor(PeramName(task).value.1)
    ensures PeramUpdate(task, dataPath, false, data).Err? <==>
      PeramName(task).value.1 == "light" && "prop_mass_light_label" !in data
    ensures PeramUpdate(task, dataPath, false, data).Err? ==>
      PeramUpdate(task, dataPath, false, data).error == KeyError("prop_mass_light_label")
  {
  }
}
