/** The objects create-jureca.py runs for the listed tasks (`task_map`), the directory and
    template of each (`subdir_map`, `TaskHandler.templates`), and the output file of an
    object for a config id. */
module JurecaObjects {
  import opened Py

  // ------------------------------------------------------------ the objects

  /** The eight tasks `task_map` knows. */
  datatype Kind = Eigs | PeramMg | PeramClover | PeramStrangeClover | PeramCharmMg | PeramStrangeMg | Meson | Disco

  /** A run object: the input file of a task, or its chroma script. */
  datatype Obj = Input(kind: Kind) | Script(kind: Kind)

  /** The key of a task in `task_map`. */
  function KindName(k: Kind): string
  {
    match k
    case Eigs => "eigs"
    case PeramMg => "peram_mg"
    case PeramClover => "peram_clover"
    case PeramStrangeClover => "peram_strange_clover"
    case PeramCharmMg => "peram_charm_mg"
    case PeramStrangeMg => "peram_strange_mg"
    case Meson => "meson"
    case Disco => "disco"
  }

  /** The name of an object: the task's name for its input file, `chroma_` and the task's
      name for its script (the two entries of `task_map[task]`). */
  function ObjName(o: Obj): string
  {
    match o
    case Input(k) => KindName(k)
    case Script(k) => "chroma_" + KindName(k)
  }

  /** The keys of `task_map`, in the order the dict lists them. */
  const Kinds: seq<Kind> := [Eigs, PeramMg, PeramClover, PeramStrangeClover, PeramCharmMg, PeramStrangeMg, Meson, Disco]

  /** The first of `ks` whose name is `task`. */
  function FindKind(task: string, ks: seq<Kind>): (r: Option<Kind>)
    ensures r.Some? ==> r.value in ks && KindName(r.value) == task
    ensures r.None? ==> forall k | k in ks :: KindName(k) != task
  {
    if ks == [] then None
    else if KindName(ks[0]) == task then Some(ks[0])
    else FindKind(task, ks[1..])
  }

  /** Looking a task up among the keys of `task_map`. */
  function TaskKind(task: string): (r: Option<Kind>)
    ensures r.Some? ==> KindName(r.value) == task
  {
    FindKind(task, Kinds)
  }

  /** No two tasks share a name. */
  lemma KindNameInjective(k1: Kind, k2: Kind)
    requires KindName(k1) == KindName(k2)
    ensures k1 == k2
  {
    var n1, n2 := KindName(k1), KindName(k2);
    assert |n1| == |n2| && n1[0] == n2[0] && n1[|n1| - 1] == n2[|n2| - 1];
  }

  /** Every task's name is found, as that task. */
  lemma TaskKindName(k: Kind)
    ensures TaskKind(KindName(k)) == Some(k)
  {
    assert k in Kinds;
    var r := TaskKind(KindName(k));
    KindNameInjective(r.value, k);
  }

  /** A task is in `task_map` exactly when it is one of the eight names. */
  lemma TaskKindDomain(task: string)
    ensures TaskKind(task).Some? <==> exists k: Kind :: KindName(k) == task
  {
    if exists k: Kind :: KindName(k) == task {
      var k: Kind :| KindName(k) == task;
      TaskKindName(k);
    }
  }

  /** A task's name is non-empty, has no '/' and does not start with `chroma_`. */
  lemma KindNameShape(k: Kind)
    ensures |KindName(k)| >= 1 && SlashFree(KindName(k)) && !StartsWith(KindName(k), "chroma_")
  {
    assert KindName(k)[0] != 'c';
  }

  /** `task_map.get(task, [])`. */
  function TaskObjects(task: string): seq<string>
  {
    match TaskKind(task)
    case None => []
    case Some(k) => [ObjName(Input(k)), ObjName(Script(k))]
  }

  /** A task of the map runs itself and its chroma script; any other task runs nothing. */
  lemma TaskObjectsRule(task: string)
    ensures TaskKind(task).Some? ==> TaskObjects(task) == [task, "chroma_" + task]
    ensures TaskKind(task).None? ==> TaskObjects(task) == []
  {
  }

  /** `list(dict.fromkeys(run_objects))` after extending with every listed task. */
  function RunObjects(tasks: seq<string>): (objs: seq<string>)
    ensures NoDups(objs)
  {
    Dedup(FlatMap(TaskObjects, tasks))
  }

  /** The run objects are exactly the listed tasks of the map and their chroma scripts. */
  lemma RunObjectsMembers(tasks: seq<string>, obj: string)
    ensures obj in RunObjects(tasks) <==>
      exists i | 0 <= i < |tasks| :: TaskKind(tasks[i]).Some? && (obj == tasks[i] || obj == "chroma_" + tasks[i])
  {
    FlatMapMembers(TaskObjects, tasks, obj);
    forall i | 0 <= i < |tasks|
      ensures obj in TaskObjects(tasks[i]) <==> TaskKind(tasks[i]).Some? && (obj == tasks[i] || obj == "chroma_" + tasks[i])
    {
      TaskObjectsRule(tasks[i]);
    }
  }

  /** The object a name stands for among the sixteen keys of `subdir_map` and of the
      templates: a task's name, or `chroma_` and a task's name. */
  function ObjOf(name: string): (r: Option<Obj>)
    ensures r.Some? ==> ObjName(r.value) == name
  {
    if StartsWith(name, "chroma_") then
      match TaskKind(name[7..])
      case None => None
      case Some(k) => assert name == "chroma_" + name[7..]; Some(Script(k))
    else
      match TaskKind(name)
      case None => None
      case Some(k) => Some(Input(k))
  }

  /** Every object's name stands for that object: no two objects share a name. */
  lemma ObjOfName(o: Obj)
    ensures ObjOf(ObjName(o)) == Some(o)
  {
    var k := o.kind;
    KindNameShape(k);
    TaskKindName(k);
    if o.Script? {
      assert ObjName(o)[7..] == KindName(k);
    }
  }

  /** The names `ObjOf` knows are exactly the objects' names. */
  lemma ObjOfDomain(name: string)
    ensures ObjOf(name).Some? <==> exists o: Obj :: ObjName(o) == name
  {
    if exists o: Obj :: ObjName(o) == name {
      var o: Obj :| ObjName(o) == name;
      ObjOfName(o);
    }
  }

  /** The directory `subdir_map` gives a task's input file and its script. */
  function KindDir(k: Kind): string
  {
    match k
    case Eigs => "ini-eigs"
    case PeramMg => "ini-perams"
    case PeramClover => "ini-perams-clover"
    case PeramStrangeClover => "ini-perams-strange"
    case PeramCharmMg => "ini-perams-charm"
    case PeramStrangeMg => "ini-perams-strange"
    case Meson => "ini-meson"
    case Disco => "ini-disco"
  }

  /** `subdir_map.get(obj, "ini-other")`. */
  function Subdir(obj: string): string
  {
    match ObjOf(obj)
    case None => "ini-other"
    case Some(o) => KindDir(o.kind)
  }

  /** A chroma script goes in the directory of its input file, and every object of the map
      has a directory of its own kind, not the default. */
  lemma SubdirRule(k: Kind)
    ensures Subdir(ObjName(Script(k))) == Subdir(ObjName(Input(k))) == KindDir(k) != "ini-other"
  {
    ObjOfName(Script(k));
    ObjOfName(Input(k));
  }

  /** `TaskHandler.templates`: the template file of each object. */
  function Template(o: Obj): string
  {
    match o
    case Input(Eigs) => "eigs.jinja.xml"
    case Input(PeramMg) => "peram_multigrid.jinja.xml"
    case Input(PeramClover) => "peram_clover.jinja.xml"
    case Input(PeramStrangeClover) => "peram_strange_clover.jinja.xml"
    case Input(PeramCharmMg) => "peram_charm_multigrid.jinja.xml"
    case Input(PeramStrangeMg) => "peram_strange_multigrid.jinja.xml"
    case Input(Meson) => "meson.jinja.xml"
    case Input(Disco) => "disco.jinja.xml"
    case Script(Eigs) => "eigs.sh.j2"
    case Script(PeramMg) => "peram_jureca.sh.j2"
    case Script(PeramClover) => "peram_clover.sh.j2"
    case Script(PeramCharmMg) => "peram_charm_mg.sh.j2"
    case Script(PeramStrangeMg) => "peram_strange_mg.sh.j2"
    case Script(PeramStrangeClover) => "peram_strange_clover.sh.j2"
    case Script(Meson) => "meson_jureca.sh.j2"
    case Script(Disco) => "disco.sh.j2"
  }

  /** An object `task_map` can produce is one of the sixteen, with no '/' in its name. */
  lemma TaskObjectsCovered(task: string, j: nat)
    requires j < |TaskObjects(task)|
    ensures ObjOf(TaskObjects(task)[j]).Some? && SlashFree(TaskObjects(task)[j])
  {
    var k := TaskKind(task).value;
    var o := if j == 0 then Input(k) else Script(k);
    assert TaskObjects(task)[j] == ObjName(o);
    ObjOfName(o);
    KindNameShape(k);
    assert forall ch | ch in "chroma_" + KindName(k) :: ch in "chroma_" || ch in KindName(k);
  }

  /** Every run object has a template and a directory, and no '/' in its name. */
  lemma RunObjectsCovered(tasks: seq<string>, k: nat)
    requires k < |RunObjects(tasks)|
    ensures ObjOf(RunObjects(tasks)[k]).Some? && SlashFree(RunObjects(tasks)[k])
  {
    var obj := RunObjects(tasks)[k];
    FlatMapMembers(TaskObjects, tasks, obj);
    var i :| 0 <= i < |tasks| && obj in TaskObjects(tasks[i]);
    var j :| 0 <= j < |TaskObjects(tasks[i])| && TaskObjects(tasks[i])[j] == obj;
    TaskObjectsCovered(tasks[i], j);
  }

  /** Every run object is one of the sixteen, with no '/' in its name. */
  lemma RunObjectsWell(tasks: seq<string>)
    ensures forall obj | obj in RunObjects(tasks) :: ObjOf(obj).Some? && SlashFree(obj)
  {
    var objs := RunObjects(tasks);
    forall obj | obj in objs
      ensures ObjOf(obj).Some? && SlashFree(obj)
    {
      var k :| 0 <= k < |objs| && objs[k] == obj;
      RunObjectsCovered(tasks, k);
    }
  }

  // ------------------------------------------------------------------ paths

  /** The name part of the file: a chroma script drops the text up to the first '_'
      (`obj.split("_", 1)[1]`), an input file keeps its name. */
  function BaseName(obj: string): string
  {
    if StartsWith(obj, "chroma_") then
      assert obj[6] == '_';
      obj[IndexOf(obj, '_') + 1..]
    else obj
  }

  function Ext(obj: string): string
  {
    if StartsWith(obj, "chroma_") then ".sh" else ".ini.xml"
  }

  /** `f"{name}_cfg{cfg_str}{ext}"`; the id is `str(cfg_id)`, not padded. */
  function FileName(obj: string, cfg: int): string
  {
    BaseName(obj) + ("_cfg" + (IntToString(cfg) + Ext(obj)))
  }

  /** The name of a chroma script is its task's name with `.sh`, that of an input file its
      own name with `.ini.xml`. */
  lemma FileNameRule(task: string, cfg: int)
    ensures FileName("chroma_" + task, cfg) == task + ("_cfg" + (IntToString(cfg) + ".sh"))
    ensures !StartsWith(task, "chroma_") ==> FileName(task, cfg) == task + ("_cfg" + (IntToString(cfg) + ".ini.xml"))
  {
    assert '_' !in "chroma";
    IndexOfAfter("chroma", '_', task);
    assert "chroma_" + task == "chroma" + ['_'] + task;
  }

  /** `run_path / subdir / f"cnfg{cfg_str}" / name`. */
  function OutFile(launch: string, obj: string, cfg: int): string
  {
    ObjPath(launch, Subdir(obj), IntToString(cfg), FileName(obj, cfg))
  }

  function ObjPath(launch: string, sub: string, id: string, file: string): string
  {
    PathJoin(PathJoin(PathJoin(launch, sub), "cnfg" + id), file)
  }

  lemma IntToStringShape(n: int)
    ensures |IntToString(n)| >= 1 && SlashFree(IntToString(n))
    ensures IsDigit(IntToString(n)[|IntToString(n)| - 1])
  {
    var s := NatToString(if n < 0 then -n else n);
    assert IsDigit(s[|s| - 1]);
    if n < 0 {
      assert IntToString(n) == "-" + s;
      assert forall j | 1 <= j < |"-" + s| :: ("-" + s)[j] == s[j - 1];
    }
  }

  /** A directory that ends in a slash-free name, joined with a slash-free name. */
  lemma JoinName(dir: string, name: string)
    requires |name| >= 1 && SlashFree(name)
    ensures PathJoin(dir, name) == dir + name || PathJoin(dir, name) == dir + "/" + name
    ensures |PathJoin(dir, name)| >= 1 && PathJoin(dir, name)[|PathJoin(dir, name)| - 1] == name[|name| - 1]
  {
  }

  /** Two (object, config) pairs share an output file only if they are the same pair: the
      config directory and the file name differ otherwise. */
  lemma OutFileInjective(launch: string, o1: string, c1: int, o2: string, c2: int)
    requires SlashFree(o1) && SlashFree(o2)
    ensures OutFile(launch, o1, c1) == OutFile(launch, o2, c2) ==> o1 == o2 && c1 == c2
  {
    if OutFile(launch, o1, c1) == OutFile(launch, o2, c2) {
      OutFileInjectiveEqual(launch, o1, c1, o2, c2);
    }
  }

  lemma OutFileInjectiveEqual(launch: string, o1: string, c1: int, o2: string, c2: int)
    requires SlashFree(o1) && SlashFree(o2)
    requires OutFile(launch, o1, c1) == OutFile(launch, o2, c2)
    ensures o1 == o2 && c1 == c2
  {
    OutFileParts(launch, o1, c1, o2, c2);
    IntToStringRoundTrip(c1);
    IntToStringRoundTrip(c2);
    FileNameInjective(o1, o2, c1);
  }

  /** Equal output files have equal id texts and equal file names. */
  lemma OutFileParts(launch: string, o1: string, c1: int, o2: string, c2: int)
    requires SlashFree(o1) && SlashFree(o2)
    requires OutFile(launch, o1, c1) == OutFile(launch, o2, c2)
    ensures IntToString(c1) == IntToString(c2) && FileName(o1, c1) == FileName(o2, c2)
  {
    var sub1, s1, f1 := Subdir(o1), IntToString(c1), FileName(o1, c1);
    var sub2, s2, f2 := Subdir(o2), IntToString(c2), FileName(o2, c2);
    assert Component(sub1) && Component(sub2) by {
      SubdirShape(o1);
      SubdirShape(o2);
    }
    assert Component(f1) && Component(f2) by {
      FileNameShape(o1, c1);
      FileNameShape(o2, c2);
    }
    assert |s1| >= 1 && SlashFree(s1) && IsDigit(s1[|s1| - 1]) by {
      IntToStringShape(c1);
    }
    assert |s2| >= 1 && SlashFree(s2) && IsDigit(s2[|s2| - 1]) by {
      IntToStringShape(c2);
    }
    JoinedParts(launch, sub1, s1, f1, sub2, s2, f2);
  }

  /** A name that is non-empty, slash-free and does not start with '/'. */
  predicate Component(name: string)
  {
    |name| >= 1 && SlashFree(name) && name[0] != '/'
  }

  /** `launch / sub / f"cnfg{id}" / file` gives back the id and the file name. */
  lemma JoinedParts(launch: string, sub1: string, s1: string, f1: string, sub2: string, s2: string, f2: string)
    requires Component(sub1) && Component(sub2) && Component(f1) && Component(f2)
    requires |s1| >= 1 && SlashFree(s1) && IsDigit(s1[|s1| - 1])
    requires |s2| >= 1 && SlashFree(s2) && IsDigit(s2[|s2| - 1])
    requires ObjPath(launch, sub1, s1, f1) == ObjPath(launch, sub2, s2, f2)
    ensures s1 == s2 && f1 == f2
  {
    var x1, x2 := PathJoin(launch, sub1), PathJoin(launch, sub2);
    JoinName(launch, sub1);
    JoinName(launch, sub2);
    var n1, n2 := "cnfg" + s1, "cnfg" + s2;
    CnfgName(s1);
    CnfgName(s2);
    JoinName(x1, n1);
    JoinName(x2, n2);
    JoinSplit(PathJoin(x1, n1), f1, PathJoin(x2, n2), f2);
    JoinSplit(x1, n1, x2, n2);
    assert s1 == n1[4..] == n2[4..] == s2;
  }

  /** Joining a component onto a directory that does not end in '/' can be undone. */
  lemma JoinSplit(d1: string, f1: string, d2: string, f2: string)
    requires Component(f1) && Component(f2)
    requires d1 != "" && d1[|d1| - 1] != '/' && d2 != "" && d2[|d2| - 1] != '/'
    requires PathJoin(d1, f1) == PathJoin(d2, f2)
    ensures d1 == d2 && f1 == f2
  {
    PathJoinName(d1, f1);
    PathJoinName(d2, f2);
    SameLastComponent(d1, f1, d2, f2);
    assert |d1| == |d2|;
    assert d1 == (d1 + "/" + f1)[..|d1|];
    assert d2 == (d2 + "/" + f2)[..|d2|];
  }

  /** The config directory's name is a component that ends in the id's last character. */
  lemma CnfgName(s: string)
    requires |s| >= 1 && SlashFree(s)
    ensures Component("cnfg" + s) && ("cnfg" + s)[|"cnfg" + s| - 1] == s[|s| - 1]
  {
    var name := "cnfg" + s;
    assert forall j | 4 <= j < |name| :: name[j] == s[j - 4];
  }

  lemma SubdirShape(obj: string)
    ensures |Subdir(obj)| >= 1 && SlashFree(Subdir(obj)) && Subdir(obj)[0] != '/'
  {
    match ObjOf(obj)
    case None =>
    case Some(o) => KindDirShape(o.kind);
  }

  lemma KindDirShape(k: Kind)
    ensures |KindDir(k)| >= 1 && SlashFree(KindDir(k)) && KindDir(k)[0] != '/'
  {
  }

  /** A file name is non-empty, slash-free and does not start with '/'. */
  lemma FileNameShape(obj: string, cfg: int)
    requires SlashFree(obj)
    ensures var f := FileName(obj, cfg); |f| >= 1 && SlashFree(f) && f[0] != '/'
  {
    IntToStringShape(cfg);
    var b := BaseName(obj);
    assert forall ch | ch in b :: ch in obj;
    SlashFreeJoin(b, "_cfg", IntToString(cfg), Ext(obj));
  }

  lemma SlashFreeJoin(a: string, b: string, c: string, d: string)
    requires SlashFree(a) && SlashFree(b) && SlashFree(c) && SlashFree(d) && |b| >= 1 && b[0] != '/'
    ensures SlashFree(a + (b + (c + d))) && (a + (b + (c + d)))[0] != '/'
  {
    var cd := c + d;
    assert SlashFree(cd) by {
      assert forall ch | ch in cd :: ch in c || ch in d;
    }
    var bcd := b + cd;
    assert SlashFree(bcd) by {
      assert forall ch | ch in bcd :: ch in b || ch in cd;
    }
    var s := a + bcd;
    assert forall ch | ch in s :: ch in a || ch in bcd;
    if a == [] {
      assert s[0] == b[0];
    } else {
      assert s[0] == a[0];
    }
  }

  /** Within one config, the file name tells the object: the extension separates chroma
      scripts from input files, and the part before `_cfg<id>` is the name. */
  lemma FileNameInjective(o1: string, o2: string, cfg: int)
    requires FileName(o1, cfg) == FileName(o2, cfg)
    ensures o1 == o2
  {
    var s := IntToString(cfg);
    var f := FileName(o1, cfg);
    var ch1, ch2 := StartsWith(o1, "chroma_"), StartsWith(o2, "chroma_");
    if ch1 != ch2 {
      LastOfExt(o1, cfg);
      LastOfExt(o2, cfg);
    } else {
      CancelSuffix(BaseName(o1), BaseName(o2), "_cfg" + (s + Ext(o1)));
      if ch1 {
        ChromaBase(o1);
        ChromaBase(o2);
      }
    }
  }

  /** The last character of a file name tells its extension. */
  lemma LastOfExt(obj: string, cfg: int)
    ensures var f := FileName(obj, cfg); |f| >= 1 && f[|f| - 1] == (if StartsWith(obj, "chroma_") then 'h' else 'l')
  {
  }

  lemma ChromaBase(obj: string)
    requires StartsWith(obj, "chroma_")
    ensures obj == "chroma_" + BaseName(obj)
  {
    assert obj[..6] == "chroma";
    assert '_' !in "chroma";
    IndexOfAfter("chroma", '_', obj[7..]);
    assert obj == "chroma" + ['_'] + obj[7..];
  }

  lemma CancelSuffix(a: string, b: string, t: string)
    requires a + t == b + t
    ensures a == b
  {
    assert a == (a + t)[..|a|] && b == (b + t)[..|b|];
  }
}
