/** The loop every job-file generator ends in: for each configuration id and each run
    object, work out the output path, skip the file when it exists and overwriting is
    off, otherwise render its template and write it. A raised exception ends the run
    with the files written so far left in place.

    The filesystem is the set of paths that exist; rendering is an oracle that may fail
    (a missing template, an undefined variable). */
module Plan {
  import opened Py

  /** A template variable: a scalar of the data, a list of strings, a list of ints, a list
      of int pairs, or a mapping of scalars (a nested block of the YAML document). */
  datatype Entry = Scalar(v: Value) | Strings(items: seq<string>) | Ints(ints: seq<int>) | Pairs(pairs: seq<(int, int)>)
                 | Mapping(m: map<string, Value>)

  /** The template engine: the rendered text for a template file and the template data, or
      the exception rendering raises. */
  type Oracle = (string, map<string, Entry>) -> Result<string>

  /** One file the run writes. */
  datatype Write = Write(path: string, obj: string, content: string)

  /** The files written, in order, and the exception that ended the run, if any. */
  datatype Outcome = Outcome(writes: seq<Write>, error: Option<PyError>)

  /** The nested `for cfg_id in ...: for obj in run_objects:` loops as one list of steps. */
  function Steps(cfgs: seq<int>, objs: seq<string>): (r: seq<(int, string)>)
    ensures |r| == |cfgs| * |objs|
  {
    if cfgs == [] then [] else Row(cfgs[0], objs) + Steps(cfgs[1..], objs)
  }

  function Row(cfg: int, objs: seq<string>): (r: seq<(int, string)>)
    ensures |r| == |objs|
    ensures forall k | 0 <= k < |objs| :: r[k] == (cfg, objs[k])
  {
    if objs == [] then [] else [(cfg, objs[0])] + Row(cfg, objs[1..])
  }

  /** Every step pairs a listed config id with a listed object. */
  lemma {:induction false} StepsMembers(cfgs: seq<int>, objs: seq<string>, k: nat)
    requires k < |Steps(cfgs, objs)|
    ensures Steps(cfgs, objs)[k].0 in cfgs && Steps(cfgs, objs)[k].1 in objs
  {
    if k >= |objs| {
      StepsMembers(cfgs[1..], objs, k - |objs|);
    }
  }

  /** Where the file of a step goes, or the exception raised while working it out. */
  type Locate = (int, string) -> Result<string>

  /** The rendered text of a step, or the exception rendering raises. */
  type Render = (int, string) -> Result<string>

  datatype StepResult = Skip | Emit(w: Write) | Fail(e: PyError)

  /** One pass of the inner loop body. */
  function Step(locate: Locate, render: Render, overwrite: bool, cfg: int, obj: string, fs: set<string>): StepResult
  {
    match locate(cfg, obj)
    case Err(e) => Fail(e)
    case Ok(path) =>
      if path in fs && !overwrite then Skip
      else match render(cfg, obj)
        case Err(e) => Fail(e)
        case Ok(text) => Emit(Write(path, obj, text))
  }

  /** The steps run in order; each write adds its path to the filesystem. */
  function Run(locate: Locate, render: Render, overwrite: bool, steps: seq<(int, string)>, fs: set<string>): Outcome
  {
    if steps == [] then Outcome([], None)
    else match Step(locate, render, overwrite, steps[0].0, steps[0].1, fs)
      case Skip => Run(locate, render, overwrite, steps[1..], fs)
      case Fail(e) => Outcome([], Some(e))
      case Emit(w) =>
        var rest := Run(locate, render, overwrite, steps[1..], fs + {w.path});
        Outcome([w] + rest.writes, rest.error)
  }

  /** The writes of the run, followed by whatever the remaining steps do. */
  function After(writes: seq<Write>, o: Outcome): Outcome
  {
    Outcome(writes + o.writes, o.error)
  }

  function Paths(ws: seq<Write>): set<string>
  {
    set w | w in ws :: w.path
  }

  /** The nested loops. `fs` is the filesystem the run starts from; the method returns the
      writes, the exception that stopped it, and the filesystem it leaves. */
  method RunLoops(locate: Locate, render: Render, overwrite: bool, cfgs: seq<int>, objs: seq<string>, fs: set<string>)
    returns (writes: seq<Write>, error: Option<PyError>, fsOut: set<string>)
    ensures Outcome(writes, error) == Run(locate, render, overwrite, Steps(cfgs, objs), fs)
    ensures fsOut == fs + Paths(writes)
  {
    writes, error, fsOut := [], None, fs;
    var i := 0;
    while i < |cfgs|
      invariant 0 <= i <= |cfgs|
      invariant fsOut == fs + Paths(writes)
      invariant Run(locate, render, overwrite, Steps(cfgs, objs), fs)
        == After(writes, Run(locate, render, overwrite, Steps(cfgs[i..], objs), fsOut))
    {
      var later := Steps(cfgs[i + 1..], objs);
      assert Steps(cfgs[i..], objs) == Row(cfgs[i], objs) + later by {
        assert cfgs[i..][1..] == cfgs[i + 1..];
      }
      ghost var before := writes;
      var ws, e, fs' := RunRow(locate, render, overwrite, cfgs[i], objs, later, fsOut);
      PathsAppend(writes, ws);
      writes, fsOut := writes + ws, fs';
      if e.Some? {
        assert Run(locate, render, overwrite, Steps(cfgs, objs), fs) == After(before, Outcome(ws, e));
        error := e;
        return;
      }
      AfterAfter(before, ws, Run(locate, render, overwrite, later, fsOut));
      i := i + 1;
    }
    assert Steps(cfgs[|cfgs|..], objs) == [];
    assert writes + [] == writes;
  }

  /** The inner loop, over the objects of one config id; `later` are the steps after it. */
  method RunRow(locate: Locate, render: Render, overwrite: bool, cfg: int, objs: seq<string>, later: seq<(int, string)>, fs: set<string>)
    returns (writes: seq<Write>, error: Option<PyError>, fsOut: set<string>)
    ensures fsOut == fs + Paths(writes)
    ensures Run(locate, render, overwrite, Row(cfg, objs) + later, fs) ==
      if error.Some? then Outcome(writes, error) else After(writes, Run(locate, render, overwrite, later, fsOut))
  {
    writes, error, fsOut := [], None, fs;
    var j := 0;
    while j < |objs|
      invariant 0 <= j <= |objs|
      invariant fsOut == fs + Paths(writes)
      invariant Run(locate, render, overwrite, Row(cfg, objs) + later, fs)
        == After(writes, Run(locate, render, overwrite, Row(cfg, objs[j..]) + later, fsOut))
    {
      var rest := Row(cfg, objs[j + 1..]) + later;
      RowNext(cfg, objs, j, later);
      RunCons(locate, render, overwrite, (cfg, objs[j]), rest, fsOut);
      match Step(locate, render, overwrite, cfg, objs[j], fsOut) {
        case Skip =>
        case Fail(e) =>
          assert writes + [] == writes;
          error := Some(e);
          return;
        case Emit(w) =>
          PathsAppend(writes, [w]);
          AfterAfter(writes, [w], Run(locate, render, overwrite, rest, fsOut + {w.path}));
          writes := writes + [w];
          fsOut := fsOut + {w.path};
      }
      j := j + 1;
    }
    assert Row(cfg, objs[j..]) + later == later by {
      assert objs[j..] == [];
    }
  }

  lemma RowNext(cfg: int, objs: seq<string>, j: nat, later: seq<(int, string)>)
    requires j < |objs|
    ensures Row(cfg, objs[j..]) + later == [(cfg, objs[j])] + (Row(cfg, objs[j + 1..]) + later)
  {
    assert objs[j..][1..] == objs[j + 1..];
  }

  lemma AfterAfter(a: seq<Write>, b: seq<Write>, o: Outcome)
    ensures After(a, After(b, o)) == After(a + b, o)
  {
    assert a + (b + o.writes) == (a + b) + o.writes;
  }

  lemma PathsAppend(a: seq<Write>, b: seq<Write>)
    ensures Paths(a + b) == Paths(a) + Paths(b)
  {
    assert forall w :: w in a + b <==> w in a || w in b;
  }

  /** Run unfolded once on a non-empty list of steps. */
  lemma RunCons(locate: Locate, render: Render, overwrite: bool, s: (int, string), rest: seq<(int, string)>, fs: set<string>)
    ensures var r := Run(locate, render, overwrite, [s] + rest, fs);
      var st := Step(locate, render, overwrite, s.0, s.1, fs);
      (st.Skip? ==> r == Run(locate, render, overwrite, rest, fs)) &&
      (st.Fail? ==> r == Outcome([], Some(st.e))) &&
      (st.Emit? ==> r == After([st.w], Run(locate, render, overwrite, rest, fs + {st.w.path})))
  {
    assert ([s] + rest)[0] == s && ([s] + rest)[1..] == rest;
  }

  // ------------------------------------------------------------ what a run promises

  /** Without overwriting, no file that existed is written, and no path is written twice:
      a later step whose path an earlier step wrote is skipped. */
  lemma {:induction false} RunFresh(locate: Locate, render: Render, steps: seq<(int, string)>, fs: set<string>)
    ensures var ws := Run(locate, render, false, steps, fs).writes;
      (forall k | 0 <= k < |ws| :: ws[k].path !in fs) &&
      (forall k, l | 0 <= k < l < |ws| :: ws[k].path != ws[l].path)
  {
    if steps != [] {
      var s := steps[0];
      match Step(locate, render, false, s.0, s.1, fs)
      case Skip =>
        RunCons(locate, render, false, s, steps[1..], fs);
        assert steps == [s] + steps[1..];
        RunFresh(locate, render, steps[1..], fs);
      case Fail(e) =>
      case Emit(w) =>
        assert w.path !in fs;
        RunCons(locate, render, false, s, steps[1..], fs);
        assert steps == [s] + steps[1..];
        RunFresh(locate, render, steps[1..], fs + {w.path});
        var ws := Run(locate, render, false, steps, fs).writes;
        var rest := Run(locate, render, false, steps[1..], fs + {w.path}).writes;
        assert ws == [w] + rest;
        assert forall k | 1 <= k < |ws| :: ws[k] == rest[k - 1];
    }
  }

  /** Every write is the file of one of the steps, at the path `locate` gives it. */
  lemma {:induction false} RunWritesLocated(locate: Locate, render: Render, overwrite: bool, steps: seq<(int, string)>, fs: set<string>, k: nat)
    requires k < |Run(locate, render, overwrite, steps, fs).writes|
    ensures var w := Run(locate, render, overwrite, steps, fs).writes[k];
      exists i | 0 <= i < |steps| :: w.obj == steps[i].1 && locate(steps[i].0, steps[i].1) == Ok(w.path)
  {
    var s := steps[0];
    var w := Run(locate, render, overwrite, steps, fs).writes[k];
    match Step(locate, render, overwrite, s.0, s.1, fs)
    case Skip =>
      RunWritesLocated(locate, render, overwrite, steps[1..], fs, k);
      var i :| 0 <= i < |steps[1..]| && w.obj == steps[1..][i].1 && locate(steps[1..][i].0, steps[1..][i].1) == Ok(w.path);
      assert steps[1..][i] == steps[i + 1];
    case Emit(w0) =>
      if k == 0 {
        assert w == w0 && steps[0] == s;
      } else {
        RunWritesLocated(locate, render, overwrite, steps[1..], fs + {w0.path}, k - 1);
        var i :| 0 <= i < |steps[1..]| && w.obj == steps[1..][i].1 && locate(steps[1..][i].0, steps[1..][i].1) == Ok(w.path);
        assert steps[1..][i] == steps[i + 1];
      }
  }

  /** With overwriting on, a run that ends without an exception wrote one file per step, in
      step order, each at its located path; so every step located and rendered. */
  lemma {:induction false} RunOverwriteAll(locate: Locate, render: Render, steps: seq<(int, string)>, fs: set<string>)
    requires Run(locate, render, true, steps, fs).error.None?
    ensures var ws := Run(locate, render, true, steps, fs).writes;
      |ws| == |steps| &&
      forall k | 0 <= k < |steps| ::
        locate(steps[k].0, steps[k].1) == Ok(ws[k].path) && render(steps[k].0, steps[k].1) == Ok(ws[k].content) &&
        ws[k].obj == steps[k].1
  {
    if steps != [] {
      var s := steps[0];
      match Step(locate, render, true, s.0, s.1, fs)
      case Emit(w) =>
        RunOverwriteAll(locate, render, steps[1..], fs + {w.path});
        var ws := Run(locate, render, true, steps, fs).writes;
        assert forall k | 1 <= k < |steps| :: steps[k] == steps[1..][k - 1];
    }
  }

  // ------------------------------------------------- runs that catch exceptions

  /** The loop of a generator that wraps rendering and writing in `try ... except
      Exception`: a step that raises writes nothing and the run goes on with the next one. */
  function RunCaught(locate: Locate, render: Render, overwrite: bool, steps: seq<(int, string)>, fs: set<string>): seq<Write>
  {
    if steps == [] then []
    else match Step(locate, render, overwrite, steps[0].0, steps[0].1, fs)
      case Skip => RunCaught(locate, render, overwrite, steps[1..], fs)
      case Fail(_) => RunCaught(locate, render, overwrite, steps[1..], fs)
      case Emit(w) => [w] + RunCaught(locate, render, overwrite, steps[1..], fs + {w.path})
  }

  /** RunCaught unfolded once on a non-empty list of steps. */
  lemma RunCaughtCons(locate: Locate, render: Render, overwrite: bool, s: (int, string), rest: seq<(int, string)>, fs: set<string>)
    ensures var r := RunCaught(locate, render, overwrite, [s] + rest, fs);
      var st := Step(locate, render, overwrite, s.0, s.1, fs);
      (!st.Emit? ==> r == RunCaught(locate, render, overwrite, rest, fs)) &&
      (st.Emit? ==> r == [st.w] + RunCaught(locate, render, overwrite, rest, fs + {st.w.path}))
  {
    assert ([s] + rest)[0] == s && ([s] + rest)[1..] == rest;
  }

  /** The nested loops with the exception caught in the inner body, counting the files
      written. */
  method RunLoopsCaught(locate: Locate, render: Render, overwrite: bool, cfgs: seq<int>, objs: seq<string>, fs: set<string>)
    returns (writes: seq<Write>, written: int, fsOut: set<string>)
    ensures writes == RunCaught(locate, render, overwrite, Steps(cfgs, objs), fs)
    ensures written == |writes|
    ensures fsOut == fs + Paths(writes)
  {
    writes, written, fsOut := [], 0, fs;
    var i := 0;
    while i < |cfgs|
      invariant 0 <= i <= |cfgs|
      invariant written == |writes| && fsOut == fs + Paths(writes)
      invariant RunCaught(locate, render, overwrite, Steps(cfgs, objs), fs)
        == writes + RunCaught(locate, render, overwrite, Steps(cfgs[i..], objs), fsOut)
    {
      var later := Steps(cfgs[i + 1..], objs);
      assert Steps(cfgs[i..], objs) == Row(cfgs[i], objs) + later by {
        assert cfgs[i..][1..] == cfgs[i + 1..];
      }
      var ws, n, fs' := RunRowCaught(locate, render, overwrite, cfgs[i], objs, later, fsOut);
      PathsAppend(writes, ws);
      AppendAssoc(writes, ws, RunCaught(locate, render, overwrite, later, fs'));
      writes, written, fsOut := writes + ws, written + n, fs';
      i := i + 1;
    }
    assert Steps(cfgs[|cfgs|..], objs) == [];
    assert writes + [] == writes;
  }

  /** The inner loop of RunLoopsCaught, over the objects of one config id. */
  method RunRowCaught(locate: Locate, render: Render, overwrite: bool, cfg: int, objs: seq<string>, later: seq<(int, string)>, fs: set<string>)
    returns (writes: seq<Write>, written: int, fsOut: set<string>)
    ensures written == |writes| && fsOut == fs + Paths(writes)
    ensures RunCaught(locate, render, overwrite, Row(cfg, objs) + later, fs)
      == writes + RunCaught(locate, render, overwrite, later, fsOut)
  {
    writes, written, fsOut := [], 0, fs;
    var j := 0;
    while j < |objs|
      invariant 0 <= j <= |objs|
      invariant written == |writes| && fsOut == fs + Paths(writes)
      invariant RunCaught(locate, render, overwrite, Row(cfg, objs) + later, fs)
        == writes + RunCaught(locate, render, overwrite, Row(cfg, objs[j..]) + later, fsOut)
    {
      var rest := Row(cfg, objs[j + 1..]) + later;
      RowNext(cfg, objs, j, later);
      RunCaughtCons(locate, render, overwrite, (cfg, objs[j]), rest, fsOut);
      match Step(locate, render, overwrite, cfg, objs[j], fsOut) {
        case Skip =>
        case Fail(_) =>
        case Emit(w) =>
          PathsAppend(writes, [w]);
          AppendAssoc(writes, [w], RunCaught(locate, render, overwrite, rest, fsOut + {w.path}));
          writes := writes + [w];
          written := written + 1;
          fsOut := fsOut + {w.path};
      }
      j := j + 1;
    }
    assert Row(cfg, objs[j..]) + later == later by {
      assert objs[j..] == [];
    }
  }

  lemma AppendAssoc(a: seq<Write>, b: seq<Write>, c: seq<Write>)
    ensures a + (b + c) == (a + b) + c
  {
  }

  /** Catching the exception changes nothing before the first one: the run that stops at it
      wrote a prefix of what the catching run writes, and the same files when none is
      raised. */
  lemma {:induction false} RunCaughtExtends(locate: Locate, render: Render, overwrite: bool, steps: seq<(int, string)>, fs: set<string>)
    ensures Run(locate, render, overwrite, steps, fs).writes <= RunCaught(locate, render, overwrite, steps, fs)
    ensures Run(locate, render, overwrite, steps, fs).error.None? ==>
      Run(locate, render, overwrite, steps, fs).writes == RunCaught(locate, render, overwrite, steps, fs)
  {
    if steps != [] {
      var s := steps[0];
      match Step(locate, render, overwrite, s.0, s.1, fs)
      case Skip =>
        RunCaughtExtends(locate, render, overwrite, steps[1..], fs);
      case Fail(_) =>
      case Emit(w) =>
        RunCaughtExtends(locate, render, overwrite, steps[1..], fs + {w.path});
    }
  }

  /** Without overwriting, no file that existed is written and no path is written twice. */
  lemma {:induction false} RunCaughtFresh(locate: Locate, render: Render, steps: seq<(int, string)>, fs: set<string>)
    ensures var ws := RunCaught(locate, render, false, steps, fs);
      (forall k | 0 <= k < |ws| :: ws[k].path !in fs) &&
      (forall k, l | 0 <= k < l < |ws| :: ws[k].path != ws[l].path)
  {
    if steps != [] {
      var s := steps[0];
      match Step(locate, render, false, s.0, s.1, fs)
      case Skip =>
        RunCaughtCons(locate, render, false, s, steps[1..], fs);
        assert steps == [s] + steps[1..];
        RunCaughtFresh(locate, render, steps[1..], fs);
      case Fail(_) =>
        RunCaughtCons(locate, render, false, s, steps[1..], fs);
        assert steps == [s] + steps[1..];
        RunCaughtFresh(locate, render, steps[1..], fs);
      case Emit(w) =>
        assert w.path !in fs;
        RunCaughtCons(locate, render, false, s, steps[1..], fs);
        assert steps == [s] + steps[1..];
        RunCaughtFresh(locate, render, steps[1..], fs + {w.path});
        var ws := RunCaught(locate, render, false, steps, fs);
        var rest := RunCaught(locate, render, false, steps[1..], fs + {w.path});
        assert ws == [w] + rest;
        assert forall k | 1 <= k < |ws| :: ws[k] == rest[k - 1];
    }
  }

  /** At most one file per step; with overwriting on and every step located and rendered,
      exactly one, in step order, at its located path. */
  lemma {:induction false} RunCaughtCount(locate: Locate, render: Render, overwrite: bool, steps: seq<(int, string)>, fs: set<string>)
    ensures |RunCaught(locate, render, overwrite, steps, fs)| <= |steps|
    ensures overwrite && (forall k | 0 <= k < |steps| :: locate(steps[k].0, steps[k].1).Ok? && render(steps[k].0, steps[k].1).Ok?) ==>
      var ws := RunCaught(locate, render, overwrite, steps, fs);
      |ws| == |steps| &&
      forall k | 0 <= k < |steps| ::
        locate(steps[k].0, steps[k].1) == Ok(ws[k].path) && render(steps[k].0, steps[k].1) == Ok(ws[k].content)
  {
    if steps != [] {
      var s := steps[0];
      assert forall k | 1 <= k < |steps| :: steps[k] == steps[1..][k - 1];
      match Step(locate, render, overwrite, s.0, s.1, fs)
      case Skip =>
        RunCaughtCount(locate, render, overwrite, steps[1..], fs);
      case Fail(_) =>
        RunCaughtCount(locate, render, overwrite, steps[1..], fs);
      case Emit(w) =>
        RunCaughtCount(locate, render, overwrite, steps[1..], fs + {w.path});
    }
  }

  /** Every write of the catching run is the file of one of the steps, at its located path. */
  lemma {:induction false} RunCaughtLocated(locate: Locate, render: Render, overwrite: bool, steps: seq<(int, string)>, fs: set<string>, k: nat)
    requires k < |RunCaught(locate, render, overwrite, steps, fs)|
    ensures var w := RunCaught(locate, render, overwrite, steps, fs)[k];
      exists i | 0 <= i < |steps| :: w.obj == steps[i].1 && locate(steps[i].0, steps[i].1) == Ok(w.path)
  {
    var s := steps[0];
    var w := RunCaught(locate, render, overwrite, steps, fs)[k];
    var st := Step(locate, render, overwrite, s.0, s.1, fs);
    RunCaughtCons(locate, render, overwrite, s, steps[1..], fs);
    assert steps == [s] + steps[1..];
    if st.Emit? && k == 0 {
      assert w == st.w;
    } else {
      var fs' := if st.Emit? then fs + {st.w.path} else fs;
      var k' := if st.Emit? then k - 1 else k;
      RunCaughtLocated(locate, render, overwrite, steps[1..], fs', k');
      var i :| 0 <= i < |steps[1..]| && w.obj == steps[1..][i].1 && locate(steps[1..][i].0, steps[1..][i].1) == Ok(w.path);
      assert steps[1..][i] == steps[i + 1];
    }
  }

  /** Steps whose located paths differ give a run that writes no path twice, overwriting or
      not. */
  lemma {:induction false} RunCaughtDistinct(locate: Locate, render: Render, overwrite: bool, steps: seq<(int, string)>, fs: set<string>)
    requires forall k, l | 0 <= k < l < |steps| && locate(steps[k].0, steps[k].1).Ok? ::
      locate(steps[k].0, steps[k].1) != locate(steps[l].0, steps[l].1)
    ensures var ws := RunCaught(locate, render, overwrite, steps, fs);
      forall k, l | 0 <= k < l < |ws| :: ws[k].path != ws[l].path
  {
    if steps != [] {
      var s := steps[0];
      var st := Step(locate, render, overwrite, s.0, s.1, fs);
      var fs' := if st.Emit? then fs + {st.w.path} else fs;
      assert forall k | 1 <= k < |steps| :: steps[k] == steps[1..][k - 1];
      RunCaughtDistinct(locate, render, overwrite, steps[1..], fs');
      RunCaughtCons(locate, render, overwrite, s, steps[1..], fs);
      assert steps == [s] + steps[1..];
      if st.Emit? {
        var ws := RunCaught(locate, render, overwrite, steps, fs);
        var rest := RunCaught(locate, render, overwrite, steps[1..], fs');
        assert ws == [st.w] + rest;
        forall l | 0 <= l < |rest|
          ensures rest[l].path != st.w.path
        {
          RunCaughtLocated(locate, render, overwrite, steps[1..], fs', l);
          var i :| 0 <= i < |steps[1..]| && locate(steps[1..][i].0, steps[1..][i].1) == Ok(rest[l].path);
          assert steps[1..][i] == steps[i + 1];
        }
        assert forall k | 1 <= k < |ws| :: ws[k] == rest[k - 1];
      }
    }
  }

  /** Distinct config ids and distinct objects give distinct steps. */
  lemma {:induction false} StepsNoDups(cfgs: seq<int>, objs: seq<string>)
    requires NoDups(cfgs) && NoDups(objs)
    ensures NoDups(Steps(cfgs, objs))
  {
    if cfgs != [] {
      var row := Row(cfgs[0], objs);
      var later := Steps(cfgs[1..], objs);
      StepsNoDups(cfgs[1..], objs);
      forall l | 0 <= l < |later|
        ensures later[l].0 != cfgs[0]
      {
        StepsMembers(cfgs[1..], objs, l);
      }
      assert Steps(cfgs, objs) == row + later;
    }
  }
}
