/** check-all-files.py: for each number of eigenvectors and each config id of a fixed range,
    the expected SDB and HDF5 file of a data type, and the ones the filesystem lacks. The
    filesystem is the set of paths that exist; printing is not modelled, `main`'s reports
    are returned instead. */
module FileAudit {
  import opened Py

  // ------------------------------------------------------------- str.format

  /** `pattern.format(*args)` for patterns whose fields are all `{}`, numbered from `next`;
      `{{` and `}}` stand for one brace. A field past the last argument raises IndexError. */
  function Format(pattern: string, args: seq<string>, next: nat): (r: Result<string>)
    decreases |pattern|
  {
    if pattern == [] then Ok("")
    else if pattern[0] == '{' then
      if |pattern| >= 2 && pattern[1] == '{' then
        var rest :- Format(pattern[2..], args, next);
        Ok("{" + rest)
      else if |pattern| >= 2 && pattern[1] == '}' then
        if next >= |args| then
          Err(IndexError("Replacement index " + NatToString(next) + " out of range for positional args tuple"))
        else
          var rest :- Format(pattern[2..], args, next + 1);
          Ok(args[next] + rest)
      else Err(ValueError("only automatic fields are modelled"))
    else if pattern[0] == '}' then
      if |pattern| >= 2 && pattern[1] == '}' then
        var rest :- Format(pattern[2..], args, next);
        Ok("}" + rest)
      else Err(ValueError("Single '}' encountered in format string"))
    else
      var rest :- Format(pattern[1..], args, next);
      Ok([pattern[0]] + rest)
  }

  predicate BraceFree(s: string)
  {
    '{' !in s && '}' !in s
  }

  /** Text without braces comes out unchanged, whatever the arguments. */
  lemma {:induction false} FormatPlain(s: string, args: seq<string>, next: nat)
    requires BraceFree(s)
    ensures Format(s, args, next) == Ok(s)
    decreases |s|
  {
    if s != [] {
      assert s[0] in s && forall c | c in s[1..] :: c in s;
      FormatPlain(s[1..], args, next);
      assert s == [s[0]] + s[1..];
    }
  }

  /** Text without braces in front of a pattern is copied in front of its result. */
  lemma {:induction false} FormatLit(p: string, rest: string, args: seq<string>, next: nat)
    requires BraceFree(p)
    ensures Format(p + rest, args, next) ==
      (match Format(rest, args, next) case Ok(t) => Ok(p + t) case Err(e) => Err(e))
    decreases |p|
  {
    if p == [] {
      assert p + rest == rest;
      match Format(rest, args, next)
      case Ok(t) => assert p + t == t;
      case Err(_) =>
    } else {
      var q := p + rest;
      assert p[0] in p && forall c | c in p[1..] :: c in p;
      assert q[0] == p[0] && q[1..] == p[1..] + rest;
      FormatLit(p[1..], rest, args, next);
      match Format(rest, args, next)
      case Ok(t) =>
        assert Format(q[1..], args, next) == Ok(p[1..] + t);
        assert [p[0]] + (p[1..] + t) == p + t;
      case Err(e) =>
        assert Format(q[1..], args, next) == Err(e);
    }
  }

  /** A `{}` field takes the next argument. */
  lemma FormatField(rest: string, args: seq<string>, next: nat)
    requires next < |args|
    ensures Format("{}" + rest, args, next) ==
      (match Format(rest, args, next + 1) case Ok(t) => Ok(args[next] + t) case Err(e) => Err(e))
  {
    assert ("{}" + rest)[2..] == rest;
  }

  /** A pattern with two `{}` fields and brace-free text around them. */
  lemma FormatTwo(a: string, b: string, c: string, x: string, y: string)
    requires BraceFree(a) && BraceFree(b) && BraceFree(c)
    ensures Format(a + ("{}" + (b + ("{}" + c))), [x, y], 0) == Ok(a + (x + (b + (y + c))))
  {
    FormatPlain(c, [x, y], 2);
    FormatField(c, [x, y], 1);
    FormatLit(b, "{}" + c, [x, y], 1);
    FormatField(b + ("{}" + c), [x, y], 0);
    FormatLit(a, "{}" + (b + ("{}" + c)), [x, y], 0);
  }

  // ---------------------------------------------------------- the tables

  /** `DIRECTORIES.get(file_type)`. */
  function Directory(fileType: string): Option<string>
  {
    if fileType == "meson" then Some(Scratch + ("su3-distillation" + "/meson_sdb/"))
    else if fileType == "peram" then Some(Scratch + ("exolaunch/" + ("perams_sdb/" + "numvec64/")))
    else None
  }

  /** The project's scratch space, the common prefix of both directories. */
  const Scratch: string := "/p/scratch/" + "exotichadrons/"

  /** Neither directory holds a brace, so `.format(nvec)` leaves it unchanged. */
  lemma DirectoryBraceFree(fileType: string)
    requires Directory(fileType).Some?
    ensures BraceFree(Directory(fileType).value)
  {
    assert BraceFree("/p/scratch/") && BraceFree("exotichadrons/");
    if fileType == "meson" {
      assert BraceFree("su3-distillation") && BraceFree("/meson_sdb/");
    } else {
      assert BraceFree("exolaunch/") && BraceFree("perams_sdb/") && BraceFree("numvec64/");
    }
  }

  /** The text before the first field of both patterns of a type. */
  function Stem(fileType: string): string
  {
    if fileType == "meson" then "meson-" else "peram_"
  }

  /** `SDB_PATTERNS[file_type]` and `H5_PATTERNS[file_type]`: the two tables have the keys of
      `DIRECTORIES`, and the patterns differ only in the extension. */
  function Pattern(fileType: string, ext: string): string
    requires Directory(fileType).Some?
  {
    Stem(fileType) + ("{}" + ("_cfg" + ("{}" + ext)))
  }

  const SdbExt: string := ".sdb"
  const H5Ext: string := ".h5"

  /** `nvecs`, local to `check_files`. */
  const Nvecs: seq<int> := [96]

  /** `CFG_RANGE`. */
  function CfgRange(): seq<int>
  {
    Range(11, 2000, 10)
  }

  /** The config ids checked are 11, 21, ..., 1991: 199 of them. */
  lemma CfgRangeIds()
    ensures |CfgRange()| == 199
    ensures forall k | 0 <= k < |CfgRange()| :: CfgRange()[k] == 11 + 10 * k
    ensures CfgRange()[0] == 11 && CfgRange()[198] == 1991
  {
    var r := CfgRange();
    RangeValues(11, 2000, 10);
    RangeBounds(11, 2000, 10);
    assert |r| > 0;
    assert r[|r| - 1] == 11 + 10 * (|r| - 1) < 2000;
  }

  // ------------------------------------------------------------- check_files

  /** A path the filesystem lacks, as the one-element list the loop appends, or nothing. */
  function IfMissing(path: string, fs: set<string>): seq<string>
  {
    if path in fs then [] else [path]
  }

  /** The inner loop over config ids for one directory and nvec: the missing SDB and HDF5
      paths in config order, or the exception a pattern raises. */
  function AuditCfgs(dir: string, sdbPattern: string, h5Pattern: string, nvec: int, cfgs: seq<int>, fs: set<string>)
    : Result<(seq<string>, seq<string>)>
  {
    if cfgs == [] then Ok(([], []))
    else
      var before :- AuditCfgs(dir, sdbPattern, h5Pattern, nvec, cfgs[..|cfgs| - 1], fs);
      var cfg := cfgs[|cfgs| - 1];
      var sdbFile :- Format(sdbPattern, [IntToString(nvec), IntToString(cfg)], 0);
      var h5File :- Format(h5Pattern, [IntToString(nvec), IntToString(cfg)], 0);
      Ok((before.0 + IfMissing(PathJoin(dir, sdbFile), fs), before.1 + IfMissing(PathJoin(dir, h5File), fs)))
  }

  /** `check_files` over a list of nvecs and config ids: None for a type without a
      directory (when there is at least one nvec), otherwise both missing lists. */
  function Audit(fileType: string, nvecs: seq<int>, cfgs: seq<int>, fs: set<string>)
    : (r: Result<Option<(seq<string>, seq<string>)>>)
    ensures Directory(fileType).Some? && r.Ok? ==> r.value.Some?
  {
    if nvecs == [] then Ok(Some(([], [])))
    else if Directory(fileType).None? then Ok(None)
    else
      var before :- Audit(fileType, nvecs[..|nvecs| - 1], cfgs, fs);
      var nvec := nvecs[|nvecs| - 1];
      var dir :- Format(Directory(fileType).value, [IntToString(nvec)], 0);
      var m :- AuditCfgs(dir, Pattern(fileType, SdbExt), Pattern(fileType, H5Ext), nvec, cfgs, fs);
      Ok(Some((before.value.0 + m.0, before.value.1 + m.1)))
  }

  /** `check_files(file_type)`. */
  function CheckFiles(fileType: string, fs: set<string>): Result<Option<(seq<string>, seq<string>)>>
  {
    Audit(fileType, Nvecs, CfgRange(), fs)
  }

  /** The loops of `check_files`, appending to the two lists. */
  method CheckFilesLoop(fileType: string, nvecs: seq<int>, cfgs: seq<int>, fs: set<string>)
    returns (r: Result<Option<(seq<string>, seq<string>)>>)
    ensures r == Audit(fileType, nvecs, cfgs, fs)
  {
    var missingSdb, missingH5 := [], [];
    var i := 0;
    while i < |nvecs|
      invariant 0 <= i <= |nvecs|
      invariant Audit(fileType, nvecs[..i], cfgs, fs) == Ok(Some((missingSdb, missingH5)))
    {
      var nvec := nvecs[i];
      if Directory(fileType).None? {
        return Ok(None);
      }
      var dir := Format(Directory(fileType).value, [IntToString(nvec)], 0);
      if dir.Err? {
        AuditStepErr(fileType, nvecs, cfgs, fs, i, dir.error);
        return Err(dir.error);
      }
      var m := AuditCfgsLoop(dir.value, Pattern(fileType, SdbExt), Pattern(fileType, H5Ext), nvec, cfgs, fs);
      if m.Err? {
        AuditStepErr(fileType, nvecs, cfgs, fs, i, m.error);
        return Err(m.error);
      }
      AuditStep(fileType, nvecs, cfgs, fs, i, missingSdb, missingH5, dir.value, m.value);
      missingSdb, missingH5 := missingSdb + m.value.0, missingH5 + m.value.1;
      i := i + 1;
    }
    assert nvecs[..i] == nvecs;
    r := Ok(Some((missingSdb, missingH5)));
  }

  /** The inner loop of `check_files`, over the config ids of one nvec. */
  method AuditCfgsLoop(dir: string, sdbPattern: string, h5Pattern: string, nvec: int, cfgs: seq<int>, fs: set<string>)
    returns (r: Result<(seq<string>, seq<string>)>)
    ensures r == AuditCfgs(dir, sdbPattern, h5Pattern, nvec, cfgs, fs)
  {
    var missingSdb, missingH5 := [], [];
    var j := 0;
    while j < |cfgs|
      invariant 0 <= j <= |cfgs|
      invariant AuditCfgs(dir, sdbPattern, h5Pattern, nvec, cfgs[..j], fs) == Ok((missingSdb, missingH5))
    {
      var cfg := cfgs[j];
      var sdbFile := Format(sdbPattern, [IntToString(nvec), IntToString(cfg)], 0);
      if sdbFile.Err? {
        AuditCfgsStepErr(dir, sdbPattern, h5Pattern, nvec, cfgs, fs, j, sdbFile.error);
        return Err(sdbFile.error);
      }
      var h5File := Format(h5Pattern, [IntToString(nvec), IntToString(cfg)], 0);
      if h5File.Err? {
        AuditCfgsStepErr(dir, sdbPattern, h5Pattern, nvec, cfgs, fs, j, h5File.error);
        return Err(h5File.error);
      }
      AuditCfgsStep(dir, sdbPattern, h5Pattern, nvec, cfgs, fs, j, missingSdb, missingH5);
      missingSdb := missingSdb + IfMissing(PathJoin(dir, sdbFile.value), fs);
      missingH5 := missingH5 + IfMissing(PathJoin(dir, h5File.value), fs);
      j := j + 1;
    }
    assert cfgs[..j] == cfgs;
    r := Ok((missingSdb, missingH5));
  }

  /** One more config id whose names format extends both missing lists. */
  lemma AuditCfgsStep(dir: string, sdbPattern: string, h5Pattern: string, nvec: int, cfgs: seq<int>,
                      fs: set<string>, j: nat, sdb: seq<string>, h5: seq<string>)
    requires j < |cfgs| && AuditCfgs(dir, sdbPattern, h5Pattern, nvec, cfgs[..j], fs) == Ok((sdb, h5))
    requires Format(sdbPattern, [IntToString(nvec), IntToString(cfgs[j])], 0).Ok?
    requires Format(h5Pattern, [IntToString(nvec), IntToString(cfgs[j])], 0).Ok?
    ensures AuditCfgs(dir, sdbPattern, h5Pattern, nvec, cfgs[..j + 1], fs) ==
      Ok((sdb + IfMissing(PathJoin(dir, Format(sdbPattern, [IntToString(nvec), IntToString(cfgs[j])], 0).value), fs),
          h5 + IfMissing(PathJoin(dir, Format(h5Pattern, [IntToString(nvec), IntToString(cfgs[j])], 0).value), fs)))
  {
    assert cfgs[..j + 1][..j] == cfgs[..j];
    assert cfgs[..j + 1][j] == cfgs[j];
  }

  /** A config id whose SDB or HDF5 name fails to format ends the inner loop with that error. */
  lemma AuditCfgsStepErr(dir: string, sdbPattern: string, h5Pattern: string, nvec: int, cfgs: seq<int>,
                         fs: set<string>, j: nat, e: PyError)
    requires j < |cfgs| && AuditCfgs(dir, sdbPattern, h5Pattern, nvec, cfgs[..j], fs).Ok?
    requires Format(sdbPattern, [IntToString(nvec), IntToString(cfgs[j])], 0) == Err(e) ||
             (Format(sdbPattern, [IntToString(nvec), IntToString(cfgs[j])], 0).Ok? &&
              Format(h5Pattern, [IntToString(nvec), IntToString(cfgs[j])], 0) == Err(e))
    ensures AuditCfgs(dir, sdbPattern, h5Pattern, nvec, cfgs, fs) == Err(e)
  {
    assert cfgs[..j + 1][..j] == cfgs[..j];
    assert cfgs[..j + 1][j] == cfgs[j];
    AuditCfgsPrefixErr(dir, sdbPattern, h5Pattern, nvec, cfgs, fs, j + 1);
  }

  /** An exception in the inner loop at some config ends the whole loop with it. */
  lemma {:induction false} AuditCfgsPrefixErr(dir: string, sdbPattern: string, h5Pattern: string, nvec: int,
                                              cfgs: seq<int>, fs: set<string>, n: nat)
    requires n <= |cfgs| && AuditCfgs(dir, sdbPattern, h5Pattern, nvec, cfgs[..n], fs).Err?
    ensures AuditCfgs(dir, sdbPattern, h5Pattern, nvec, cfgs, fs) == AuditCfgs(dir, sdbPattern, h5Pattern, nvec, cfgs[..n], fs)
    decreases |cfgs| - n
  {
    if n < |cfgs| {
      assert cfgs[..n + 1][..n] == cfgs[..n];
      AuditCfgsPrefixErr(dir, sdbPattern, h5Pattern, nvec, cfgs, fs, n + 1);
    } else {
      assert cfgs[..n] == cfgs;
    }
  }

  /** One more nvec whose directory formats and whose inner loop succeeds extends both lists. */
  lemma AuditStep(fileType: string, nvecs: seq<int>, cfgs: seq<int>, fs: set<string>, i: nat,
                  sdb: seq<string>, h5: seq<string>, dir: string, m: (seq<string>, seq<string>))
    requires i < |nvecs| && Audit(fileType, nvecs[..i], cfgs, fs) == Ok(Some((sdb, h5)))
    requires Directory(fileType).Some? && Format(Directory(fileType).value, [IntToString(nvecs[i])], 0) == Ok(dir)
    requires AuditCfgs(dir, Pattern(fileType, SdbExt), Pattern(fileType, H5Ext), nvecs[i], cfgs, fs) == Ok(m)
    ensures Audit(fileType, nvecs[..i + 1], cfgs, fs) == Ok(Some((sdb + m.0, h5 + m.1)))
  {
    assert nvecs[..i + 1][..i] == nvecs[..i];
    assert nvecs[..i + 1][i] == nvecs[i];
  }

  /** An nvec whose directory fails to format, or whose inner loop raises, ends the audit with
      that error. */
  lemma AuditStepErr(fileType: string, nvecs: seq<int>, cfgs: seq<int>, fs: set<string>, i: nat, e: PyError)
    requires i < |nvecs| && Audit(fileType, nvecs[..i], cfgs, fs).Ok? && Directory(fileType).Some?
    requires var dir := Format(Directory(fileType).value, [IntToString(nvecs[i])], 0);
      dir == Err(e) ||
      (dir.Ok? && AuditCfgs(dir.value, Pattern(fileType, SdbExt), Pattern(fileType, H5Ext), nvecs[i], cfgs, fs) == Err(e))
    ensures Audit(fileType, nvecs, cfgs, fs) == Err(e)
  {
    assert nvecs[..i + 1][..i] == nvecs[..i];
    assert nvecs[..i + 1][i] == nvecs[i];
    AuditPrefixErr(fileType, nvecs, cfgs, fs, i + 1);
  }

  /** An exception at some nvec ends the whole audit with it. */
  lemma {:induction false} AuditPrefixErr(fileType: string, nvecs: seq<int>, cfgs: seq<int>, fs: set<string>, n: nat)
    requires 0 < n <= |nvecs| && Audit(fileType, nvecs[..n], cfgs, fs).Err?
    ensures Audit(fileType, nvecs, cfgs, fs) == Audit(fileType, nvecs[..n], cfgs, fs)
    decreases |nvecs| - n
  {
    if n < |nvecs| {
      assert nvecs[..n + 1][..n] == nvecs[..n];
      AuditPrefixErr(fileType, nvecs, cfgs, fs, n + 1);
    } else {
      assert nvecs[..n] == nvecs;
    }
  }

  // ------------------------------------------------------- what the audit finds

  /** `os.path.join(directory, pattern.format(nvec, cfg))` for each config id. */
  function Expected(dir: string, stem: string, ext: string, nvec: int, cfgs: seq<int>): (ps: seq<string>)
    ensures |ps| == |cfgs|
  {
    if cfgs == [] then []
    else Expected(dir, stem, ext, nvec, cfgs[..|cfgs| - 1]) + [ExpectedPath(dir, stem, ext, nvec, cfgs[|cfgs| - 1])]
  }

  /** The path of `<stem><nvec>_cfg<cfg><ext>` in `dir`. */
  function ExpectedPath(dir: string, stem: string, ext: string, nvec: int, cfg: int): string
  {
    PathJoin(dir, stem + (IntToString(nvec) + ("_cfg" + (IntToString(cfg) + ext))))
  }

  /** The paths of a list the filesystem lacks, in list order. */
  function Missing(ps: seq<string>, fs: set<string>): (m: seq<string>)
    ensures |m| <= |ps|
    ensures forall p :: p in m <==> p in ps && p !in fs
  {
    if ps == [] then [] else Missing(ps[..|ps| - 1], fs) + IfMissing(ps[|ps| - 1], fs)
  }

  /** The missing paths of two lists one after the other are those of the first, then
      those of the second: the order of the list is kept. */
  lemma {:induction false} MissingAppend(ps: seq<string>, qs: seq<string>, fs: set<string>)
    ensures Missing(ps + qs, fs) == Missing(ps, fs) + Missing(qs, fs)
    decreases |qs|
  {
    if qs != [] {
      var n := |qs| - 1;
      assert (ps + qs)[..|ps + qs| - 1] == ps + qs[..n];
      MissingAppend(ps, qs[..n], fs);
    } else {
      assert ps + qs == ps;
    }
  }

  /** For a pattern `<stem>{}_cfg{}<ext>` each list holds the expected paths the filesystem
      lacks, in config order; the SDB list does not depend on which HDF5 files exist, nor the
      other way round. */
  lemma {:induction false} AuditCfgsFinds(dir: string, stem: string, ext1: string, ext2: string, nvec: int,
                                          cfgs: seq<int>, fs: set<string>)
    requires BraceFree(stem) && BraceFree(ext1) && BraceFree(ext2)
    ensures AuditCfgs(dir, stem + ("{}" + ("_cfg" + ("{}" + ext1))), stem + ("{}" + ("_cfg" + ("{}" + ext2))), nvec, cfgs, fs)
      == Ok((Missing(Expected(dir, stem, ext1, nvec, cfgs), fs), Missing(Expected(dir, stem, ext2, nvec, cfgs), fs)))
  {
    if cfgs != [] {
      var n := |cfgs| - 1;
      var x, y := IntToString(nvec), IntToString(cfgs[n]);
      assert BraceFree("_cfg");
      AuditCfgsFinds(dir, stem, ext1, ext2, nvec, cfgs[..n], fs);
      FormatTwo(stem, "_cfg", ext1, x, y);
      FormatTwo(stem, "_cfg", ext2, x, y);
      MissingSnoc(Expected(dir, stem, ext1, nvec, cfgs[..n]), ExpectedPath(dir, stem, ext1, nvec, cfgs[n]), fs);
      MissingSnoc(Expected(dir, stem, ext2, nvec, cfgs[..n]), ExpectedPath(dir, stem, ext2, nvec, cfgs[n]), fs);
    }
  }

  /** One more path adds it to the missing ones exactly when the filesystem lacks it. */
  lemma MissingSnoc(ps: seq<string>, p: string, fs: set<string>)
    ensures Missing(ps + [p], fs) == Missing(ps, fs) + IfMissing(p, fs)
  {
    assert (ps + [p])[..|ps|] == ps;
  }

  /** `check_files` for meson or peram and one nvec: the expected paths of the config ids in
      the type's directory, unchanged by `.format`, that do not exist. */
  lemma {:induction false} AuditFinds(fileType: string, nvec: int, cfgs: seq<int>, fs: set<string>)
    requires Directory(fileType).Some?
    ensures var dir := Directory(fileType).value;
      Audit(fileType, [nvec], cfgs, fs) == Ok(Some((Missing(Expected(dir, Stem(fileType), SdbExt, nvec, cfgs), fs),
                                                    Missing(Expected(dir, Stem(fileType), H5Ext, nvec, cfgs), fs))))
  {
    var dir := Directory(fileType).value;
    DirectoryBraceFree(fileType);
    FormatPlain(dir, [IntToString(nvec)], 0);
    assert BraceFree(Stem(fileType)) && BraceFree(SdbExt) && BraceFree(H5Ext);
    AuditCfgsFinds(dir, Stem(fileType), SdbExt, H5Ext, nvec, cfgs, fs);
    assert [nvec][..0] == [];
    var m := (Missing(Expected(dir, Stem(fileType), SdbExt, nvec, cfgs), fs),
              Missing(Expected(dir, Stem(fileType), H5Ext, nvec, cfgs), fs));
    assert [] + m.0 == m.0 && [] + m.1 == m.1;
  }

  /** `check_files` for meson or peram: for the single nvec 96, the expected paths of the
      config ids of `CFG_RANGE` in the type's directory that do not exist. */
  lemma CheckFilesFinds(fileType: string, fs: set<string>)
    requires Directory(fileType).Some?
    ensures var dir := Directory(fileType).value;
      CheckFiles(fileType, fs) == Ok(Some((Missing(Expected(dir, Stem(fileType), SdbExt, 96, CfgRange()), fs),
                                           Missing(Expected(dir, Stem(fileType), H5Ext, 96, CfgRange()), fs))))
  {
    AuditFinds(fileType, 96, CfgRange(), fs);
  }

  /** Each missing list has at most one entry per nvec and config id: 199. */
  lemma CheckFilesBound(fileType: string, fs: set<string>)
    requires CheckFiles(fileType, fs).Ok? && CheckFiles(fileType, fs).value.Some?
    ensures var m := CheckFiles(fileType, fs).value.value;
      |m.0| <= |Nvecs| * 199 && |m.1| <= |Nvecs| * 199
  {
    CheckFilesFinds(fileType, fs);
    CfgRangeIds();
  }

  /** A type with a directory gives both lists. */
  lemma CheckFilesKnown(fileType: string, fs: set<string>)
    requires Directory(fileType).Some?
    ensures CheckFiles(fileType, fs).Ok? && CheckFiles(fileType, fs).value.Some?
  {
    CheckFilesFinds(fileType, fs);
  }

  /** A type without a directory gives None. */
  lemma CheckFilesUnknown(fileType: string, fs: set<string>)
    requires Directory(fileType).None?
    ensures CheckFiles(fileType, fs) == Ok(None)
  {
  }

  /** The k-th expected file of a type is `<stem>96_cfg<11 + 10k><ext>` in its directory. */
  lemma ExpectedNames(fileType: string, ext: string, k: nat)
    requires Directory(fileType).Some? && k < 199
    ensures k < |CfgRange()| &&
      Expected(Directory(fileType).value, Stem(fileType), ext, 96, CfgRange())[k] ==
      ExpectedPath(Directory(fileType).value, Stem(fileType), ext, 96, 11 + 10 * k)
  {
    CfgRangeIds();
    ExpectedAt(Directory(fileType).value, Stem(fileType), ext, 96, CfgRange(), k);
  }

  /** The k-th expected path is the one of the k-th config id. */
  lemma {:induction false} ExpectedAt(dir: string, stem: string, ext: string, nvec: int, cfgs: seq<int>, k: nat)
    requires k < |cfgs|
    ensures Expected(dir, stem, ext, nvec, cfgs)[k] == ExpectedPath(dir, stem, ext, nvec, cfgs[k])
    decreases |cfgs|
  {
    var n := |cfgs| - 1;
    var before := Expected(dir, stem, ext, nvec, cfgs[..n]);
    assert Expected(dir, stem, ext, nvec, cfgs) == before + [ExpectedPath(dir, stem, ext, nvec, cfgs[n])];
    if k < n {
      assert cfgs[..n][k] == cfgs[k];
      ExpectedAt(dir, stem, ext, nvec, cfgs[..n], k);
    }
  }

  // -------------------------------------------------------------------- main

  /** What `main` prints for one type: its two missing lists. */
  datatype Report = Report(fileType: string, missingSdb: seq<string>, missingH5: seq<string>)

  /** The types `main` checks for its argument. */
  function TypesToCheck(fileType: string): seq<string>
  {
    if fileType == "all" then ["meson", "peram", "peram_strange"] else [fileType]
  }

  /** The loop of `main`: a report per type until `check_files` returns None and the tuple
      unpacking raises TypeError. */
  function MainLoop(types: seq<string>, fs: set<string>): (seq<Report>, Option<PyError>)
  {
    if types == [] then ([], None)
    else match CheckFiles(types[0], fs)
      case Err(e) => ([], Some(e))
      case Ok(None) => ([], Some(TypeError(UnpackNone)))
      case Ok(Some(m)) =>
        var rest := MainLoop(types[1..], fs);
        ([Report(types[0], m.0, m.1)] + rest.0, rest.1)
  }

  /** `main()` for an argument argparse accepts. */
  function Main(fileType: string, fs: set<string>): (seq<Report>, Option<PyError>)
    requires fileType in ["meson", "peram", "peram_strange", "all"]
  {
    MainLoop(TypesToCheck(fileType), fs)
  }

  /** The message of the TypeError that unpacking None raises. */
  const UnpackNone: string := "cannot unpack non-iterable NoneType object"

  /** 'peram_strange' passes argparse but has no directory: its unpacking fails before
      anything is reported. */
  lemma MainPeramStrange(fs: set<string>)
    ensures Main("peram_strange", fs) == ([], Some(TypeError(UnpackNone)))
  {
    CheckFilesUnknown("peram_strange", fs);
    assert TypesToCheck("peram_strange") == ["peram_strange"];
  }

  /** A type with a directory is reported, and the loop goes on with the next type. */
  lemma MainLoopKnown(fileType: string, rest: seq<string>, fs: set<string>)
    requires Directory(fileType).Some?
    ensures CheckFiles(fileType, fs).Ok? && CheckFiles(fileType, fs).value.Some?
    ensures var m := CheckFiles(fileType, fs).value.value;
      MainLoop([fileType] + rest, fs) ==
        ([Report(fileType, m.0, m.1)] + MainLoop(rest, fs).0, MainLoop(rest, fs).1)
  {
    CheckFilesKnown(fileType, fs);
    assert ([fileType] + rest)[0] == fileType && ([fileType] + rest)[1..] == rest;
  }

  /** Meson or peram alone: one report and no exception. */
  lemma MainKnown(fileType: string, fs: set<string>)
    requires fileType == "meson" || fileType == "peram"
    ensures Main(fileType, fs).1 == None
    ensures |Main(fileType, fs).0| == 1 && Main(fileType, fs).0[0].fileType == fileType
  {
    assert TypesToCheck(fileType) == [fileType] + [];
    MainLoopKnown(fileType, [], fs);
  }

  /** 'all' reports meson and peram, then fails on peram_strange. */
  lemma MainAll(fs: set<string>)
    ensures var (reports, error) := Main("all", fs);
      error == Some(TypeError(UnpackNone)) &&
      |reports| == 2 && reports[0].fileType == "meson" && reports[1].fileType == "peram"
  {
    assert TypesToCheck("all") == ["meson"] + (["peram"] + ["peram_strange"]);
    CheckFilesUnknown("peram_strange", fs);
    assert ["peram_strange"][1..] == [];
    assert MainLoop(["peram_strange"], fs) == ([], Some(TypeError(UnpackNone)));
    MainLoopKnown("peram", ["peram_strange"], fs);
    MainLoopKnown("meson", ["peram"] + ["peram_strange"], fs);
  }
}
