/** The dictionary handling that the ensemble-aware generators share: the YAML document
    merged with the ensemble's dict and a few derived keys, the lookups that raise KeyError,
    the path and range arguments that raise TypeError or ValueError, and the name of a job
    script. */
module JobData {
  import opened Py
  import opened TagPatterns

  /** The spellings of the ensemble dict's keys. */
  const FieldNames: set<string> := {"beta", "ms", "mud", "mc", "NL", "NT", "P", "cfg_path", "cfg_name"}

  /** The keys the generators set after merging the ensemble dict. */
  const SetKeys: set<string> :=
    {"ens_short", "Nt_forward", "prop_t_fwd", "meson_t_fwd", "NL", "num_vecs_perams", "meson_nvec"}

  /** The ensemble dict with its keys spelled as strings. */
  function Props(info: Info): (m: map<string, Value>)
    ensures forall k | k in info :: FieldName(k) in m && m[FieldName(k)] == info[k]
    ensures forall s | s in m :: s in FieldNames
  {
    map k | k in info :: FieldName(k) := info[k]
  }

  /** `dataMap` after `dataMap.update(ens_props)` and the assignments that follow it: every
      key the YAML document sets and the ensemble dict does not is left as it was. */
  function DataMap(shortTag: string, yaml: map<string, Value>, props: Info): (data: map<string, Value>)
    requires NL in props && NT in props
    ensures forall k | k !in FieldNames && k !in SetKeys ::
      (k in data <==> k in yaml) && (k in yaml ==> data[k] == yaml[k])
  {
    (yaml + Props(props))["ens_short" := Str(shortTag)]["Nt_forward" := props[NT]]
      ["prop_t_fwd" := props[NT]]["meson_t_fwd" := props[NT]]["NL" := props[NL]]
      ["num_vecs_perams" := props[NT]]["meson_nvec" := props[NT]]
  }

  /** `dataMap[key]`. */
  function Lookup(data: map<string, Value>, key: string): (r: Result<Value>)
    ensures r.Ok? <==> key in data
    ensures r.Ok? ==> r.value == data[key]
    ensures r.Err? ==> r.error == KeyError(key)
  {
    if key in data then Ok(data[key]) else Err(KeyError(key))
  }

  /** `dataMap[key]` handed to `os.makedirs` or `os.path.join`, which refuse anything but a
      string. */
  function PathArg(data: map<string, Value>, key: string): (r: Result<string>)
    ensures r.Ok? <==> key in data && data[key].Str?
    ensures r.Ok? ==> data[key] == Str(r.value)
    ensures key !in data ==> r == Err(KeyError(key))
  {
    var v :- Lookup(data, key);
    if !v.Str? then Err(TypeError("expected str, bytes or os.PathLike object, not " + TypeName(v))) else Ok(v.s)
  }

  /** `range(cfg_i, cfg_f, cfg_step)`: an argument that is not an int raises TypeError, a zero
      step ValueError. */
  function CfgRange(i: Value, f: Value, d: Value): (r: Result<seq<int>>)
    ensures r.Ok? <==> i.Int? && f.Int? && d.Int? && d.i != 0
    ensures r.Ok? ==> r.value == Range(i.i, f.i, d.i)
    ensures i.Int? && f.Int? && d == Int(0) ==> r.Err? && r.error.ValueError?
  {
    if !i.Int? then Err(TypeError("'" + TypeName(i) + "' object cannot be interpreted as an integer"))
    else if !f.Int? then Err(TypeError("'" + TypeName(f) + "' object cannot be interpreted as an integer"))
    else if !d.Int? then Err(TypeError("'" + TypeName(d) + "' object cannot be interpreted as an integer"))
    else PyRange(i.i, f.i, d.i)
  }

  /** The YAML document gives the config range as three ints with a non-zero step. */
  predicate CfgArgs(yaml: map<string, Value>)
  {
    "cfg_i" in yaml && "cfg_f" in yaml && "cfg_d" in yaml &&
    yaml["cfg_i"].Int? && yaml["cfg_f"].Int? && yaml["cfg_d"].Int? && yaml["cfg_d"].i != 0
  }

  /** `obj.split("_")[1] + "_cfg{cfg_id:02d}.sh"`, with the IndexError of a name without `_`. */
  function ScriptName(obj: string, cfg: int): (r: Result<string>)
    ensures r.Err? <==> '_' !in obj
  {
    var parts := Split(obj, '_');
    if |parts| < 2 then Err(IndexError("list index out of range"))
    else Ok(parts[1] + "_cfg" + Pad2(cfg) + ".sh")
  }

  /** A padded config id is an optional '-' and digits, so it has no '/' and ends in a digit. */
  lemma PadShape(n: int)
    ensures SlashFree(Pad2(n)) && IsDigit(Pad2(n)[|Pad2(n)| - 1])
  {
    var s := Pad2(n);
    assert ParseInt(s).Some?;
    if s[0] == '-' {
      assert forall i | 1 <= i < |s| :: s[i] == s[1..][i - 1];
    }
  }
}
