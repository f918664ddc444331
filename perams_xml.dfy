/** scripts/yml_to_xml/perams_xml.py: the time sources of the perambulators, spread evenly over
    the forward propagation length. */
module PeramsXml {
  import opened Py

  /** `generate_t_source_list(prop_t_fwd, num_tsrc)`: TypeError unless both are integers,
      ValueError unless both are positive, otherwise `range(0, prop_t_fwd, step)` for
      `step = round(prop_t_fwd / num_tsrc)`, which is itself a ValueError when the step rounds
      to zero. */
  function GenerateTSourceList(fwd: Value, num: Value): (r: Result<seq<int>>)
    ensures !(fwd.Int? && num.Int?) ==> r == Err(TypeError("prop_t_fwd and num_tsrc must be integers"))
    ensures fwd.Int? && num.Int? && (fwd.i <= 0 || num.i <= 0) ==>
              r == Err(ValueError("prop_t_fwd and num_tsrc must be positive integers"))
    ensures fwd.Int? && num.Int? && fwd.i > 0 && num.i > 0 ==>
              (r.Ok? <==> Step(fwd.i, num.i) > 0) && (r.Ok? ==> r.value == Range(0, fwd.i, Step(fwd.i, num.i)))
  {
    if !(fwd.Int? && num.Int?) then Err(TypeError("prop_t_fwd and num_tsrc must be integers"))
    else if fwd.i <= 0 || num.i <= 0 then Err(ValueError("prop_t_fwd and num_tsrc must be positive integers"))
    else
      StepSign(fwd.i, num.i);
      PyRange(0, fwd.i, Step(fwd.i, num.i))
  }

  /** `round(prop_t_fwd / num_tsrc)`, half to even. */
  function Step(fwd: int, num: int): int
    requires num != 0
  {
    RoundDiv(fwd, num)
  }

  /** For positive inputs the step is never negative, and it is zero exactly when the
      forward length is at most half the number of sources. */
  lemma StepSign(fwd: int, num: int)
    requires fwd > 0 && num > 0
    ensures Step(fwd, num) >= 0
    ensures Step(fwd, num) == 0 <==> 2 * fwd <= num
  {
    MultipleBounds(Step(fwd, num), num);
  }

  lemma MultipleBounds(k: int, num: int)
    requires num > 0
    ensures k < 0 ==> k * num <= -num
    ensures k >= 2 ==> k * num >= 2 * num
  {
    if k < 0 {
      assert k * num == -((-k) * num);
    } else if k >= 2 {
      assert k * num == 2 * num + (k - 2) * num;
    }
  }

  /** The list fails exactly for non-integers, non-positive inputs, and a forward length at
      most half the number of sources (the step then rounds to 0). */
  lemma TSourceListFails(fwd: Value, num: Value)
    ensures GenerateTSourceList(fwd, num).Err? <==>
              !(fwd.Int? && num.Int?) || fwd.i <= 0 || num.i <= 0 || 2 * fwd.i <= num.i
  {
    if fwd.Int? && num.Int? && fwd.i > 0 && num.i > 0 {
      StepSign(fwd.i, num.i);
    }
  }

  /** A produced list starts at 0, climbs by the step, stays below the forward length, and has
      as many entries as it takes steps to reach it: `ceil(prop_t_fwd / step)`, which need not
      be `num_tsrc`. */
  lemma TSourceListShape(fwd: int, num: int)
    requires GenerateTSourceList(Int(fwd), Int(num)).Ok?
    ensures var r := GenerateTSourceList(Int(fwd), Int(num)).value; var step := Step(fwd, num);
      step > 0 && |r| > 0 && r[0] == 0 &&
      (forall k | 0 <= k < |r| :: r[k] == k * step && r[k] < fwd) &&
      |r| * step >= fwd > (|r| - 1) * step
  {
    var step := Step(fwd, num);
    StepSign(fwd, num);
    RangeValues(0, fwd, step);
    RangeBounds(0, fwd, step);
    var r := Range(0, fwd, step);
    assert r == [0] + Range(step, fwd, step);
    assert r[|r| - 1] == (|r| - 1) * step;
  }

  /** Ten time slices and four sources give a step of 2 (2.5 rounds to even) and five sources;
      96 and 4 give 0 24 48 72; one slice and two sources round the step to 0 and fail. */
  lemma TSourceListExamples()
    ensures GenerateTSourceList(Int(10), Int(4)) == Ok([0, 2, 4, 6, 8])
    ensures GenerateTSourceList(Int(96), Int(4)) == Ok([0, 24, 48, 72])
    ensures GenerateTSourceList(Int(1), Int(2)) == Err(ValueError("range() arg 3 must not be zero"))
  {
    assert Step(10, 4) == 2;
    assert Range(0, 10, 2) == [0, 2, 4, 6, 8] by {
      assert Range(10, 10, 2) == [];
      assert Range(8, 10, 2) == [8];
    }
    assert Step(96, 4) == 24;
    assert Range(0, 96, 24) == [0, 24, 48, 72] by {
      assert Range(96, 96, 24) == [];
    }
    assert Step(1, 2) == 0;
  }

  /** The module-level `t_source_list`: `range(64)`. */
  const TSourceList: seq<int> := Range(0, 64, 1)

  /** It is 0, 1, ..., 63. */
  lemma TSourceListIsFirst64()
    ensures |TSourceList| == 64 && forall k | 0 <= k < 64 :: TSourceList[k] == k
  {
    var r := Range(0, 64, 1);
    RangeValues(0, 64, 1);
    RangeBounds(0, 64, 1);
    assert |r| > 0;
    assert r[|r| - 1] == |r| - 1;
  }
}
