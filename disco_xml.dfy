/** yml_to_xml/disco_xml.py: the momentum and displacement lists of the disconnected
    diagrams, and how the `Disco` model fills its defaulted fields, among them the number of
    colour parts. */
module DiscoXml {
  import opened Py
  import opened Momenta

  // ------------------------------------------------------------------ momenta

  /** One, two and three units along each axis, each way, in the order the list writes them. */
  const Axis1: seq<Mom> := [Mom(1, 0, 0), Mom(-1, 0, 0), Mom(0, 1, 0), Mom(0, -1, 0), Mom(0, 0, 1), Mom(0, 0, -1)]
  const Axis2: seq<Mom> := [Mom(2, 0, 0), Mom(-2, 0, 0), Mom(0, 2, 0), Mom(0, -2, 0), Mom(0, 0, 2), Mom(0, 0, -2)]
  const Axis3: seq<Mom> := [Mom(3, 0, 0), Mom(-3, 0, 0), Mom(0, 3, 0), Mom(0, -3, 0), Mom(0, 0, 3), Mom(0, 0, -3)]

  /** The momenta `_gen_mom_list` writes. */
  const DiscoMoms: seq<Mom> := [Mom(0, 0, 0)] + Axis1 + Axis2 + Axis3

  /** A momentum is in the list exactly when it is zero or one to three units along a single
      axis. */
  lemma DiscoMomsMembers(m: Mom)
    ensures m in DiscoMoms <==> m == Mom(0, 0, 0) || (OnAxis(m) && 1 <= Reach(m) <= 3)
  {
    if m != Mom(0, 0, 0) && OnAxis(m) && 1 <= Reach(m) <= 3 {
      assert DiscoMoms[Slot(m)] == m;
    }
    if m in DiscoMoms {
      var k :| 0 <= k < |DiscoMoms| && DiscoMoms[k] == m;
      DiscoMomAt(k);
    }
  }

  /** Where a momentum on an axis sits in the list: after zero, by size, then by axis, then
      positive before negative. */
  function Slot(m: Mom): (k: nat)
    requires m != Mom(0, 0, 0) && OnAxis(m) && 1 <= Reach(m) <= 3
    ensures k < |DiscoMoms|
  {
    var axis := if m.x != 0 then 0 else if m.y != 0 then 1 else 2;
    var neg := if m.x < 0 || m.y < 0 || m.z < 0 then 1 else 0;
    1 + 6 * (Reach(m) - 1) + 2 * axis + neg
  }

  lemma DiscoMomAt(k: nat)
    requires k < |DiscoMoms|
    ensures var m := DiscoMoms[k]; m == Mom(0, 0, 0) || (OnAxis(m) && 1 <= Reach(m) <= 3 && Slot(m) == k)
  {
  }

  /** The list is closed under negation and has no repeats. */
  lemma DiscoMomsShape()
    ensures ClosedUnderNeg(DiscoMoms) && NoDups(DiscoMoms) && |DiscoMoms| == 19
  {
    forall m | m in DiscoMoms
      ensures Mom(-m.x, -m.y, -m.z) in DiscoMoms
    {
      DiscoMomsMembers(m);
      DiscoMomsMembers(Mom(-m.x, -m.y, -m.z));
    }
    forall i, j | 0 <= i < j < |DiscoMoms|
      ensures DiscoMoms[i] != DiscoMoms[j]
    {
      DiscoMomAt(i);
      DiscoMomAt(j);
    }
  }

  /** The written list has 19 distinct entries, each reading back as its momentum. */
  lemma GenMomListReads(k: nat)
    requires k < |GenMomList()|
    ensures ParseMom(GenMomList()[k]) == Some(DiscoMoms[k])
    ensures NoDups(GenMomList()) && |GenMomList()| == 19
  {
    WritesParse(GenMomList(), DiscoMoms, k);
    DiscoMomsShape();
    WritesNoDups(GenMomList(), DiscoMoms);
  }

  /** `_gen_mom_list()`: its literal, in the rows of the axis groups. */
  function GenMomList(): (r: seq<string>)
    ensures Writes(r, DiscoMoms)
  {
    Zero();
    WritesAppend(["0 0 0"], [Mom(0, 0, 0)], AxisList1(), Axis1);
    WritesAppend(["0 0 0"] + AxisList1(), [Mom(0, 0, 0)] + Axis1, AxisList2(), Axis2);
    WritesAppend(["0 0 0"] + AxisList1() + AxisList2(), [Mom(0, 0, 0)] + Axis1 + Axis2, AxisList3(), Axis3);
    ["0 0 0"] + AxisList1() + AxisList2() + AxisList3()
  }

  function AxisList1(): (r: seq<string>)
    ensures Writes(r, Axis1)
  {
    var r := AxisRow("1");
    AxisWrites(r, Axis1, 1);
    r
  }

  function AxisList2(): (r: seq<string>)
    ensures Writes(r, Axis2)
  {
    var r := AxisRow("2");
    AxisWrites(r, Axis2, 2);
    r
  }

  function AxisList3(): (r: seq<string>)
    ensures Writes(r, Axis3)
  {
    var r := AxisRow("3");
    AxisWrites(r, Axis3, 3);
    r
  }

  /** A row of the list: `"p 0 0", "-p 0 0", "0 p 0", "0 -p 0", "0 0 p", "0 0 -p"`. */
  function AxisRow(p: string): seq<string>
  {
    [p + " 0 0", "-" + p + " 0 0", "0 " + p + " 0", "0 -" + p + " 0", "0 0 " + p, "0 0 -" + p]
  }

  /** A row of six written momenta of size `n`, checked entry by entry. */
  lemma AxisWrites(r: seq<string>, m: seq<Mom>, n: int)
    requires 1 <= n <= 3 && r == AxisRow([DigitChar(n)])
    requires m == [Mom(n, 0, 0), Mom(-n, 0, 0), Mom(0, n, 0), Mom(0, -n, 0), Mom(0, 0, n), Mom(0, 0, -n)]
    ensures Writes(r, m)
  {
    Zero();
    assert IntToString(n) == [DigitChar(n)];
    assert IntToString(-n) == "-" + [DigitChar(n)];
    assert r[0] == MomText(m[0]);
    assert r[1] == MomText(m[1]);
    assert r[2] == MomText(m[2]);
    assert r[3] == MomText(m[3]);
    assert r[4] == MomText(m[4]);
    assert r[5] == MomText(m[5]);
  }

  lemma Zero()
    ensures IntToString(0) == "0"
  {
  }

  // ------------------------------------------------------------ displacements

  /** The displacements `_displacement_list` writes: none, one step along each direction,
      then the two-step paths, the straight ones first. */
  const DiscoDisps: seq<seq<int>> :=
    [[], [1], [2], [3], [1, 1], [2, 2], [3, 3], [1, 2], [1, 3], [2, 1], [2, 3], [3, 1], [3, 2]]

  /** `_displacement_list()`. */
  function DisplacementList(): (r: seq<string>)
    ensures WritesDisps(r, DiscoDisps)
  {
    DispOne(1);
    DispOne(2);
    DispOne(3);
    DispPair(1, 1);
    DispPair(2, 2);
    DispPair(3, 3);
    DispPair(1, 2);
    DispPair(1, 3);
    DispPair(2, 1);
    DispPair(2, 3);
    DispPair(3, 1);
    DispPair(3, 2);
    ["", "1", "2", "3", "1 1", "2 2", "3 3", "1 2", "1 3", "2 1", "2 3", "3 1", "3 2"]
  }

  lemma DispOne(a: int)
    requires 1 <= a <= 3
    ensures DispText([a]) == [DigitChar(a)]
  {
  }

  lemma DispPair(a: int, b: int)
    requires 1 <= a <= 3 && 1 <= b <= 3
    ensures DispText([a, b]) == [DigitChar(a), ' ', DigitChar(b)]
  {
    assert [a, b][1..] == [b];
  }

  /** Where a path of at most two directions sits in the list. */
  function DispSlot(d: seq<int>): (k: nat)
    requires |d| <= 2 && forall i | 0 <= i < |d| :: 1 <= d[i] <= 3
    ensures k < |DiscoDisps|
  {
    if |d| == 0 then 0
    else if |d| == 1 then d[0]
    else if d[0] == d[1] then 3 + d[0]
    else 7 + 2 * (d[0] - 1) + (if d[1] > d[0] then d[1] - 2 else d[1] - 1)
  }

  lemma DiscoDispAt(k: nat)
    requires k < |DiscoDisps|
    ensures var d := DiscoDisps[k]; |d| <= 2 && (forall i | 0 <= i < |d| :: 1 <= d[i] <= 3) && DispSlot(d) == k
  {
  }

  /** A path is in the list exactly when it has at most two steps, each along direction 1, 2
      or 3: the empty path, the three single steps and all nine ordered pairs. */
  lemma DiscoDispsMembers(d: seq<int>)
    ensures d in DiscoDisps <==> |d| <= 2 && forall i | 0 <= i < |d| :: 1 <= d[i] <= 3
  {
    if |d| <= 2 && forall i | 0 <= i < |d| :: 1 <= d[i] <= 3 {
      if |d| == 2 {
        assert d == [d[0], d[1]];
      }
      assert DiscoDisps[DispSlot(d)] == d;
    }
    if d in DiscoDisps {
      var k :| 0 <= k < |DiscoDisps| && DiscoDisps[k] == d;
      DiscoDispAt(k);
    }
  }

  /** The written list has 13 distinct entries. */
  lemma DisplacementListShape()
    ensures NoDups(DiscoDisps) && NoDups(DisplacementList()) && |DisplacementList()| == 13
  {
    forall i, j | 0 <= i < j < |DiscoDisps|
      ensures DiscoDisps[i] != DiscoDisps[j]
    {
      DiscoDispAt(i);
      DiscoDispAt(j);
    }
    WritesDispsNoDups(DisplacementList(), DiscoDisps);
  }

  // ------------------------------------------------------------ colour parts

  /** `(max_colors + max_colors_at_once - 1) // max_colors_at_once`: the number of parts of at
      most `atOnce` colours that cover `maxColors` colours. */
  function ColorParts(maxColors: int, atOnce: int): (r: Result<int>)
    ensures r.Err? <==> atOnce == 0
    ensures atOnce > 0 ==> r.Ok? && r.value * atOnce >= maxColors > (r.value - 1) * atOnce
  {
    FloorDiv(maxColors + atOnce - 1, atOnce)
  }

  // ------------------------------------------------------------ the model

  /** The fields of `Disco` that bear on the colour parts and the lists. */
  datatype Disco = Disco(maxColors: int, maxColorsAtOnce: int, numColorParts: int, displacementList: seq<string>)

  /** The declared default of `disco_displacement_list`, written out separately from the
      function. */
  const DefaultDisplacements: seq<string> :=
    ["", "1", "2", "3", "1 1", "2 2", "3 3", "1 2", "1 3", "2 1", "2 3", "3 1", "3 2"]

  /** A `Disco` built from the template data as the class stands: the later declaration of
      `num_color_parts` gives it the default 14, and the model base never runs
      `__post_init__`, so the count is 14 unless the data gives one, whatever the colours. */
  function NewDisco(maxColors: int, atOnce: int, numColorParts: Option<int>, displacementList: Option<seq<string>>): (d: Disco)
    ensures d.maxColors == maxColors && d.maxColorsAtOnce == atOnce
    ensures d.numColorParts == (if numColorParts.Some? then numColorParts.value else 14)
    ensures displacementList.None? ==> d.displacementList == DisplacementList()
    ensures displacementList.Some? ==> d.displacementList == displacementList.value
  {
    Disco(maxColors, atOnce, if numColorParts.Some? then numColorParts.value else 14,
          if displacementList.Some? then displacementList.value else DefaultDisplacements)
  }

  /** The class with the count derived from the colours, as `__post_init__` means it to be:
      ZeroDivisionError when no colours fit at once, otherwise the fewest parts that cover
      them. */
  function NewDiscoIntended(maxColors: int, atOnce: int, displacementList: Option<seq<string>>): (r: Result<Disco>)
    ensures r.Err? <==> atOnce == 0
    ensures r.Ok? ==> r.value.displacementList == NewDisco(maxColors, atOnce, None, displacementList).displacementList
    ensures atOnce > 0 ==> r.Ok? && r.value.numColorParts * atOnce >= maxColors > (r.value.numColorParts - 1) * atOnce
  {
    var parts :- ColorParts(maxColors, atOnce);
    Ok(Disco(maxColors, atOnce, parts, NewDisco(maxColors, atOnce, None, displacementList).displacementList))
  }

  /** For 3325 colours, 256 at a time, the class keeps 14 parts where the formula gives 13. */
  lemma ColorPartsIgnored()
    ensures NewDisco(3325, 256, None, None).numColorParts == 14
    ensures ColorParts(3325, 256) == Ok(13)
    ensures NewDiscoIntended(3325, 256, None).Ok? && NewDiscoIntended(3325, 256, None).value.numColorParts == 13
  {
  }
}
