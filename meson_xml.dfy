/** scripts/yml_to_xml/meson_xml.py: the momentum and displacement lists of the meson
    contractions, and the defaults the `Meson` model gives the same two fields. */
module MesonXml {
  import opened Py
  import opened Momenta

  /** The momenta the list writes: zero, then one unit either way along x. */
  const MesonMoms: seq<Mom> := [Mom(0, 0, 0), Mom(1, 0, 0), Mom(-1, 0, 0)]

  /** `_gen_mom_list()`. */
  function GenMomList(): (r: seq<string>)
    ensures Writes(r, MesonMoms)
  {
    var r := ["0 0 0", "1 0 0", "-1 0 0"];
    MomListWrites(r);
    r
  }

  /** The three texts write the three momenta, entry by entry. */
  lemma MomListWrites(r: seq<string>)
    requires r == ["0 0 0", "1 0 0", "-1 0 0"]
    ensures Writes(r, MesonMoms)
  {
    assert IntToString(0) == "0";
    assert IntToString(1) == "1";
    assert IntToString(-1) == "-1";
    assert r[0] == MomText(MesonMoms[0]);
    assert r[1] == MomText(MesonMoms[1]);
    assert r[2] == MomText(MesonMoms[2]);
  }

  /** The momenta are closed under negation, have no repeats, and every one other than zero
      is one unit along a single axis. */
  lemma MesonMomsShape()
    ensures ClosedUnderNeg(MesonMoms) && NoDups(MesonMoms)
    ensures forall m | m in MesonMoms :: m == Mom(0, 0, 0) || (OnAxis(m) && Reach(m) == 1)
  {
    forall m | m in MesonMoms
      ensures Mom(-m.x, -m.y, -m.z) in MesonMoms
    {
      if m == MesonMoms[1] {
        assert Mom(-m.x, -m.y, -m.z) == MesonMoms[2];
      } else if m == MesonMoms[2] {
        assert Mom(-m.x, -m.y, -m.z) == MesonMoms[1];
      } else {
        assert Mom(-m.x, -m.y, -m.z) == MesonMoms[0];
      }
    }
  }

  /** Each entry of `_gen_mom_list()` reads back as its momentum, and no entry repeats. */
  lemma MomListReads(k: nat)
    requires k < |GenMomList()|
    ensures ParseMom(GenMomList()[k]) == Some(MesonMoms[k])
    ensures NoDups(GenMomList())
  {
    WritesParse(GenMomList(), MesonMoms, k);
    MesonMomsShape();
    WritesNoDups(GenMomList(), MesonMoms);
  }

  /** The displacements the list writes: none, and one step along direction 1. */
  const MesonDisps: seq<seq<int>> := [[], [1]]

  /** `_displacement_list()`. */
  function DisplacementList(): (r: seq<string>)
    ensures WritesDisps(r, MesonDisps)
  {
    ["", "1"]
  }

  /** The fields of `Meson` that have defaults. */
  datatype MesonLists = MesonLists(momentumList: seq<string>, displacementList: seq<string>)

  /** The field defaults as the class declares them, written out separately from the two
      functions. */
  const MesonDefaults: MesonLists := MesonLists(["0 0 0", "1 0 0", "-1 0 0"], ["", "1"])

  /** A `Meson` built from the template data: a list the data gives wins over the default. */
  function NewMeson(momentumList: Option<seq<string>>, displacementList: Option<seq<string>>): (m: MesonLists)
    ensures momentumList.None? ==> m.momentumList == GenMomList()
    ensures displacementList.None? ==> m.displacementList == DisplacementList()
    ensures momentumList.Some? ==> m.momentumList == momentumList.value
    ensures displacementList.Some? ==> m.displacementList == displacementList.value
  {
    MesonLists(if momentumList.Some? then momentumList.value else MesonDefaults.momentumList,
               if displacementList.Some? then displacementList.value else MesonDefaults.displacementList)
  }
}
