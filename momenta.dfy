/** The momentum and displacement lists the XML generators hand to their templates. A
    momentum is three integer components written with single spaces between them
    (`"-1 0 0"`); a displacement is a list of link directions written the same way
    (`"1 2"`, or `""` for none). */
module Momenta {
  import opened Py

  datatype Mom = Mom(x: int, y: int, z: int)

  /** How the lists write a momentum. */
  function MomText(m: Mom): string
  {
    IntToString(m.x) + " " + IntToString(m.y) + " " + IntToString(m.z)
  }

  /** Reading a written momentum back: three space-separated integers. */
  function ParseMom(s: string): Option<Mom>
  {
    var parts := Split(s, ' ');
    if |parts| != 3 then None
    else
      var x :- ParseInt(parts[0]);
      var y :- ParseInt(parts[1]);
      var z :- ParseInt(parts[2]);
      Some(Mom(x, y, z))
  }

  /** The written integer has no space in it: it is digits after an optional '-'. */
  lemma IntTextNoSpace(n: int)
    ensures ' ' !in IntToString(n)
  {
    var s := IntToString(n);
    IntToStringRoundTrip(n);
    if s[0] == '-' {
      assert forall i | 1 <= i < |s| :: s[i] == s[1..][i - 1];
    }
  }

  /** The text of a momentum reads back as that momentum. */
  lemma MomTextRoundTrip(m: Mom)
    ensures ParseMom(MomText(m)) == Some(m)
  {
    var a, b, c := IntToString(m.x), IntToString(m.y), IntToString(m.z);
    IntTextNoSpace(m.x);
    IntTextNoSpace(m.y);
    IntTextNoSpace(m.z);
    var parts := [a, b, c];
    assert JoinWith(" ", parts[2..]) == c;
    assert JoinWith(" ", parts[1..]) == b + " " + c;
    assert JoinWith([' '], parts) == MomText(m);
    SplitJoin(parts, ' ');
    IntToStringRoundTrip(m.x);
    IntToStringRoundTrip(m.y);
    IntToStringRoundTrip(m.z);
  }

  /** Different momenta are written differently. */
  lemma MomTextInjective(a: Mom, b: Mom)
    requires MomText(a) == MomText(b)
    ensures a == b
  {
    MomTextRoundTrip(a);
    MomTextRoundTrip(b);
  }

  /** `texts` is the written form of `moms`, entry by entry. */
  predicate Writes(texts: seq<string>, moms: seq<Mom>)
  {
    |texts| == |moms| && forall k | 0 <= k < |texts| :: texts[k] == MomText(moms[k])
  }

  lemma WritesAppend(t1: seq<string>, m1: seq<Mom>, t2: seq<string>, m2: seq<Mom>)
    requires Writes(t1, m1) && Writes(t2, m2)
    ensures Writes(t1 + t2, m1 + m2)
  {
    forall k | 0 <= k < |t1| + |t2|
      ensures (t1 + t2)[k] == MomText((m1 + m2)[k])
    {
      if k >= |t1| {
        assert (t1 + t2)[k] == t2[k - |t1|] && (m1 + m2)[k] == m2[k - |t1|];
      }
    }
  }

  /** Each entry of a written list reads back as the momentum it writes. */
  lemma WritesParse(texts: seq<string>, moms: seq<Mom>, k: nat)
    requires Writes(texts, moms) && k < |texts|
    ensures ParseMom(texts[k]) == Some(moms[k])
  {
    MomTextRoundTrip(moms[k]);
  }

  /** A list written from momenta without repetition has no repeated text. */
  lemma WritesNoDups(texts: seq<string>, moms: seq<Mom>)
    requires Writes(texts, moms) && NoDups(moms)
    ensures NoDups(texts)
  {
    forall i, j | 0 <= i < j < |texts|
      ensures texts[i] != texts[j]
    {
      if texts[i] == texts[j] {
        MomTextInjective(moms[i], moms[j]);
      }
    }
  }

  /** With every momentum, the list holds the opposite one. */
  predicate ClosedUnderNeg(moms: seq<Mom>)
  {
    forall m | m in moms :: Mom(-m.x, -m.y, -m.z) in moms
  }

  /** A momentum along a single axis: at most one component is not zero. */
  predicate OnAxis(m: Mom)
  {
    (m.y == 0 && m.z == 0) || (m.x == 0 && m.z == 0) || (m.x == 0 && m.y == 0)
  }

  /** The size of a momentum along its axis. */
  function Reach(m: Mom): nat
  {
    Abs(m.x) + Abs(m.y) + Abs(m.z)
  }

  function Abs(n: int): nat
  {
    if n < 0 then -n else n
  }

  // ------------------------------------------------------------ displacements

  /** How the lists write a displacement path: its directions, space-separated. */
  function DispText(dirs: seq<int>): string
  {
    if |dirs| == 0 then "" else if |dirs| == 1 then IntToString(dirs[0])
    else IntToString(dirs[0]) + " " + DispText(dirs[1..])
  }

  /** Reading a written displacement back. */
  function ParseDisp(s: string): Option<seq<int>>
  {
    if s == "" then Some([]) else ParseInts(Split(s, ' '))
  }

  function ParseInts(parts: seq<string>): Option<seq<int>>
  {
    if parts == [] then Some([])
    else
      var n :- ParseInt(parts[0]);
      var rest :- ParseInts(parts[1..]);
      Some([n] + rest)
  }

  /** The text of a displacement reads back as that displacement. */
  lemma DispTextRoundTrip(dirs: seq<int>)
    ensures ParseDisp(DispText(dirs)) == Some(dirs)
  {
    if dirs != [] {
      var parts := seq(|dirs|, k requires 0 <= k < |dirs| => IntToString(dirs[k]));
      DispTextJoin(dirs);
      forall k | 0 <= k < |parts|
        ensures ' ' !in parts[k]
      {
        IntTextNoSpace(dirs[k]);
      }
      SplitJoin(parts, ' ');
      IntToStringRoundTrip(dirs[0]);
      assert DispText(dirs) != "" by {
        assert |DispText(dirs)| >= |IntToString(dirs[0])|;
      }
      ParseIntsOf(dirs);
    }
  }

  lemma {:induction false} DispTextJoin(dirs: seq<int>)
    requires dirs != []
    ensures DispText(dirs) == JoinWith([' '], seq(|dirs|, k requires 0 <= k < |dirs| => IntToString(dirs[k])))
    ensures |DispText(dirs)| >= |IntToString(dirs[0])|
  {
    var parts := seq(|dirs|, k requires 0 <= k < |dirs| => IntToString(dirs[k]));
    if |dirs| > 1 {
      DispTextJoin(dirs[1..]);
      assert parts[1..] == seq(|dirs[1..]|, k requires 0 <= k < |dirs[1..]| => IntToString(dirs[1..][k]));
    }
  }

  lemma {:induction false} ParseIntsOf(dirs: seq<int>)
    ensures ParseInts(seq(|dirs|, k requires 0 <= k < |dirs| => IntToString(dirs[k]))) == Some(dirs)
  {
    var parts := seq(|dirs|, k requires 0 <= k < |dirs| => IntToString(dirs[k]));
    if dirs != [] {
      IntToStringRoundTrip(dirs[0]);
      ParseIntsOf(dirs[1..]);
      assert parts[1..] == seq(|dirs[1..]|, k requires 0 <= k < |dirs[1..]| => IntToString(dirs[1..][k]));
      assert dirs == [dirs[0]] + dirs[1..];
    }
  }

  /** Different displacements are written differently. */
  lemma DispTextInjective(a: seq<int>, b: seq<int>)
    requires DispText(a) == DispText(b)
    ensures a == b
  {
    DispTextRoundTrip(a);
    DispTextRoundTrip(b);
  }

  /** `texts` is the written form of `disps`, entry by entry. */
  predicate WritesDisps(texts: seq<string>, disps: seq<seq<int>>)
  {
    |texts| == |disps| && forall k | 0 <= k < |texts| :: texts[k] == DispText(disps[k])
  }

  lemma WritesDispsNoDups(texts: seq<string>, disps: seq<seq<int>>)
    requires WritesDisps(texts, disps) && NoDups(disps)
    ensures NoDups(texts)
  {
    forall i, j | 0 <= i < j < |texts|
      ensures texts[i] != texts[j]
    {
      if texts[i] == texts[j] {
        DispTextInjective(disps[i], disps[j]);
      }
    }
  }
}
