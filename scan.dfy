/** Deterministic scanners for the pieces the ensemble-tag regexes are built from:
    literal text, runs of characters of one class (`[0-9]+`, `[0-9]{n}`, `[0-9\.]+`,
    `[0-9\.\-]+`) and decimal numbers (`-?[0-9]+\.[0-9]+`, `[0-9]+\.[0-9]{3}`, ...).

    In every tag regex a variable-length run is followed by a literal whose first
    character cannot continue the run, so the regex engine's greedy choice is the
    only one that can succeed; each scanner therefore takes the longest run and
    never backtracks. Every scanner states what it consumed (soundness) and has a
    lemma saying it consumes exactly a well-formed piece followed by anything that
    stops the run (completeness). */
module Scan {
  import opened Py

  datatype CharClass =
    | Digit         // [0-9]
    | DigitDot      // [0-9\.]
    | DigitDotDash  // [0-9\.\-]

  predicate InClass(cls: CharClass, c: char)
  {
    match cls
    case Digit => IsDigit(c)
    case DigitDot => IsDigit(c) || c == '.'
    case DigitDotDash => IsDigit(c) || c == '.' || c == '-'
  }

  predicate AllIn(cls: CharClass, s: string)
  {
    forall i {:trigger InClass(cls, s[i])} :: 0 <= i < |s| ==> InClass(cls, s[i])
  }

  /** A repetition count: `+` or `{n}`. */
  datatype Quant = Plus | Exactly(n: nat)

  predicate QuantOk(q: Quant, n: nat)
  {
    match q
    case Plus => n >= 1
    case Exactly(k) => n == k
  }

  /** `v` is text that `[cls]q` matches in full. */
  predicate RunFits(cls: CharClass, q: Quant, v: string)
  {
    QuantOk(q, |v|) && AllIn(cls, v)
  }

  /** What follows a run lets a greedy `+` stop exactly there; `{n}` needs nothing. */
  predicate Stops(cls: CharClass, q: Quant, rest: string)
  {
    q.Plus? ==> rest == [] || !InClass(cls, rest[0])
  }

  /** A split of the input into the part a scanner consumed and the rest. */
  datatype Cut<T> = Cut(taken: T, rest: string)

  /** Length of the longest prefix of `s` made of `cls` characters. */
  function RunLength(cls: CharClass, s: string): (n: nat)
    ensures n <= |s| && AllIn(cls, s[..n])
    ensures n < |s| ==> !InClass(cls, s[n])
  {
    if s == [] || !InClass(cls, s[0]) then 0
    else
      var m := RunLength(cls, s[1..]);
      assert s[..m + 1] == [s[0]] + s[1..][..m];
      m + 1
  }

  /** `[cls]q` at the start of `s`. */
  function ScanRun(cls: CharClass, q: Quant, s: string): (r: Option<Cut<string>>)
    ensures r.Some? ==> r.value.taken + r.value.rest == s
    ensures r.Some? ==> AllIn(cls, r.value.taken)
    ensures r.Some? ==> QuantOk(q, |r.value.taken|)
    ensures r.Some? ==> Stops(cls, q, r.value.rest)
  {
    match q
    case Plus =>
      var n := RunLength(cls, s);
      assert s == s[..n] + s[n..];
      if n >= 1 then Some(Cut(s[..n], s[n..])) else None
    case Exactly(k) =>
      if k <= |s| && AllIn(cls, s[..k]) then
        assert s == s[..k] + s[k..];
        Some(Cut(s[..k], s[k..]))
      else None
  }

  lemma {:induction false} RunLengthOf(cls: CharClass, v: string, rest: string)
    requires AllIn(cls, v)
    requires rest == [] || !InClass(cls, rest[0])
    ensures RunLength(cls, v + rest) == |v|
  {
    if v != [] {
      assert (v + rest)[1..] == v[1..] + rest;
      RunLengthOf(cls, v[1..], rest);
    }
  }

  lemma ScanRunComplete(cls: CharClass, q: Quant, v: string, rest: string)
    requires RunFits(cls, q, v) && Stops(cls, q, rest)
    ensures ScanRun(cls, q, v + rest) == Some(Cut(v, rest))
  {
    var s := v + rest;
    assert s[..|v|] == v && s[|v|..] == rest;
    if q.Plus? {
      RunLengthOf(cls, v, rest);
    }
  }

  /** A literal at the start of `s`. */
  function ScanLit(lit: string, s: string): (r: Option<string>)
    ensures r.Some? <==> lit <= s
    ensures r.Some? ==> s == lit + r.value
  {
    if lit <= s then
      assert s == s[..|lit|] + s[|lit|..];
      Some(s[|lit|..])
    else None
  }

  lemma ScanLitComplete(lit: string, rest: string)
    ensures ScanLit(lit, lit + rest) == Some(rest)
  {
    assert (lit + rest)[..|lit|] == lit;
    assert (lit + rest)[|lit|..] == rest;
  }

  lemma Regroup(a: string, b: string, c: string, d: string)
    ensures a + (b + (c + d)) == a + b + c + d
  {
  }

  /** A decimal number: an optional minus sign, digits, a point, digits. */
  datatype Dec = Dec(neg: bool, whole: string, frac: string)

  function DecText(d: Dec): string
  {
    (if d.neg then "-" else "") + d.whole + "." + d.frac
  }

  /** `d` is what `-?[0-9]w\.[0-9]f` (or, unsigned, `[0-9]w\.[0-9]f`) matches. */
  predicate DecFits(signed: bool, w: Quant, f: Quant, d: Dec)
  {
    (d.neg ==> signed) && RunFits(Digit, w, d.whole) && RunFits(Digit, f, d.frac)
  }

  /** `[0-9]w\.[0-9]f` at the start of `s`: the digits before and after the point. */
  function ScanPoint(w: Quant, f: Quant, s: string): (r: Option<Cut<(string, string)>>)
    ensures r.Some? ==> r.value.taken.0 + "." + r.value.taken.1 + r.value.rest == s
    ensures r.Some? ==> AllIn(Digit, r.value.taken.0) && AllIn(Digit, r.value.taken.1)
    ensures r.Some? ==> QuantOk(w, |r.value.taken.0|) && QuantOk(f, |r.value.taken.1|)
    ensures r.Some? ==> Stops(Digit, f, r.value.rest)
  {
    match ScanRun(Digit, w, s)
    case None => None
    case Some(whole) =>
      match ScanLit(".", whole.rest)
      case None => None
      case Some(afterDot) =>
        match ScanRun(Digit, f, afterDot)
        case None => None
        case Some(frac) =>
          Regroup(whole.taken, ".", frac.taken, frac.rest);
          Some(Cut((whole.taken, frac.taken), frac.rest))
  }

  lemma ScanPointComplete(w: Quant, f: Quant, whole: string, frac: string, rest: string)
    requires RunFits(Digit, w, whole) && RunFits(Digit, f, frac) && Stops(Digit, f, rest)
    ensures ScanPoint(w, f, whole + "." + frac + rest) == Some(Cut((whole, frac), rest))
  {
    var afterWhole := "." + (frac + rest);
    assert afterWhole[0] == '.';
    Regroup(whole, ".", frac, rest);
    ScanRunComplete(Digit, w, whole, afterWhole);
    ScanLitComplete(".", frac + rest);
    ScanRunComplete(Digit, f, frac, rest);
  }

  /** `sign + rest` regrouped the way DecText groups it. */
  lemma Regroup5(a: string, b: string, c: string, d: string, e: string)
    ensures a + (((b + c) + d) + e) == (((a + b) + c) + d) + e
  {
  }

  lemma DropFirst(c: char, u: string)
    ensures ([c] + u)[1..] == u
  {
  }

  /** A decimal number at the start of `s`. */
  function ScanDec(signed: bool, w: Quant, f: Quant, s: string): (r: Option<Cut<Dec>>)
    ensures r.Some? ==> DecText(r.value.taken) + r.value.rest == s
    ensures r.Some? ==> DecFits(signed, w, f, r.value.taken)
    ensures r.Some? ==> Stops(Digit, f, r.value.rest)
  {
    var neg := signed && |s| > 0 && s[0] == '-';
    var unsigned := if neg then s[1..] else s;
    match ScanPoint(w, f, unsigned)
    case None => None
    case Some(p) =>
      var d := Dec(neg, p.taken.0, p.taken.1);
      SignSplit(neg, s);
      Regroup5(if neg then "-" else "", p.taken.0, ".", p.taken.1, p.rest);
      Some(Cut(d, p.rest))
  }

  lemma SignSplit(neg: bool, s: string)
    requires neg ==> |s| > 0 && s[0] == '-'
    ensures s == (if neg then "-" else "") + (if neg then s[1..] else s)
  {
    if neg {
      assert s == [s[0]] + s[1..];
    }
  }

  /** The text of a decimal starts with '-' exactly when it is negative; after the sign
      comes the unsigned text. */
  lemma DecTextSign(d: Dec, rest: string)
    requires d.whole == [] || IsDigit(d.whole[0])
    ensures var s := DecText(d) + rest;
      var unsigned := d.whole + "." + d.frac + rest;
      (d.neg <==> |s| > 0 && s[0] == '-') &&
      (if d.neg then s[1..] else s) == unsigned
  {
    var sign := if d.neg then "-" else "";
    var unsigned := d.whole + "." + d.frac + rest;
    var s := DecText(d) + rest;
    Regroup5(sign, d.whole, ".", d.frac, rest);
    assert s == sign + unsigned;
    if d.neg {
      DropFirst('-', unsigned);
    } else {
      assert s == unsigned;
      assert s[0] == (d.whole + ".")[0];
      if d.whole == [] {
        assert d.whole + "." == ".";
      }
    }
  }

  lemma ScanDecComplete(signed: bool, w: Quant, f: Quant, d: Dec, rest: string)
    requires DecFits(signed, w, f, d) && Stops(Digit, f, rest)
    ensures ScanDec(signed, w, f, DecText(d) + rest) == Some(Cut(d, rest))
  {
    if d.whole != [] {
      assert InClass(Digit, d.whole[0]);
    }
    DecTextSign(d, rest);
    ScanPointComplete(w, f, d.whole, d.frac, rest);
  }
}
