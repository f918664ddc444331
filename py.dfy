/** The pieces of Python's semantics that the job-file scripts rely on:
    exceptions as results, `range`, `str(int)`, `int(str)`, `format(n, '02d')`,
    `str.split`, `str.lower`, `in` on strings, `list(dict.fromkeys(xs))`,
    `os.path.join`, `round(a / b)` and `//`. */
module Py {

  datatype Option<T> = None | Some(value: T) {
    predicate IsFailure() { None? }
    function PropagateFailure<U>(): Option<U> requires None? { None }
    function Extract(): T requires Some? { value }
  }

  /** The exceptions the modelled scripts raise (or catch). */
  datatype PyError =
    | ValueError(msg: string)
    | KeyError(key: string)
    | NameError(name: string)
    | TypeError(msg: string)
    | IndexError(msg: string)
    | ZeroDivisionError
    | TemplateError(obj: string)  // whatever Jinja2 raises while rendering the template of `obj`

  datatype Result<T> = Ok(value: T) | Err(error: PyError) {
    predicate IsFailure() { Err? }
    function PropagateFailure<U>(): Result<U> requires Err? { Err(error) }
    function Extract(): T requires Ok? { value }
  }

  /** A value stored in one of the scripts' dictionaries: a string, an int, or None. */
  datatype Value = Str(s: string) | Int(i: int) | PyNone

  /** How an f-string shows a value: a string as it is, an int as `str` writes it. */
  function Show(v: Value): string
  {
    match v
    case Str(s) => s
    case Int(i) => IntToString(i)
    case PyNone => "None"
  }

  /** `type(v).__name__`, as TypeError messages quote it. */
  function TypeName(v: Value): string
  {
    match v
    case Str(_) => "str"
    case Int(_) => "int"
    case PyNone => "NoneType"
  }

  // ---------------------------------------------------------------- range

  /** `range(start, stop, step)` for a non-zero step. */
  function Range(start: int, stop: int, step: int): (r: seq<int>)
    requires step != 0
    ensures |r| > 0 ==> r[0] == start
    decreases if step > 0 then stop - start else start - stop
  {
    if (step > 0 && start < stop) || (step < 0 && start > stop) then
      [start] + Range(start + step, stop, step)
    else
      []
  }

  /** The k-th element of a range is start + k * step. */
  lemma {:induction false} RangeValues(start: int, stop: int, step: int)
    requires step != 0
    ensures forall k :: 0 <= k < |Range(start, stop, step)| ==> Range(start, stop, step)[k] == start + k * step
    decreases if step > 0 then stop - start else start - stop
  {
    var r := Range(start, stop, step);
    if |r| > 0 {
      var rest := Range(start + step, stop, step);
      RangeValues(start + step, stop, step);
      forall k | 1 <= k < |r|
        ensures r[k] == start + k * step
      {
        assert (k - 1) * step == k * step - step;
        assert r[k] == rest[k - 1];
      }
    }
  }

  /** A range stops at the first value that reaches `stop`: all its elements are on the near side
      of `stop`, and the next one would not be. */
  lemma {:induction false} RangeBounds(start: int, stop: int, step: int)
    requires step != 0
    ensures var r := Range(start, stop, step);
      (step > 0 ==> (forall k :: 0 <= k < |r| ==> r[k] < stop) && start + |r| * step >= stop) &&
      (step < 0 ==> (forall k :: 0 <= k < |r| ==> r[k] > stop) && start + |r| * step <= stop)
    decreases if step > 0 then stop - start else start - stop
  {
    var r := Range(start, stop, step);
    if |r| > 0 {
      var rest := Range(start + step, stop, step);
      RangeBounds(start + step, stop, step);
      assert r == [start] + rest;
      assert |r| * step == |rest| * step + step;
    }
  }

  /** A range never repeats a value. */
  lemma RangeNoDups(start: int, stop: int, step: int)
    requires step != 0
    ensures NoDups(Range(start, stop, step))
  {
    var r := Range(start, stop, step);
    RangeValues(start, stop, step);
    forall k, l | 0 <= k < l < |r|
      ensures r[k] != r[l]
    {
      assert r[l] - r[k] == (l - k) * step;
      assert (l - k) * step != 0;
    }
  }

  /** `range(start, stop, step)`, which raises ValueError for a zero step. */
  function PyRange(start: int, stop: int, step: int): (r: Result<seq<int>>)
    ensures r.Err? <==> step == 0
    ensures r.Ok? ==> r.value == Range(start, stop, step)
  {
    if step == 0 then Err(ValueError("range() arg 3 must not be zero")) else Ok(Range(start, stop, step))
  }

  // ------------------------------------------------------- integers as text

  predicate IsDigit(c: char) { '0' <= c <= '9' }

  predicate AllDigits(s: string) { forall i :: 0 <= i < |s| ==> IsDigit(s[i]) }

  function DigitChar(d: int): (c: char)
    requires 0 <= d < 10
    ensures IsDigit(c) && c as int - '0' as int == d
  {
    ('0' as int + d) as char
  }

  /** `int(s)` for a string of ASCII digits. */
  function DigitsValue(s: string): nat
    requires AllDigits(s)
  {
    if s == [] then 0
    else
      assert IsDigit(s[|s| - 1]);
      10 * DigitsValue(s[..|s| - 1]) + (s[|s| - 1] as int - '0' as int)
  }

  /** `str(n)` for a non-negative n: decimal digits without leading zeros. */
  function NatToString(n: nat): (s: string)
    ensures |s| >= 1 && AllDigits(s)
    ensures n >= 10 ==> |s| >= 2 && s[0] != '0'
  {
    if n < 10 then [DigitChar(n)] else NatToString(n / 10) + [DigitChar(n % 10)]
  }

  lemma {:induction false} NatToStringRoundTrip(n: nat)
    ensures DigitsValue(NatToString(n)) == n
  {
    if n >= 10 {
      var s := NatToString(n);
      NatToStringRoundTrip(n / 10);
      assert s[..|s| - 1] == NatToString(n / 10);
    }
  }

  /** Digits as `str` writes them: no leading zero unless the number is 0. */
  predicate Canonical(s: string)
  {
    |s| >= 1 && AllDigits(s) && (|s| == 1 || s[0] != '0')
  }

  lemma {:induction false} LeadingDigitValue(s: string)
    requires |s| >= 1 && AllDigits(s) && s[0] != '0'
    ensures DigitsValue(s) >= 1
  {
    if |s| > 1 {
      var p := s[..|s| - 1];
      assert p[0] == s[0];
      LeadingDigitValue(p);
    }
  }

  /** `str(int(s)) == s` for digits without a leading zero. */
  lemma {:induction false} CanonicalRoundTrip(s: string)
    requires Canonical(s)
    ensures NatToString(DigitsValue(s)) == s
  {
    var last := s[|s| - 1];
    var d := last as int - '0' as int;
    assert IsDigit(last);
    assert DigitChar(d) == last;
    if |s| == 1 {
      assert s == [last];
    } else {
      var p := s[..|s| - 1];
      assert p[0] == s[0];
      LeadingDigitValue(p);
      CanonicalRoundTrip(p);
      var n := DigitsValue(s);
      assert n / 10 == DigitsValue(p) && n % 10 == d;
      assert s == p + [last];
    }
  }

  /** `str(n)`. */
  function IntToString(n: int): string
  {
    if n < 0 then "-" + NatToString(-n) else NatToString(n)
  }

  /** `int(s)` for the strings the scripts convert: an optional '-' and ASCII digits. */
  function ParseInt(s: string): Option<int>
  {
    if |s| > 0 && s[0] == '-' then
      if |s| > 1 && AllDigits(s[1..]) then Some(-(DigitsValue(s[1..]) as int)) else None
    else if |s| > 0 && AllDigits(s) then Some(DigitsValue(s))
    else None
  }

  lemma IntToStringRoundTrip(n: int)
    ensures ParseInt(IntToString(n)) == Some(n)
  {
    var m: nat := if n < 0 then -n else n;
    var digits := NatToString(m);
    NatToStringRoundTrip(m);
    if n < 0 {
      assert IntToString(n) == "-" + digits;
      ParseNegative(digits);
    } else {
      assert IntToString(n) == digits;
      ParseNonNegative(digits);
    }
  }

  lemma ParseNonNegative(digits: string)
    requires |digits| >= 1 && AllDigits(digits)
    ensures ParseInt(digits) == Some(DigitsValue(digits))
  {
    assert IsDigit(digits[0]);
  }

  lemma ParseNegative(digits: string)
    requires |digits| >= 1 && AllDigits(digits)
    ensures ParseInt("-" + digits) == Some(-(DigitsValue(digits) as int))
  {
    var s := "-" + digits;
    assert s[0] == '-' && s[1..] == digits;
  }

  /** `f'{n:02d}'`: zero-padded to at least two characters (the sign counts). */
  function Pad2(n: int): (s: string)
    ensures |s| >= 2
    ensures ParseInt(s) == Some(n)
  {
    IntToStringRoundTrip(n);
    if 0 <= n < 10 then
      var s := "0" + NatToString(n);
      assert DigitsValue(s) == DigitsValue(s[..1]) * 10 + n;
      s
    else
      IntToString(n)
  }

  lemma Pad2Injective(a: int, b: int)
    requires Pad2(a) == Pad2(b)
    ensures a == b
  {
  }

  // ----------------------------------------------------------- substrings

  /** `s.startswith(prefix)`. */
  predicate StartsWith(s: string, prefix: string) { prefix <= s }

  /** `sub in s` for strings. */
  predicate Contains(s: string, sub: string)
  {
    exists i | 0 <= i <= |s| - |sub| :: OccursAt(s, sub, i)
  }

  predicate OccursAt(s: string, sub: string, i: int)
  {
    0 <= i <= |s| - |sub| && s[i..i + |sub|] == sub
  }

  /** Every character of a substring occurs in the string. */
  lemma ContainsChar(s: string, sub: string, i: nat)
    requires Contains(s, sub) && i < |sub|
    ensures sub[i] in s
  {
    var k :| 0 <= k <= |s| - |sub| && OccursAt(s, sub, k);
    assert s[k + i] == s[k..k + |sub|][i];
  }

  /** `s.split(c)` for a one-character separator. */
  function Split(s: string, c: char): (parts: seq<string>)
    ensures |parts| >= 1
    ensures forall k :: 0 <= k < |parts| ==> c !in parts[k]
    ensures forall k, x :: 0 <= k < |parts| && x in parts[k] ==> x in s
    ensures JoinWith([c], parts) == s
    decreases |s|
  {
    if c !in s then [s]
    else
      var i := IndexOf(s, c);
      var rest := Split(s[i + 1..], c);
      assert s == s[..i] + [c] + s[i + 1..];
      [s[..i]] + rest
  }

  function IndexOf(s: string, c: char): (i: nat)
    requires c in s
    ensures i < |s| && s[i] == c && c !in s[..i]
  {
    if s[0] == c then 0 else 1 + IndexOf(s[1..], c)
  }

  lemma {:induction false} IndexOfAfter(p: string, c: char, rest: string)
    requires c !in p
    ensures IndexOf(p + [c] + rest, c) == |p|
  {
    if p != [] {
      assert (p + [c] + rest)[1..] == p[1..] + [c] + rest;
      IndexOfAfter(p[1..], c, rest);
    }
  }

  /** Splitting at the first separator: the text before it, then the pieces of the rest. */
  lemma SplitFirst(p: string, c: char, rest: string)
    requires c !in p
    ensures Split(p + [c] + rest, c) == [p] + Split(rest, c)
  {
    var s := p + [c] + rest;
    IndexOfAfter(p, c, rest);
    assert s[..|p|] == p && s[|p| + 1..] == rest;
  }

  /** The first piece of a split is the text up to the first separator. */
  lemma SplitHead(p: string, c: char, rest: string)
    requires c !in p && (rest == [] || rest[0] == c)
    ensures Split(p + rest, c)[0] == p
  {
    if rest == [] {
      assert p + rest == p;
    } else {
      assert p + rest == p + [c] + rest[1..];
      SplitFirst(p, c, rest[1..]);
    }
  }

  /** `sep.join(parts)`. */
  function JoinWith(sep: string, parts: seq<string>): string
  {
    if |parts| == 0 then "" else if |parts| == 1 then parts[0] else parts[0] + sep + JoinWith(sep, parts[1..])
  }

  /** Joining pieces that do not contain the separator and splitting again gives the pieces back. */
  lemma {:induction false} SplitJoin(parts: seq<string>, c: char)
    requires |parts| >= 1
    requires forall k :: 0 <= k < |parts| ==> c !in parts[k]
    ensures Split(JoinWith([c], parts), c) == parts
  {
    var s := JoinWith([c], parts);
    if |parts| == 1 {
      assert parts == [parts[0]];
    } else {
      var tail := JoinWith([c], parts[1..]);
      assert s == parts[0] + [c] + tail;
      IndexOfAfter(parts[0], c, tail);
      assert s[..|parts[0]|] == parts[0];
      assert s[|parts[0]| + 1..] == tail;
      assert parts == [parts[0]] + parts[1..];
      SplitJoin(parts[1..], c);
    }
  }

  /** `s.lower()` on ASCII letters. */
  function Lower(s: string): (r: string)
    ensures |r| == |s|
    ensures forall i :: 0 <= i < |s| ==> r[i] == (if 'A' <= s[i] <= 'Z' then (s[i] as int + 32) as char else s[i])
  {
    if s == [] then [] else [if 'A' <= s[0] <= 'Z' then (s[0] as int + 32) as char else s[0]] + Lower(s[1..])
  }

  // ------------------------------------------------------- dict displays

  /** `{k0: v0, k1: v1, ...}`: the entries are stored left to right, so a key written
      twice keeps the value of its last entry. */
  function DictOf<K(==,!new), V>(entries: seq<(K, V)>): (m: map<K, V>)
    ensures forall k :: k in m <==> exists i | 0 <= i < |entries| :: entries[i].0 == k
  {
    if entries == [] then map[]
    else
      var n := |entries| - 1;
      var m := DictOf(entries[..n]);
      assert forall i | 0 <= i < n :: entries[..n][i] == entries[i];
      m[entries[n].0 := entries[n].1]
  }

  /** Every value in the dict is the value of an entry with its key. */
  lemma {:induction false} DictOfValue<K(!new), V>(entries: seq<(K, V)>, k: K)
    requires k in DictOf(entries)
    ensures exists i | 0 <= i < |entries| :: entries[i] == (k, DictOf(entries)[k])
  {
    var n := |entries| - 1;
    if entries[n].0 != k {
      DictOfValue(entries[..n], k);
      var i :| 0 <= i < n && entries[..n][i] == (k, DictOf(entries[..n])[k]);
      assert entries[i] == entries[..n][i];
    }
  }

  /** The value of a key is the value of its last entry. */
  lemma {:induction false} DictOfLast<K(!new), V>(entries: seq<(K, V)>, i: nat)
    requires i < |entries|
    requires forall j | i < j < |entries| :: entries[j].0 != entries[i].0
    ensures entries[i].0 in DictOf(entries) && DictOf(entries)[entries[i].0] == entries[i].1
  {
    var n := |entries| - 1;
    if i < n {
      var pre := entries[..n];
      assert pre[i] == entries[i];
      forall j | i < j < n
        ensures pre[j].0 != pre[i].0
      {
        assert pre[j] == entries[j];
      }
      DictOfLast(pre, i);
      assert DictOf(entries) == DictOf(pre)[entries[n].0 := entries[n].1];
    }
  }

  // ------------------------------------------------------ dict.fromkeys

  predicate NoDups<T(==)>(xs: seq<T>)
  {
    forall i, j :: 0 <= i < j < |xs| ==> xs[i] != xs[j]
  }

  /** Position of the first occurrence of x in xs. */
  function FirstIndex<T(==)>(xs: seq<T>, x: T): (i: nat)
    requires x in xs
    ensures i < |xs| && xs[i] == x && x !in xs[..i]
  {
    if xs[0] == x then 0 else 1 + FirstIndex(xs[1..], x)
  }

  /** `list(dict.fromkeys(xs))`: each element once, in the order of first occurrence. */
  function Dedup<T(==,!new)>(xs: seq<T>): (r: seq<T>)
    ensures forall x :: x in r <==> x in xs
    ensures NoDups(r)
  {
    if xs == [] then []
    else
      var d := Dedup(xs[..|xs| - 1]);
      var last := xs[|xs| - 1];
      assert xs == xs[..|xs| - 1] + [last];
      if last in d then d else d + [last]
  }

  /** Deduplicating one more element keeps it only when it is new. */
  lemma DedupSnoc<T(!new)>(xs: seq<T>, x: T)
    ensures Dedup(xs + [x]) == if x in xs then Dedup(xs) else Dedup(xs) + [x]
  {
    assert (xs + [x])[..|xs|] == xs;
  }

  /** Flat-mapping two elements is their images one after the other. */
  lemma FlatMapTwo<T, U>(f: T -> seq<U>, a: T, b: T)
    ensures FlatMap(f, [a, b]) == f(a) + f(b)
  {
    assert [a, b][..1] == [a] && [a][..0] == [];
    assert FlatMap(f, [a]) == [] + f(a) == f(a);
  }

  lemma FirstIndexInPrefix<T>(xs: seq<T>, n: nat, x: T)
    requires n <= |xs| && x in xs[..n]
    ensures FirstIndex(xs, x) == FirstIndex(xs[..n], x)
  {
    var i := FirstIndex(xs, x);
    var j := FirstIndex(xs[..n], x);
    assert xs[..n][..j] == xs[..j];
    assert forall k :: 0 <= k < j ==> xs[..j][k] != x;
    assert forall k :: 0 <= k < i ==> xs[..i][k] != x;
  }

  /** Dedup keeps the order in which elements first occur. */
  lemma {:induction false} DedupFirstOccurrenceOrder<T(!new)>(xs: seq<T>, i: nat, j: nat)
    requires i < j < |Dedup(xs)|
    ensures FirstIndex(xs, Dedup(xs)[i]) < FirstIndex(xs, Dedup(xs)[j])
  {
    var n := |xs| - 1;
    var pre := xs[..n];
    var d := Dedup(pre);
    var r := Dedup(xs);
    assert xs == pre + [xs[n]];
    if j < |d| {
      DedupFirstOccurrenceOrder(pre, i, j);
      FirstIndexInPrefix(xs, n, d[i]);
      FirstIndexInPrefix(xs, n, d[j]);
    } else {
      assert r[j] == xs[n] && xs[n] !in pre;
      FirstIndexInPrefix(xs, n, d[i]);
      assert FirstIndex(xs, xs[n]) == n;
    }
  }

  /** A list without repetitions is its own Dedup. */
  lemma {:induction false} DedupOfDistinct<T(!new)>(xs: seq<T>)
    requires NoDups(xs)
    ensures Dedup(xs) == xs
  {
    if xs != [] {
      var pre := xs[..|xs| - 1];
      DedupOfDistinct(pre);
      assert xs[|xs| - 1] !in pre;
      assert xs == pre + [xs[|xs| - 1]];
    }
  }

  // ------------------------------------------------------ list.extend loops

  /** A list built by `out.extend(f(x))` for each x in turn. */
  function FlatMap<T, U>(f: T -> seq<U>, xs: seq<T>): seq<U>
  {
    if xs == [] then [] else FlatMap(f, xs[..|xs| - 1]) + f(xs[|xs| - 1])
  }

  /** An element is in the list exactly when one of the extensions added it. */
  lemma {:induction false} FlatMapMembers<T, U>(f: T -> seq<U>, xs: seq<T>, y: U)
    ensures y in FlatMap(f, xs) <==> exists i | 0 <= i < |xs| :: y in f(xs[i])
  {
    if xs != [] {
      var n := |xs| - 1;
      var pre := xs[..n];
      FlatMapMembers(f, pre, y);
      assert FlatMap(f, xs) == FlatMap(f, pre) + f(xs[n]);
      if y in FlatMap(f, pre) {
        var i :| 0 <= i < n && y in f(pre[i]);
        assert pre[i] == xs[i];
      }
      if i :| 0 <= i < |xs| && y in f(xs[i]) {
        if i < n {
          assert pre[i] == xs[i];
        }
      }
    }
  }

  // --------------------------------------------------------------- paths

  predicate SlashFree(s: string) { '/' !in s }

  /** `os.path.join(a, b)` (posixpath). */
  function PathJoin(a: string, b: string): (p: string)
    ensures |b| > 0 && b[0] == '/' ==> p == b
    ensures |b| <= |p| && p[|p| - |b|..] == b
  {
    if |b| > 0 && b[0] == '/' then b
    else if a == "" || a[|a| - 1] == '/' then a + b
    else a + "/" + b
  }

  /** The text after the last '/' of a path (all of it when there is none). */
  function AfterLastSlash(p: string): (f: string)
    ensures SlashFree(f)
  {
    if p == [] || p[|p| - 1] == '/' then [] else AfterLastSlash(p[..|p| - 1]) + [p[|p| - 1]]
  }

  lemma {:induction false} AfterLastSlashJoin(x: string, f: string)
    requires SlashFree(f)
    ensures AfterLastSlash(x + "/" + f) == f
  {
    if f != [] {
      var p := x + "/" + f;
      assert p[..|p| - 1] == x + "/" + f[..|f| - 1];
      AfterLastSlashJoin(x, f[..|f| - 1]);
    }
  }

  /** Two paths that end in slash-free names after a '/' are equal only if the names are. */
  lemma SameLastComponent(x: string, f1: string, y: string, f2: string)
    requires SlashFree(f1) && SlashFree(f2)
    requires x + "/" + f1 == y + "/" + f2
    ensures f1 == f2
  {
    AfterLastSlashJoin(x, f1);
    AfterLastSlashJoin(y, f2);
  }

  /** Joining a slash-free name onto a directory that does not end in '/' inserts one '/'. */
  lemma PathJoinName(a: string, b: string)
    requires a != "" && a[|a| - 1] != '/'
    requires b != "" && b[0] != '/'
    ensures PathJoin(a, b) == a + "/" + b
  {
  }

  // ------------------------------------------------------------ arithmetic

  /** `a // b`: floor division, ZeroDivisionError for b == 0. */
  function FloorDiv(a: int, b: int): (r: Result<int>)
    ensures r.Err? <==> b == 0
    ensures r.Ok? && b > 0 ==> r.value * b <= a < r.value * b + b
    ensures r.Ok? && b < 0 ==> r.value * b >= a > r.value * b + b
  {
    if b == 0 then Err(ZeroDivisionError)
    else if b > 0 then Ok(a / b)
    else Ok((-a) / (-b))
  }

  /** `round(a / b)` for a non-zero b: the nearest integer, ties to the even one. */
  function RoundDiv(a: int, b: int): (k: int)
    requires b != 0
    ensures b > 0 ==> 2 * (a - k * b) <= b && -b <= 2 * (a - k * b)
    ensures b < 0 ==> 2 * (a - k * b) <= -b && b <= 2 * (a - k * b)
    ensures 2 * (a - k * b) == b || 2 * (a - k * b) == -b ==> k % 2 == 0
  {
    var n := if b > 0 then a else -a;
    var d := if b > 0 then b else -b;
    var q := n / d;
    var r := n % d;
    assert n == q * d + r;
    assert a - q * b == (if b > 0 then r else -r);
    assert a - (q + 1) * b == (if b > 0 then r - d else d - r);
    if 2 * r < d then q
    else if 2 * r > d then q + 1
    else if q % 2 == 0 then q
    else q + 1
  }
}
