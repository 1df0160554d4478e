/** Python `str` operations the system relies on, over `seq<char>`:
    `in`, `find`, `split`, `strip`, clamped slicing, `startswith`,
    ASCII `lower()` and `str(int)`. */
module PyStr {
  import opened Common

  /** `m` occurs in `s` starting at index `i`. */
  predicate OccursAt(s: string, m: string, i: nat) {
    i + |m| <= |s| && s[i..i + |m|] == m
  }

  /** `m` occurs in `s` exactly once, at index `k`. */
  ghost predicate OnlyAt(s: string, m: string, k: nat) {
    OccursAt(s, m, k) && forall i: nat :: OccursAt(s, m, i) ==> i == k
  }

  /** `s.find(m, start)`: the first index at or after `from` where `m` occurs. */
  function IndexFrom(s: string, m: string, from: nat): (r: Option<nat>)
    ensures r.Some? ==> from <= r.value && OccursAt(s, m, r.value)
    ensures r.Some? ==> forall i: nat :: from <= i < r.value ==> !OccursAt(s, m, i)
    ensures r.None? ==> forall i: nat :: from <= i ==> !OccursAt(s, m, i)
    decreases |s| - from
  {
    if from + |m| > |s| then None
    else if s[from..from + |m|] == m then Some(from)
    else assert |m| > 0; IndexFrom(s, m, from + 1)
  }

  /** Python's `m in s`. */
  function Contains(s: string, m: string): (r: bool)
    ensures r <==> exists i: nat :: OccursAt(s, m, i)
  {
    IndexFrom(s, m, 0).Some?
  }

  /** An occurrence inside a slice is an occurrence in the whole string. */
  lemma OccursInSlice(s: string, m: string, a: nat, b: nat, i: nat)
    requires a <= b <= |s|
    requires OccursAt(s[a..b], m, i)
    ensures OccursAt(s, m, a + i)
  {
    forall k | 0 <= k < |m|
      ensures s[a + i..a + i + |m|][k] == m[k]
    {
      assert s[a..b][i..i + |m|][k] == m[k];
    }
    assert s[a + i..a + i + |m|] == m;
  }

  /** A string that does not contain `m` has no slice that contains it. */
  lemma NotContainsSlice(s: string, m: string, a: nat, b: nat)
    requires a <= b <= |s|
    requires !Contains(s, m)
    ensures !Contains(s[a..b], m)
  {
    if Contains(s[a..b], m) {
      var i: nat :| OccursAt(s[a..b], m, i);
      OccursInSlice(s, m, a, b, i);
    }
  }

  /** Concatenation splits back at the length of its left part. */
  lemma ConcatParts(a: string, b: string)
    ensures (a + b)[..|a|] == a && (a + b)[|a|..] == b
  {
  }

  lemma Assoc(a: string, b: string, c: string)
    ensures a + b + c == a + (b + c)
  {
  }

  /** `s` occurs in `a + s + b` right after `a`. */
  lemma OccursBetween(a: string, s: string, b: string)
    ensures OccursAt(a + s + b, s, |a|)
  {
    assert (a + s + b)[|a|..|a| + |s|] == s;
  }

  /** `s.startswith(p)` */
  predicate StartsWith(s: string, p: string) {
    |p| <= |s| && s[..|p|] == p
  }

  /** Python's `sep.join(parts)`. */
  function Join(parts: seq<string>, sep: string): string
    decreases |parts|
  {
    if |parts| == 0 then ""
    else if |parts| == 1 then parts[0]
    else parts[0] + sep + Join(parts[1..], sep)
  }

  /** The first part of a split is a prefix of the joined string. */
  lemma JoinHead(parts: seq<string>, sep: string)
    requires |parts| >= 1
    ensures StartsWith(Join(parts, sep), parts[0])
  {
  }

  lemma JoinTwo(x: string, y: string, sep: string)
    ensures Join([x], sep) == x
    ensures Join([x, y], sep) == x + sep + y
  {
    assert [x, y][1..] == [y];
  }

  /** Two or more parts join as the join of all but the last, the
      separator, and the last part. */
  lemma {:induction false} JoinLast(parts: seq<string>, sep: string)
    requires |parts| >= 2
    ensures Join(parts, sep) == Join(parts[..|parts| - 1], sep) + sep + parts[|parts| - 1]
    decreases |parts|
  {
    var n := |parts|;
    if n == 2 {
      JoinTwo(parts[0], parts[1], sep);
      assert parts == [parts[0], parts[1]];
      assert parts[..1] == [parts[0]];
    } else {
      JoinLast(parts[1..], sep);
      assert parts[1..][..n - 2] == parts[..n - 1][1..];
      assert parts[1..][n - 2] == parts[n - 1];
    }
  }

  /** Python's `s.split(sep)` for a non-empty separator (an empty one raises
      `ValueError`). Joining the parts back gives `s`, and no part holds `sep`. */
  function Split(s: string, sep: string): (parts: seq<string>)
    requires |sep| > 0
    ensures |parts| >= 1
    ensures |parts| > 1 <==> Contains(s, sep)
    ensures Join(parts, sep) == s
    ensures forall k :: 0 <= k < |parts| ==> !Contains(parts[k], sep)
    decreases |s|
  {
    match IndexFrom(s, sep, 0)
    case None => [s]
    case Some(i) =>
      var head := s[..i];
      var tail := Split(s[i + |sep|..], sep);
      assert s == head + sep + s[i + |sep|..];
      assert !Contains(head, sep) by {
        if Contains(head, sep) {
          var j: nat :| OccursAt(head, sep, j);
          OccursInSlice(s, sep, 0, i, j);
        }
      }
      [head] + tail
  }

  /** Where part `k` of a split starts in the original string: the
      lengths of the earlier parts and of the separators after them. */
  function Offset(parts: seq<string>, sep: string, k: nat): nat
    requires k <= |parts|
  {
    if k == 0 then 0 else |parts[0]| + |sep| + Offset(parts[1..], sep, k - 1)
  }

  /** An occurrence in `s[d..]` is an occurrence in `s`, `d` further on. */
  lemma OccursShift(s: string, m: string, d: nat, j: nat)
    requires d <= |s|
    ensures OccursAt(s[d..], m, j) <==> OccursAt(s, m, d + j)
  {
    if d + j + |m| <= |s| {
      assert s[d..][j..j + |m|] == s[d + j..d + j + |m|];
    }
  }

  /** Searching from `d + f` in `s` is searching from `f` in `s[d..]`,
      shifted by `d`. */
  lemma IndexFromShift(s: string, m: string, d: nat, f: nat)
    requires d <= |s|
    ensures IndexFrom(s, m, d + f).None? <==> IndexFrom(s[d..], m, f).None?
    ensures IndexFrom(s[d..], m, f).Some? ==>
      IndexFrom(s, m, d + f) == Some(d + IndexFrom(s[d..], m, f).value)
  {
    var t := s[d..];
    var a := IndexFrom(t, m, f);
    var b := IndexFrom(s, m, d + f);
    if a.Some? {
      OccursShift(s, m, d, a.value);
      if b.Some? {
        assert b.value >= d;
        OccursShift(s, m, d, b.value - d);
      }
    } else if b.Some? {
      OccursShift(s, m, d, b.value - d);
    }
  }

  /** One step of `split`: the first part ends at the first occurrence. */
  lemma SplitStep(s: string, sep: string)
    requires |sep| > 0
    ensures IndexFrom(s, sep, 0).None? ==> Split(s, sep) == [s]
    ensures IndexFrom(s, sep, 0).Some? ==>
      var i := IndexFrom(s, sep, 0).value;
      i + |sep| <= |s| && Split(s, sep) == [s[..i]] + Split(s[i + |sep|..], sep)
  {
  }

  /** The part of length `len` starting at `o` ends at the first
      occurrence of `sep` at or after `o`, or, for the last part, no
      occurrence follows `o`. */
  predicate LeftmostCut(s: string, sep: string, o: nat, len: nat, last: bool)
  {
    && o + len <= |s|
    && (last ==> IndexFrom(s, sep, o).None?)
    && (!last ==> IndexFrom(s, sep, o) == Some(o + len))
  }

  /** A cut found in `s[d..]` is the same cut in `s`, shifted by `d`. */
  lemma CutShift(s: string, sep: string, d: nat, o: nat, len: nat, last: bool)
    requires d <= |s| && LeftmostCut(s[d..], sep, o, len, last)
    ensures LeftmostCut(s, sep, d + o, len, last)
  {
    IndexFromShift(s, sep, d, o);
  }

  /** Every cut of `split` is at the first occurrence of the separator at
      or after the start of its part, and the last part holds none: the
      parts are exactly Python's, also for separators that overlap
      themselves. */
  lemma {:induction false} SplitLeftmost(s: string, sep: string, k: nat)
    requires |sep| > 0
    requires k < |Split(s, sep)|
    ensures LeftmostCut(s, sep, Offset(Split(s, sep), sep, k), |Split(s, sep)[k]|,
                        k == |Split(s, sep)| - 1)
    decreases |s|
  {
    var parts := Split(s, sep);
    SplitStep(s, sep);
    var first := IndexFrom(s, sep, 0);
    if first.None? {
      assert Offset(parts, sep, k) == 0;
    } else if k == 0 {
      assert Offset(parts, sep, 0) == 0;
    } else {
      var t := s[first.value + |sep|..];
      SplitLeftmost(t, sep, k - 1);
      LaterCut(s, sep, first.value, parts, Split(t, sep), k);
    }
  }

  /** Part `k > 0` of `[s[..i]] + tail` is part `k - 1` of `tail`,
      shifted past the first part and the separator after it. */
  lemma LaterCut(s: string, sep: string, i: nat, parts: seq<string>, tail: seq<string>, k: nat)
    requires i + |sep| <= |s| && parts == [s[..i]] + tail && 0 < k < |parts|
    requires LeftmostCut(s[i + |sep|..], sep, Offset(tail, sep, k - 1), |tail[k - 1]|,
                         k - 1 == |tail| - 1)
    ensures LeftmostCut(s, sep, Offset(parts, sep, k), |parts[k]|, k == |parts| - 1)
  {
    assert parts[1..] == tail;
    var o' := Offset(tail, sep, k - 1);
    assert Offset(parts, sep, k) == i + |sep| + o';
    CutShift(s, sep, i + |sep|, o', |tail[k - 1]|, k - 1 == |tail| - 1);
  }

  /** The text after the last `sep` (Python's `s.split(sep)[-1]`). */
  function AfterLast(s: string, sep: string): string
    requires |sep| > 0
  {
    var parts := Split(s, sep);
    parts[|parts| - 1]
  }

  /** When `sep` occurs, the text after the last `sep` is a proper
      suffix of `s`, preceded there by `sep`. */
  lemma AfterLastSuffix(s: string, sep: string)
    requires |sep| > 0 && Contains(s, sep)
    ensures var r := AfterLast(s, sep);
      |r| + |sep| <= |s| && s[|s| - |r| - |sep|..] == sep + r
  {
    var parts := Split(s, sep);
    JoinLastSuffix(parts, sep, s, parts[|parts| - 1]);
  }

  /** The last of two or more joined parts ends the join, after `sep`. */
  lemma JoinLastSuffix(parts: seq<string>, sep: string, j: string, r: string)
    requires |parts| >= 2 && Join(parts, sep) == j && r == parts[|parts| - 1]
    ensures |r| + |sep| <= |j| && j[|j| - |r| - |sep|..] == sep + r
  {
    var a := Join(parts[..|parts| - 1], sep);
    var tail := sep + r;
    assert j == a + tail by {
      JoinLast(parts, sep);
    }
    assert |j| - |r| - |sep| == |a|;
    assert (a + tail)[|a|..] == tail;
  }

  /** Python's `s.split(sep, 1)[1]` for a string that contains `sep`. */
  function AfterFirst(s: string, sep: string): string
    requires Contains(s, sep)
  {
    var i := IndexFrom(s, sep, 0).value;
    s[i + |sep|..]
  }

  /** `find` reports the only occurrence. */
  lemma IndexOfOnly(s: string, m: string, k: nat)
    requires OnlyAt(s, m, k)
    ensures IndexFrom(s, m, 0) == Some(k)
  {
    var r := IndexFrom(s, m, 0);
    assert OccursAt(s, m, k);
    assert r.Some?;
    assert OccursAt(s, m, r.value);
  }

  /** Python's `s.split(sep)[1]` when `sep` occurs: the text between its
      first and its second occurrence, or to the end. */
  function SecondPart(s: string, sep: string): string
    requires |sep| > 0 && Contains(s, sep)
  {
    Split(s, sep)[1]
  }

  /** The second part of a split lies inside the string, so whatever it
      contains the string contains. */
  lemma SecondPartInside(s: string, sep: string, m: string)
    requires |sep| > 0 && Contains(s, sep)
    requires Contains(SecondPart(s, sep), m)
    ensures Contains(s, m)
  {
    var parts := Split(s, sep);
    var tail := Join(parts[1..], sep);
    assert s == parts[0] + sep + tail;
    JoinHead(parts[1..], sep);
    var a := |parts[0]| + |sep|;
    var b := a + |parts[1]|;
    assert s[a..b] == parts[1];
    var j: nat :| OccursAt(parts[1], m, j);
    OccursInSlice(s, m, a, b, j);
  }

  /** A string that does not contain the separator splits into itself. */
  lemma SplitAbsent(s: string, sep: string)
    requires |sep| > 0
    requires !Contains(s, sep)
    ensures Split(s, sep) == [s]
  {
  }

  /** The parts of a string in which `m` occurs exactly once are the text
      before and the text after that occurrence. */
  lemma SplitOnlyOnce(x: string, m: string, y: string)
    requires |m| > 0
    requires OnlyAt(x + m + y, m, |x|)
    ensures Split(x + m + y, m) == [x, y]
  {
    var s := x + m + y;
    assert !Contains(y, m) by {
      if Contains(y, m) {
        var j: nat :| OccursAt(y, m, j);
        assert s[|x| + |m|..|s|] == y;
        OccursInSlice(s, m, |x| + |m|, |s|, j);
      }
    }
    calc {
      Split(s, m);
    == { IndexOfOnly(s, m, |x|); }
      [s[..|x|]] + Split(s[|x| + |m|..], m);
    == { assert s[..|x|] == x; assert s[|x| + |m|..] == y; }
      [x] + Split(y, m);
    == { SplitAbsent(y, m); }
      [x, y];
    }
  }

  /** A one-character string occurs exactly where that character is. */
  lemma ContainsChar(s: string, c: char)
    ensures Contains(s, [c]) <==> c in s
  {
    if c in s {
      var i :| 0 <= i < |s| && s[i] == c;
      assert OccursAt(s, [c], i);
    }
    if Contains(s, [c]) {
      var i: nat :| OccursAt(s, [c], i);
      assert s[i..i + 1][0] == c;
    }
  }

  /** Two lines without the one-character separator `c`, joined by it,
      split back into those two lines. */
  lemma SplitPair(x: string, c: char, y: string)
    requires !Contains(x, [c]) && !Contains(y, [c])
    ensures Split(x + [c] + y, [c]) == [x, y]
  {
    var s := x + [c] + y;
    ContainsChar(x, c);
    ContainsChar(y, c);
    forall i: nat | OccursAt(s, [c], i)
      ensures i == |x|
    {
      assert s[i] == c by { assert s[i..i + 1][0] == s[i]; }
    }
    SplitOnlyOnce(x, [c], y);
  }

  /** If `m` occurs once in `u + v`, inside `v`, it occurs once in `v`. */
  lemma OnlyAtSuffix(u: string, v: string, m: string, k: nat)
    requires |u| <= k
    requires OnlyAt(u + v, m, k)
    ensures OnlyAt(v, m, k - |u|)
  {
    var s := u + v;
    assert v == s[|u|..|s|];
    forall i: nat | OccursAt(v, m, i)
      ensures i == k - |u|
    {
      OccursInSlice(s, m, |u|, |s|, i);
    }
  }

  /** If `m` occurs once in `v + w`, inside `v`, it occurs once in `v`. */
  lemma OnlyAtPrefix(v: string, w: string, m: string, k: nat)
    requires k + |m| <= |v|
    requires OnlyAt(v + w, m, k)
    ensures OnlyAt(v, m, k)
  {
    var s := v + w;
    assert v == s[0..|v|];
    forall i: nat | OccursAt(v, m, i)
      ensures i == k
    {
      OccursInSlice(s, m, 0, |v|, i);
    }
  }

  // ---------------------------------------------------------------- strip

  /** The characters for which Python's `str.isspace()` holds. */
  const Whitespace: set<char> := {
    ' ', '\t', '\n', '\r', '\U{000B}', '\U{000C}',
    '\U{001C}', '\U{001D}', '\U{001E}', '\U{001F}', '\U{0085}', '\U{00A0}',
    '\U{1680}', '\U{2000}', '\U{2001}', '\U{2002}', '\U{2003}', '\U{2004}',
    '\U{2005}', '\U{2006}', '\U{2007}', '\U{2008}', '\U{2009}', '\U{200A}',
    '\U{2028}', '\U{2029}', '\U{202F}', '\U{205F}', '\U{3000}'
  }

  predicate IsSpace(c: char) {
    c in Whitespace
  }

  predicate AllSpace(s: string) {
    forall k :: 0 <= k < |s| ==> IsSpace(s[k])
  }

  /** Python's `s.lstrip()`: drops the leading whitespace and nothing else. */
  function StripLeft(s: string): (r: string)
    ensures |r| <= |s| && r == s[|s| - |r|..]
    ensures AllSpace(s[..|s| - |r|])
    ensures r == [] || !IsSpace(r[0])
    decreases |s|
  {
    if |s| > 0 && IsSpace(s[0]) then StripLeft(s[1..]) else s
  }

  /** Python's `s.rstrip()`: drops the trailing whitespace and nothing else. */
  function StripRight(s: string): (r: string)
    ensures |r| <= |s| && r == s[..|r|]
    ensures AllSpace(s[|r|..])
    ensures r == [] || !IsSpace(r[|r| - 1])
    decreases |s|
  {
    if |s| > 0 && IsSpace(s[|s| - 1]) then
      var init := s[..|s| - 1];
      var r := StripRight(init);
      assert init[..|r|] == s[..|r|];
      assert s[|r|..] == init[|r|..] + [s[|s| - 1]];
      r
    else s
  }

  /** Python's `s.strip()`. */
  function Strip(s: string): (r: string)
    ensures |r| <= |s|
    ensures r == [] || (!IsSpace(r[0]) && !IsSpace(r[|r| - 1]))
  {
    var l := StripLeft(s);
    var r := StripRight(l);
    assert r == [] || r[0] == l[0];
    r
  }

  /** A string without surrounding whitespace is what `strip` recovers
      from it after any whitespace padding. */
  lemma StripPadded(a: string, t: string, b: string)
    requires AllSpace(a) && AllSpace(b)
    requires t == [] || (!IsSpace(t[0]) && !IsSpace(t[|t| - 1]))
    ensures Strip(a + t + b) == t
  {
    assert a + t + b == a + (t + b);
    StripLeftPadded(a, t + b);
    assert StripLeft(a + t + b) == StripLeft(t + b);
    if t == [] {
      assert t + b == b;
      StripLeftAllSpace(b);
    } else {
      assert (t + b)[0] == t[0] && !IsSpace(t[0]);
      assert StripLeft(t + b) == t + b;
      StripRightPadded(t, b);
    }
  }

  lemma {:induction false} StripLeftPadded(a: string, u: string)
    requires AllSpace(a)
    ensures StripLeft(a + u) == StripLeft(u)
    decreases |a|
  {
    if |a| > 0 {
      assert (a + u)[1..] == a[1..] + u;
      StripLeftPadded(a[1..], u);
    } else {
      assert a + u == u;
    }
  }

  lemma StripLeftAllSpace(b: string)
    requires AllSpace(b)
    ensures StripLeft(b) == []
  {
    assert b == b + [];
    StripLeftPadded(b, []);
  }

  lemma {:induction false} StripRightPadded(t: string, b: string)
    requires AllSpace(b)
    requires t == [] || !IsSpace(t[|t| - 1])
    ensures StripRight(t + b) == t
    decreases |b|
  {
    if |b| > 0 {
      var s := t + b;
      assert s[..|s| - 1] == t + b[..|b| - 1];
      StripRightPadded(t, b[..|b| - 1]);
    } else {
      assert t + b == t;
    }
  }

  /** `strip` of a string is empty exactly when the string is all whitespace. */
  lemma StripEmptyIff(s: string)
    ensures Strip(s) == [] <==> AllSpace(s)
  {
    var l := StripLeft(s);
    if AllSpace(s) {
      StripLeftAllSpace(s);
    }
    if Strip(s) == [] {
      assert s == s[..|s| - |l|] + l;
      assert AllSpace(l) by {
        assert l[|StripRight(l)|..] == l;
      }
    }
  }

  /** Stripping twice is stripping once. */
  lemma StripIdempotent(s: string)
    ensures Strip(Strip(s)) == Strip(s)
  {
    StripClean(Strip(s));
  }

  /** A string without surrounding whitespace is its own `strip`. */
  lemma StripClean(t: string)
    requires t == [] || (!IsSpace(t[0]) && !IsSpace(t[|t| - 1]))
    ensures Strip(t) == t
  {
    assert StripLeft(t) == t;
    assert StripRight(t) == t;
  }

  // ---------------------------------------------------------------- slicing

  function Min(a: int, b: int): int {
    if a <= b then a else b
  }

  /** Python's `s[a:b]` for non-negative bounds: both bounds are clamped
      to the length, and an empty range gives "". */
  function Slice(s: string, a: nat, b: nat): (r: string)
    ensures |r| == (if Min(b, |s|) > Min(a, |s|) then Min(b, |s|) - Min(a, |s|) else 0)
    ensures forall k :: 0 <= k < |r| ==> r[k] == s[a + k]
  {
    var lo := Min(a, |s|);
    var hi := Min(b, |s|);
    if hi <= lo then "" else s[lo..hi]
  }

  /** Python truthiness of a string. */
  predicate Truthy(s: string) {
    |s| > 0
  }

  // ---------------------------------------------------------------- case

  function LowerChar(c: char): char {
    if 'A' <= c <= 'Z' then (c as int + 32) as char else c
  }

  /** `s.lower()`, restricted to the ASCII letters. */
  function Lower(s: string): (r: string)
    ensures |r| == |s|
    ensures forall k :: 0 <= k < |s| ==> r[k] == LowerChar(s[k])
  {
    seq(|s|, k requires 0 <= k < |s| => LowerChar(s[k]))
  }

  // ---------------------------------------------------------------- str(int)

  predicate IsDigit(c: char) {
    '0' <= c <= '9'
  }

  function DigitChar(d: nat): (c: char)
    requires d < 10
    ensures IsDigit(c) && c as int - '0' as int == d
  {
    (d + '0' as int) as char
  }

  /** The value of a string of decimal digits. */
  function DigitsValue(s: string): nat
    requires forall k :: 0 <= k < |s| ==> IsDigit(s[k])
  {
    if |s| == 0 then 0
    else
      assert IsDigit(s[|s| - 1]);
      DigitsValue(s[..|s| - 1]) * 10 + (s[|s| - 1] as int - '0' as int) as nat
  }

  /** Python's `str(n)` for a natural number. */
  function NatToString(n: nat): (r: string)
    ensures |r| >= 1
    ensures forall k :: 0 <= k < |r| ==> IsDigit(r[k])
    ensures |r| > 1 ==> r[0] != '0'
  {
    if n < 10 then [DigitChar(n)] else NatToString(n / 10) + [DigitChar(n % 10)]
  }

  /** Reading the decimal digits back gives the number. */
  lemma {:induction false} NatToStringValue(n: nat)
    ensures DigitsValue(NatToString(n)) == n
  {
    if n >= 10 {
      var s := NatToString(n);
      assert s[..|s| - 1] == NatToString(n / 10);
      NatToStringValue(n / 10);
    }
  }

  /** Python's `str(i)` for an integer. */
  function IntToString(i: int): string {
    if i < 0 then "-" + NatToString(-i) else NatToString(i)
  }
}
