/** Python value and string semantics that the bridge relies on: optional
    values, JSON request values and their truthiness, `str.strip` and its
    one-character variants, `str.isdigit`, `str.lower`, `in` on strings,
    `str.replace(old, "")`, `str(int)` and `int(str)`. */
module Python {

  datatype Option<+T> = None | Some(value: T)

  /** A JSON value as Flask hands it to a route (objects are left out). */
  datatype Json = JNull | JBool(b: bool) | JInt(i: int) | JFloat(r: real) | JStr(s: string) | JList(items: seq<Json>)

  /** Python truthiness of a JSON value. */
  predicate Truthy(v: Json) {
    match v
    case JNull => false
    case JBool(b) => b
    case JInt(i) => i != 0
    case JFloat(r) => r != 0.0
    case JStr(s) => s != ""
    case JList(items) => items != []
  }

  /** `isinstance(v, int)`: in Python `bool` is a subclass of `int`. */
  predicate IsPyInt(v: Json) {
    v.JInt? || v.JBool?
  }

  /** The integer value of an `int` (a `bool` counts as 0 or 1). */
  function PyIntValue(v: Json): int
    requires IsPyInt(v)
  {
    if v.JInt? then v.i else if v.b then 1 else 0
  }

  /** Truthiness of an optional string (`None` and `""` are false). */
  predicate TruthyStr(o: Option<string>) {
    o.Some? && o.value != ""
  }

  /** `x or ""` for an optional string. */
  function OrEmpty(o: Option<string>): (r: string)
    ensures TruthyStr(o) ==> r == o.value
    ensures !TruthyStr(o) ==> r == ""
  {
    if o.Some? then o.value else ""
  }

  /** The characters for which Python's `str.isspace()` holds. */
  const Whitespace: set<char> := {
    '\t', '\n', '\U{0B}', '\U{0C}', '\r', '\U{1C}', '\U{1D}', '\U{1E}', '\U{1F}', ' ',
    '\U{85}', '\U{A0}', '\U{1680}', '\U{2000}', '\U{2001}', '\U{2002}', '\U{2003}',
    '\U{2004}', '\U{2005}', '\U{2006}', '\U{2007}', '\U{2008}', '\U{2009}', '\U{200A}',
    '\U{2028}', '\U{2029}', '\U{202F}', '\U{205F}', '\U{3000}'
  }

  predicate AllIn(s: string, cs: set<char>) {
    forall i :: 0 <= i < |s| ==> s[i] in cs
  }

  /** `s.lstrip(chars)` */
  function LStrip(s: string, cs: set<char>): string {
    if |s| > 0 && s[0] in cs then LStrip(s[1..], cs) else s
  }

  /** `lstrip` removes a prefix made of characters of `cs`, and what is
      left does not start with one. */
  lemma {:induction false} LStripSpec(s: string, cs: set<char>)
    ensures var r := LStrip(s, cs);
      && |r| <= |s| && r == s[|s| - |r|..]
      && AllIn(s[..|s| - |r|], cs)
      && (r == [] || r[0] !in cs)
    decreases |s|
  {
    if |s| > 0 && s[0] in cs {
      LStripSpec(s[1..], cs);
      var r := LStrip(s, cs);
      assert s[1..][..|s| - 1 - |r|] == s[1..|s| - |r|];
    }
  }

  /** `s.rstrip(chars)` */
  function RStrip(s: string, cs: set<char>): string {
    if |s| > 0 && s[|s| - 1] in cs then RStrip(s[..|s| - 1], cs) else s
  }

  /** `rstrip` removes a suffix made of characters of `cs`, and what is
      left does not end with one. */
  lemma {:induction false} RStripSpec(s: string, cs: set<char>)
    ensures var r := RStrip(s, cs);
      && |r| <= |s| && r == s[..|r|]
      && AllIn(s[|r|..], cs)
      && (r == [] || r[|r| - 1] !in cs)
    decreases |s|
  {
    if |s| > 0 && s[|s| - 1] in cs {
      RStripSpec(s[..|s| - 1], cs);
      var r := RStrip(s, cs);
      assert s[..|s| - 1][|r|..] == s[|r|..|s| - 1];
    }
  }

  /** `s.strip(chars)` */
  function StripSet(s: string, cs: set<char>): string {
    RStrip(LStrip(s, cs), cs)
  }

  /** `s.strip()` */
  function Strip(s: string): string {
    StripSet(s, Whitespace)
  }

  /** What `strip` removes and what it keeps: `s` is the result framed by
      characters of `cs`, and the result neither starts nor ends with one. */
  lemma StripSetSpec(s: string, cs: set<char>)
    ensures var r := StripSet(s, cs);
      exists i, j :: 0 <= i <= j <= |s| && r == s[i..j]
        && AllIn(s[..i], cs) && AllIn(s[j..], cs)
    ensures var r := StripSet(s, cs); r == [] || (r[0] !in cs && r[|r| - 1] !in cs)
  {
    var l := LStrip(s, cs);
    var r := RStrip(l, cs);
    LStripSpec(s, cs);
    RStripSpec(l, cs);
    var i := |s| - |l|;
    var j := i + |r|;
    assert r == s[i..j];
    assert s[j..] == l[|r|..];
    if r != [] {
      assert l != [] && l[0] == r[0];
    }
  }

  /** Stripping a string that neither starts nor ends with a character of
      `cs` leaves it unchanged. */
  lemma StripSetNoop(s: string, cs: set<char>)
    requires s == [] || (s[0] !in cs && s[|s| - 1] !in cs)
    ensures StripSet(s, cs) == s
  {
  }

  predicate IsDigit(c: char) {
    '0' <= c <= '9'
  }

  /** `s.isdigit()` over ASCII digits: non-empty and digits only. */
  predicate IsDigits(s: string) {
    |s| > 0 && forall i :: 0 <= i < |s| ==> IsDigit(s[i])
  }

  function DigitValue(c: char): nat
    requires IsDigit(c)
  {
    (c as int - '0' as int) as nat
  }

  function DigitChar(d: nat): (c: char)
    requires d < 10
    ensures IsDigit(c) && DigitValue(c) == d
  {
    ('0' as int + d) as char
  }

  /** The body of a base-10 Python integer literal: digits, with single
      underscores allowed between two digits. */
  predicate DigitBody(b: string) {
    && |b| > 0
    && IsDigit(b[0]) && IsDigit(b[|b| - 1])
    && forall i :: 0 <= i < |b| ==> BodyChar(b, i)
  }

  /** Position `i` of a digit body holds a digit, or an underscore between
      two digits. */
  predicate BodyChar(b: string, i: int)
    requires 0 <= i < |b|
  {
    IsDigit(b[i]) || (b[i] == '_' && 0 < i < |b| - 1 && IsDigit(b[i - 1]) && IsDigit(b[i + 1]))
  }

  /** The number a digit body denotes (underscores carry no value). */
  function BodyValue(b: string): nat {
    if b == [] then 0
    else if IsDigit(b[|b| - 1]) then 10 * BodyValue(b[..|b| - 1]) + DigitValue(b[|b| - 1])
    else BodyValue(b[..|b| - 1])
  }

  /** `int(s)` for a `str` argument: `Some(value)`, or `None` where Python
      raises `ValueError`. Surrounding whitespace and one sign are allowed. */
  function ParseInt(s: string): Option<int> {
    ParseStripped(Strip(s))
  }

  /** `int(t)` once surrounding whitespace is gone. */
  function ParseStripped(t: string): Option<int> {
    if |t| > 0 && (t[0] == '-' || t[0] == '+') then
      var v: int := BodyValue(t[1..]);
      if DigitBody(t[1..]) then Some(if t[0] == '-' then -v else v) else None
    else if DigitBody(t) then Some(BodyValue(t))
    else None
  }

  lemma DigitOrDashNotSpace(c: char)
    requires IsDigit(c) || c == '-'
    ensures c !in Whitespace
  {
  }

  /** Over digits and dashes, a digit body is a plain digit string. */
  lemma DashDigitBody(b: string)
    requires forall i :: 0 <= i < |b| ==> IsDigit(b[i]) || b[i] == '-'
    ensures DigitBody(b) <==> IsDigits(b)
  {
    if IsDigits(b) {
      DigitsValue(b);
    }
    if DigitBody(b) {
      forall i | 0 <= i < |b| ensures IsDigit(b[i]) {
        assert BodyChar(b, i);
      }
    }
  }

  /** Over digits and dashes, `int()` of already stripped text accepts
      exactly the plain and the minus-signed digit strings. */
  lemma ParseDashDigits(s: string)
    requires s != [] && forall i :: 0 <= i < |s| ==> IsDigit(s[i]) || s[i] == '-'
    ensures ParseStripped(s).Some? <==> IsDigits(s) || (s[0] == '-' && IsDigits(s[1..]))
  {
    if s[0] == '-' {
      var b := s[1..];
      assert forall i :: 0 <= i < |b| ==> IsDigit(b[i]) || b[i] == '-' by {
        forall i | 0 <= i < |b| ensures IsDigit(b[i]) || b[i] == '-' {
          assert b[i] == s[i + 1];
        }
      }
      DashDigitBody(b);
      assert !IsDigit(s[0]);
    } else {
      assert s[0] != '+';
      DashDigitBody(s);
    }
  }

  /** `str(n)` for a natural number. */
  function NatToStr(n: nat): (r: string)
    ensures IsDigits(r)
  {
    if n < 10 then [DigitChar(n)] else NatToStr(n / 10) + [DigitChar(n % 10)]
  }

  /** `str(i)` for an integer. */
  function IntToStr(i: int): string {
    if i < 0 then "-" + NatToStr(-i) else NatToStr(i)
  }

  lemma {:induction false} DigitsValue(s: string)
    requires IsDigits(s)
    ensures DigitBody(s)
    ensures IsDigits(s[..|s| - 1]) || |s| == 1
  {
  }

  lemma {:induction false} NatToStrValue(n: nat)
    ensures DigitBody(NatToStr(n)) && BodyValue(NatToStr(n)) == n
  {
    var r := NatToStr(n);
    if n >= 10 {
      NatToStrValue(n / 10);
      assert r[..|r| - 1] == NatToStr(n / 10);
    }
  }

  /** `int()` of a plain digit string is its decimal value. */
  lemma ParseDigitsValue(s: string)
    requires IsDigits(s)
    ensures ParseStripped(s) == Some(BodyValue(s))
  {
    DigitsValue(s);
    assert s[0] != '-' && s[0] != '+';
  }

  /** `str(i)` has no surrounding blanks for `strip` to remove. */
  lemma StripDecimal(i: int)
    ensures Strip(IntToStr(i)) == IntToStr(i)
  {
    var s := IntToStr(i);
    var n: nat := if i < 0 then -i else i;
    var d := NatToStr(n);
    assert s[|s| - 1] == d[|d| - 1];
    DigitOrDashNotSpace(s[0]);
    DigitOrDashNotSpace(s[|s| - 1]);
    StripSetNoop(s, Whitespace);
  }

  /** `int(str(i)) == i`: decimal rendering and parsing are inverse. */
  lemma {:induction false} IntToStrRoundTrip(i: int)
    ensures ParseInt(IntToStr(i)) == Some(i)
  {
    var s := IntToStr(i);
    var n: nat := if i < 0 then -i else i;
    NatToStrValue(n);
    var d := NatToStr(n);
    StripDecimal(i);
    if i < 0 {
      assert s[1..] == d;
    } else {
      assert s[0] != '-' && s[0] != '+';
    }
  }

  /** `str.lower()` over ASCII letters. */
  function LowerChar(c: char): char {
    if 'A' <= c <= 'Z' then (c as int + 32) as char else c
  }

  function Lower(s: string): (r: string)
    ensures |r| == |s| && forall i :: 0 <= i < |s| ==> r[i] == LowerChar(s[i])
  {
    seq(|s|, i requires 0 <= i < |s| => LowerChar(s[i]))
  }

  /** `lower()` leaves no capital letter, changes nothing but capitals,
      and lowering twice is lowering once. */
  lemma LowerSpec(s: string)
    ensures |Lower(s)| == |s|
    ensures forall i :: 0 <= i < |s| ==> !('A' <= Lower(s)[i] <= 'Z')
    ensures forall i :: 0 <= i < |s| && !('A' <= s[i] <= 'Z') ==> Lower(s)[i] == s[i]
    ensures Lower(Lower(s)) == Lower(s)
  {
    var r := Lower(s);
    assert Lower(r) == r;
  }

  /** `m` occurs in `s` at index `i`. */
  predicate OccursAt(s: string, m: string, i: int) {
    0 <= i <= |s| - |m| && s[i..i + |m|] == m
  }

  /** `m in s` for strings. */
  predicate Contains(s: string, m: string) {
    exists i | 0 <= i <= |s| - |m| :: OccursAt(s, m, i)
  }

  /** A string without the first character of `m` does not contain `m`. */
  lemma NoFirstCharNotContains(s: string, m: string)
    requires |m| > 0 && m[0] !in s
    ensures !Contains(s, m)
  {
    forall i | 0 <= i <= |s| - |m| ensures !OccursAt(s, m, i) {
      assert s[i] in s;
      assert s[i..i + |m|][0] == s[i];
    }
  }

  /** A string contains whatever a piece of it contains. */
  lemma ContainsInPiece(s: string, d: int, p: string, m: string)
    requires 0 <= d <= d + |p| <= |s| && s[d..d + |p|] == p && Contains(p, m)
    ensures Contains(s, m)
  {
    var i :| 0 <= i <= |p| - |m| && OccursAt(p, m, i);
    forall k | 0 <= k < |m| ensures s[d + i + k] == m[k] {
      assert s[d..d + |p|][i + k] == s[d + i + k];
      assert p[i..i + |m|][k] == p[i + k];
    }
    assert s[d + i..d + i + |m|] == m;
    assert OccursAt(s, m, d + i);
  }

  /** Each character an occurrence covers is a character of `m`. */
  lemma CharOfOccurrence(s: string, m: string, i: int, k: int)
    requires OccursAt(s, m, i) && i <= k < i + |m|
    ensures s[k] in m
  {
    assert s[i..i + |m|][k - i] == s[k];
  }

  /** An occurrence that avoids the character at `|a|` lies within `a` or
      within `b`. */
  lemma ContainsSplit(a: string, x: char, b: string, m: string)
    requires x !in m && Contains(a + [x] + b, m)
    ensures Contains(a, m) || Contains(b, m)
  {
    var s := a + [x] + b;
    var i :| 0 <= i <= |s| - |m| && OccursAt(s, m, i);
    if i + |m| <= |a| {
      assert a[i..i + |m|] == s[i..i + |m|];
      assert OccursAt(a, m, i);
    } else if i > |a| {
      var j := i - |a| - 1;
      assert b[j..j + |m|] == s[i..i + |m|];
      assert OccursAt(b, m, j);
    } else {
      CharOfOccurrence(s, m, i, |a|);
      assert false;
    }
  }

  /** A character absent from `m` splits a containment question in two. */
  lemma ContainsAround(a: string, x: char, b: string, m: string)
    requires x !in m
    ensures Contains(a + [x] + b, m) <==> Contains(a, m) || Contains(b, m)
  {
    var s := a + [x] + b;
    if Contains(s, m) {
      ContainsSplit(a, x, b, m);
    }
    if Contains(a, m) {
      assert s[0..|a|] == a;
      ContainsInPiece(s, 0, a, m);
    }
    if Contains(b, m) {
      assert s[|a| + 1..|a| + 1 + |b|] == b;
      ContainsInPiece(s, |a| + 1, b, m);
    }
  }

  predicate EndsWith(s: string, suffix: string) {
    |suffix| <= |s| && s[|s| - |suffix|..] == suffix
  }

  /** `s.replace(m, "")`: removes every occurrence of `m`, scanning from the
      left and never overlapping, as Python does. */
  function RemoveAll(s: string, m: string): (r: string)
    requires |m| > 0
    ensures |r| <= |s|
    decreases |s|
  {
    if |s| < |m| then s
    else if s[..|m|] == m then RemoveAll(s[|m|..], m)
    else [s[0]] + RemoveAll(s[1..], m)
  }

  /** A string that does not contain `m` has a tail that does not either. */
  lemma NotContainsTail(s: string, m: string)
    requires |s| > 0 && !Contains(s, m)
    ensures !Contains(s[1..], m)
  {
    if Contains(s[1..], m) {
      var i :| 0 <= i <= |s| - 1 - |m| && OccursAt(s[1..], m, i);
      assert s[1..][i..i + |m|] == s[i + 1..i + 1 + |m|];
      assert OccursAt(s, m, i + 1);
    }
  }

  /** Removing a pattern that does not occur changes nothing. */
  lemma {:induction false} RemoveAllAbsent(s: string, m: string)
    requires |m| > 0 && !Contains(s, m)
    ensures RemoveAll(s, m) == s
    decreases |s|
  {
    if |s| >= |m| {
      assert !OccursAt(s, m, 0);
      NotContainsTail(s, m);
      RemoveAllAbsent(s[1..], m);
    }
  }
}
