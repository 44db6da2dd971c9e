/** The java.lang.String operations the framework relies on: trim,
    case mapping, digits and substring search. Case mapping covers ASCII
    letters only. */
module Text {
  import opened Wrappers


  /** `String.trim` removes every leading and trailing char whose code is at
      most U+0020 (space and all control characters). */
  predicate IsJavaSpace(c: char) {
    c <= ' '
  }

  predicate IsBlank(s: string) {
    forall i :: 0 <= i < |s| ==> IsJavaSpace(s[i])
  }

  /** `s` with its leading Java whitespace removed. */
  function TrimStart(s: string): (r: string)
    ensures |r| <= |s| && r == s[|s| - |r|..]
    ensures IsBlank(s[..|s| - |r|])
    ensures r == [] || !IsJavaSpace(r[0])
  {
    if s != [] && IsJavaSpace(s[0]) then TrimStart(s[1..]) else s
  }

  /** `s` with its trailing Java whitespace removed. */
  function TrimEnd(s: string): (r: string)
    ensures |r| <= |s| && r == s[..|r|]
    ensures IsBlank(s[|r|..])
    ensures r == [] || !IsJavaSpace(r[|r| - 1])
  {
    if s != [] && IsJavaSpace(s[|s| - 1]) then TrimEnd(s[..|s| - 1]) else s
  }

  /** `String.trim()`: the middle of `s` left once the blank chars at both
      ends are cut off. */
  function Trim(s: string): (r: string)
    ensures exists i, j :: 0 <= i <= j <= |s| && r == s[i..j] && IsBlank(s[..i]) && IsBlank(s[j..])
    ensures r == [] <==> IsBlank(s)
    ensures r != [] ==> !IsJavaSpace(r[0]) && !IsJavaSpace(r[|r| - 1])
  {
    var t := TrimStart(s);
    var r := TrimEnd(t);
    TrimMiddle(s, t, r);
    r
  }

  /** Cutting the blank prefix of `s` off to get `t`, then the blank suffix
      of `t` off to get `r`, leaves the middle part of `s`; it is empty
      exactly when `s` is blank. */
  lemma TrimMiddle(s: string, t: string, r: string)
    requires |t| <= |s| && t == s[|s| - |t|..] && IsBlank(s[..|s| - |t|])
    requires t == [] || !IsJavaSpace(t[0])
    requires |r| <= |t| && r == t[..|r|] && IsBlank(t[|r|..])
    requires r == [] || !IsJavaSpace(r[|r| - 1])
    ensures exists i, j :: 0 <= i <= j <= |s| && r == s[i..j] && IsBlank(s[..i]) && IsBlank(s[j..])
    ensures r == [] <==> IsBlank(s)
    ensures r != [] ==> !IsJavaSpace(r[0]) && !IsJavaSpace(r[|r| - 1])
  {
    var i := |s| - |t|;
    assert s[i..i + |r|] == t[..|r|];
    assert s[i + |r|..] == t[|r|..];
    if r == [] {
      assert IsBlank(t);
      assert s == s[..i] + t;
    } else {
      assert r[0] == t[0];
      assert !IsBlank(s) by { assert s[i] == t[0]; }
    }
  }

  lemma {:induction false} TrimStartSkipsBlank(w: string, x: string)
    requires IsBlank(w)
    ensures TrimStart(w + x) == TrimStart(x)
  {
    if w == [] {
      assert w + x == x;
    } else {
      assert (w + x)[0] == w[0];
      assert (w + x)[1..] == w[1..] + x;
      TrimStartSkipsBlank(w[1..], x);
    }
  }

  lemma {:induction false} TrimStartKeepsTail(x: string, y: string)
    requires !IsBlank(x)
    ensures TrimStart(x + y) == TrimStart(x) + y
  {
    assert x != [];
    if IsJavaSpace(x[0]) {
      assert (x + y)[1..] == x[1..] + y;
      TrimStartKeepsTail(x[1..], y);
    }
  }

  lemma {:induction false} TrimEndSkipsBlank(x: string, w: string)
    requires IsBlank(w)
    ensures TrimEnd(x + w) == TrimEnd(x)
  {
    if w == [] {
      assert x + w == x;
    } else {
      var xw := x + w;
      assert xw[|xw| - 1] == w[|w| - 1];
      assert xw[..|xw| - 1] == x + w[..|w| - 1];
      TrimEndSkipsBlank(x, w[..|w| - 1]);
    }
  }

  /** Whitespace around a string never changes what `trim` returns. */
  lemma TrimIgnoresPadding(w1: string, s: string, w2: string)
    requires IsBlank(w1) && IsBlank(w2)
    ensures Trim(w1 + s + w2) == Trim(s)
  {
    assert w1 + s + w2 == w1 + (s + w2);
    TrimStartSkipsBlank(w1, s + w2);
    if IsBlank(s) {
      assert IsBlank(s + w2);
      assert Trim(s + w2) == [];
    } else {
      TrimStartKeepsTail(s, w2);
      TrimEndSkipsBlank(TrimStart(s), w2);
    }
  }

  predicate IsAsciiLower(c: char) { 'a' <= c <= 'z' }
  predicate IsAsciiUpper(c: char) { 'A' <= c <= 'Z' }
  predicate IsAsciiLetter(c: char) { IsAsciiLower(c) || IsAsciiUpper(c) }
  predicate IsDigit(c: char) { '0' <= c <= '9' }
  predicate IsAsciiAlphanumeric(c: char) { IsAsciiLetter(c) || IsDigit(c) }

  predicate IsDigits(s: string) {
    forall i :: 0 <= i < |s| ==> IsDigit(s[i])
  }

  predicate IsLetters(s: string) {
    forall i :: 0 <= i < |s| ==> IsAsciiLetter(s[i])
  }

  function UpperChar(c: char): char {
    if IsAsciiLower(c) then (c as int - 32) as char else c
  }

  function LowerChar(c: char): char {
    if IsAsciiUpper(c) then (c as int + 32) as char else c
  }

  /** `String.toUpperCase()` on ASCII letters. */
  function Upper(s: string): (r: string)
    ensures |r| == |s|
    ensures forall i :: 0 <= i < |s| ==> r[i] == UpperChar(s[i])
    ensures forall i :: 0 <= i < |s| ==> !IsAsciiLower(r[i])
    ensures forall i :: 0 <= i < |s| && !IsAsciiLetter(s[i]) ==> r[i] == s[i]
  {
    seq(|s|, i requires 0 <= i < |s| => UpperChar(s[i]))
  }

  /** `String.toLowerCase()` on ASCII letters. */
  function Lower(s: string): (r: string)
    ensures |r| == |s|
    ensures forall i :: 0 <= i < |s| ==> r[i] == LowerChar(s[i])
    ensures forall i :: 0 <= i < |s| ==> !IsAsciiUpper(r[i])
    ensures forall i :: 0 <= i < |s| && !IsAsciiLetter(s[i]) ==> r[i] == s[i]
  {
    seq(|s|, i requires 0 <= i < |s| => LowerChar(s[i]))
  }

  /** `String.equalsIgnoreCase` on ASCII letters. */
  predicate EqualsIgnoreCase(a: string, b: string) {
    Upper(a) == Upper(b)
  }

  lemma {:induction false} UpperTrimStart(s: string)
    ensures Upper(TrimStart(s)) == TrimStart(Upper(s))
  {
    if s != [] {
      assert Upper(s)[1..] == Upper(s[1..]);
      if IsJavaSpace(s[0]) {
        UpperTrimStart(s[1..]);
      }
    }
  }

  lemma {:induction false} UpperTrimEnd(s: string)
    ensures Upper(TrimEnd(s)) == TrimEnd(Upper(s))
  {
    if s != [] {
      assert Upper(s)[..|s| - 1] == Upper(s[..|s| - 1]);
      if IsJavaSpace(s[|s| - 1]) {
        UpperTrimEnd(s[..|s| - 1]);
      }
    }
  }

  /** Upper-casing never touches whitespace, so it commutes with `trim`. */
  lemma UpperTrim(s: string)
    ensures Upper(Trim(s)) == Trim(Upper(s))
  {
    UpperTrimStart(s);
    UpperTrimEnd(TrimStart(s));
  }

  function DigitChar(d: nat): (c: char)
    requires d < 10
    ensures IsDigit(c)
  {
    ('0' as int + d) as char
  }

  /** The decimal text of a sequence of single-digit draws, as
      `StringBuilder.append(int)` builds it digit by digit. */
  function DigitsOf(ds: seq<nat>): (s: string)
    requires forall i :: 0 <= i < |ds| ==> ds[i] < 10
    ensures |s| == |ds| && IsDigits(s)
  {
    seq(|ds|, i requires 0 <= i < |ds| => DigitChar(ds[i]))
  }

  /** `part` occurs in `s` starting at index `i`. */
  predicate OccursAt(s: string, part: string, i: int) {
    0 <= i <= |s| - |part| && s[i..i + |part|] == part
  }

  /** `s.contains(part)`. */
  ghost predicate Contains(s: string, part: string) {
    exists i :: OccursAt(s, part, i)
  }

  /** A string with no lower-case letter is its own upper-case form. */
  lemma UpperFixed(s: string)
    requires forall i :: 0 <= i < |s| ==> !IsAsciiLower(s[i])
    ensures Upper(s) == s
  {
  }

  /** A string with no whitespace at either end is its own trimmed form. */
  lemma TrimFixed(s: string)
    requires s == [] || (!IsJavaSpace(s[0]) && !IsJavaSpace(s[|s| - 1]))
    ensures Trim(s) == s
  {
    assert TrimStart(s) == s;
  }

  /** A non-empty string with no lower-case letter and no whitespace at
      either end is unchanged by `trim` followed by `toUpperCase`. */
  lemma CanonicalText(s: string)
    requires s != [] && !IsJavaSpace(s[0]) && !IsJavaSpace(s[|s| - 1])
    requires forall i :: 0 <= i < |s| ==> !IsAsciiLower(s[i])
    ensures Upper(Trim(s)) == s
  {
    TrimFixed(s);
    UpperFixed(s);
  }

  /** A string contains whatever its middle part contains. */
  lemma {:induction false} ContainsInfix(a: string, b: string, c: string, part: string)
    requires Contains(b, part)
    ensures Contains(a + b + c, part)
  {
    var i :| OccursAt(b, part, i);
    var s := a + b + c;
    assert s[|a| + i..|a| + i + |part|] == b[i..i + |part|];
    assert OccursAt(s, part, |a| + i);
  }

  /** A string contains itself. */
  lemma ContainsSelf(s: string)
    ensures Contains(s, s)
  {
    assert OccursAt(s, s, 0);
  }

  /** A string `prefix + x + suffix` determines `x`. */
  lemma {:induction false} TemplateInjective(prefix: string, suffix: string, a: string, b: string)
    requires prefix + a + suffix == prefix + b + suffix
    ensures a == b
  {
    var s1, s2 := prefix + a + suffix, prefix + b + suffix;
    assert |a| == |b|;
    forall i | 0 <= i < |a|
      ensures a[i] == b[i]
    {
      assert s1[|prefix| + i] == a[i];
      assert s2[|prefix| + i] == b[i];
    }
  }

  /** The text between `prefix` and `suffix`, when `s` has that shape. */
  function Between(prefix: string, suffix: string, s: string): (r: Option<string>)
    ensures r.Some? ==> s == prefix + r.value + suffix
  {
    if |prefix| + |suffix| <= |s| && s[..|prefix|] == prefix && s[|s| - |suffix|..] == suffix then
      var mid := s[|prefix|..|s| - |suffix|];
      assert s == s[..|prefix|] + mid + s[|s| - |suffix|..];
      Some(mid)
    else None
  }

  /** Filling a template and reading it back gives the original text. */
  lemma {:induction false} BetweenRoundTrip(prefix: string, suffix: string, x: string)
    ensures Between(prefix, suffix, prefix + x + suffix) == Some(x)
  {
    var s := prefix + x + suffix;
    assert s[..|prefix|] == prefix;
    assert s[|s| - |suffix|..] == suffix;
    assert s[|prefix|..|s| - |suffix|] == x;
  }
}
