/**
 * The Python string operations the scraper and the generators rely on
 * (`lower`, `in`, `find`, `split`, `strip`, `replace`, `join`, `startswith`,
 * `float`), with their Python meaning on the ASCII range.
 */
module Strings {
  import opened Wrappers

  /** The space and the ASCII control characters '\t' to '\r', which Python's `split()` and `strip()` treat as whitespace. */
  const Whitespace: set<char> := {' ', '\t', '\n', '\r', '\U{0B}', '\U{0C}'}

  predicate IsUpper(c: char) { 'A' <= c <= 'Z' }

  predicate IsLowerLetter(c: char) { 'a' <= c <= 'z' }

  predicate IsDigit(c: char) { '0' <= c <= '9' }

  /** `c.isalnum()` */
  predicate IsAlnum(c: char) { IsUpper(c) || IsLowerLetter(c) || IsDigit(c) }

  function LowerChar(c: char): char {
    if IsUpper(c) then (c as int + 32) as char else c
  }

  /** `s.lower()`: the same length, every letter lower-cased, nothing else touched. */
  function Lower(s: string): (r: string)
    ensures |r| == |s|
    ensures forall i :: 0 <= i < |s| ==> r[i] == LowerChar(s[i])
  {
    if s == [] then [] else [LowerChar(s[0])] + Lower(s[1..])
  }

  /** Lower-casing twice is lower-casing once. */
  lemma LowerIdempotent(s: string)
    ensures Lower(Lower(s)) == Lower(s)
  {
    assert forall i :: 0 <= i < |s| ==> LowerChar(LowerChar(s[i])) == LowerChar(s[i]);
  }

  predicate IsPrefix(p: string, s: string) { |p| <= |s| && s[..|p|] == p }

  predicate IsSuffix(p: string, s: string) { |p| <= |s| && s[|s| - |p|..] == p }

  /** `sub` occurs in `s` starting at index `i`. */
  predicate OccursAt(s: string, sub: string, i: int) {
    0 <= i && i + |sub| <= |s| && s[i..i + |sub|] == sub
  }

  /** `sub in s` */
  predicate Contains(s: string, sub: string)
    decreases |s|
  {
    IsPrefix(sub, s) || (|s| > 0 && Contains(s[1..], sub))
  }

  /** An occurrence at any index makes `Contains` hold. */
  lemma {:induction false} ContainsAt(s: string, sub: string, i: int)
    requires OccursAt(s, sub, i)
    ensures Contains(s, sub)
    decreases i
  {
    if i > 0 {
      assert s[1..][i - 1..i - 1 + |sub|] == s[i..i + |sub|];
      ContainsAt(s[1..], sub, i - 1);
    } else {
      assert IsPrefix(sub, s);
    }
  }

  /** A string contains every piece it is built from. */
  lemma ContainsMiddle(a: string, x: string, b: string)
    ensures Contains(a + x + b, x)
  {
    var s := a + x + b;
    assert s[|a|..|a| + |x|] == x;
    ContainsAt(s, x, |a|);
  }

  /** `Contains` holds only through an occurrence at some index. */
  lemma {:induction false} ContainsWitness(s: string, sub: string)
    requires Contains(s, sub)
    ensures exists i :: OccursAt(s, sub, i)
    decreases |s|
  {
    if IsPrefix(sub, s) {
      assert OccursAt(s, sub, 0);
    } else {
      ContainsWitness(s[1..], sub);
      var i :| OccursAt(s[1..], sub, i);
      assert s[1..][i..i + |sub|] == s[i + 1..i + 1 + |sub|];
      assert OccursAt(s, sub, i + 1);
    }
  }

  /** `Contains` holds exactly when `sub` occurs at some index. */
  lemma ContainsIff(s: string, sub: string)
    ensures Contains(s, sub) <==> exists i :: OccursAt(s, sub, i)
  {
    if Contains(s, sub) {
      ContainsWitness(s, sub);
    }
    if exists i :: OccursAt(s, sub, i) {
      var i :| OccursAt(s, sub, i);
      ContainsAt(s, sub, i);
    }
  }

  /** `s.find(sub)`: the first index at which `sub` occurs, or -1 when it does not occur. */
  function Find(s: string, sub: string): (k: int)
    ensures k == -1 || OccursAt(s, sub, k)
    ensures k == -1 <==> !Contains(s, sub)
    ensures forall j :: 0 <= j < k ==> !OccursAt(s, sub, j)
    ensures k == -1 ==> forall j :: !OccursAt(s, sub, j)
  {
    ContainsIff(s, sub);
    FindFrom(s, sub, 0)
  }

  function FindFrom(s: string, sub: string, i: nat): (k: int)
    requires i <= |s|
    ensures k == -1 || (i <= k && OccursAt(s, sub, k))
    ensures forall j :: i <= j < k ==> !OccursAt(s, sub, j)
    ensures k == -1 ==> forall j :: i <= j ==> !OccursAt(s, sub, j)
    decreases |s| - i
  {
    if OccursAt(s, sub, i) then i
    else if i + |sub| >= |s| then -1
    else FindFrom(s, sub, i + 1)
  }

  /** `s` with its leading characters from `cs` removed. */
  function StripLeft(s: string, cs: set<char>): (r: string)
    ensures |r| <= |s| && r == s[|s| - |r|..]
    ensures r != [] ==> r[0] !in cs
    ensures forall i :: 0 <= i < |s| - |r| ==> s[i] in cs
  {
    if s != [] && s[0] in cs then StripLeft(s[1..], cs) else s
  }

  /** `s` with its trailing characters from `cs` removed. */
  function StripRight(s: string, cs: set<char>): (r: string)
    ensures |r| <= |s| && r == s[..|r|]
    ensures r != [] ==> r[|r| - 1] !in cs
    ensures forall i :: |r| <= i < |s| ==> s[i] in cs
  {
    if s != [] && s[|s| - 1] in cs then StripRight(s[..|s| - 1], cs) else s
  }

  /** `s.strip(cs)`: both ends stripped of the characters in `cs` (a set, not a suffix). */
  function Strip(s: string, cs: set<char>): string {
    StripRight(StripLeft(s, cs), cs)
  }

  /** `s.strip()` */
  function Trim(s: string): string {
    Strip(s, Whitespace)
  }

  /** A stripped string keeps nothing from `cs` at either end and is a slice of the input. */
  lemma StripEnds(s: string, cs: set<char>)
    ensures var r := Strip(s, cs);
      var i := |s| - |StripLeft(s, cs)|;
      (r != [] ==> r[0] !in cs && r[|r| - 1] !in cs) && i + |r| <= |s| && r == s[i..i + |r|]
  {
    var l := StripLeft(s, cs);
    var i := |s| - |l|;
    var r := StripRight(l, cs);
    assert l == s[i..] && r == l[..|r|];
    SliceOfSuffix(s, i, |r|);
    if r != [] {
      assert r[0] == l[0];
    }
  }

  /** A prefix of a suffix is a slice. */
  lemma SliceOfSuffix<T>(s: seq<T>, i: nat, m: nat)
    requires i + m <= |s|
    ensures s[i..][..m] == s[i..i + m]
  {
  }

  /** A first character outside `cs` survives stripping. */
  lemma StripKeepsHead(s: string, cs: set<char>)
    requires s != [] && s[0] !in cs
    ensures Strip(s, cs) != [] && Strip(s, cs)[0] == s[0]
  {
    assert StripLeft(s, cs) == s;
  }

  /** Stripping twice is stripping once. */
  lemma StripIdempotent(s: string, cs: set<char>)
    ensures Strip(Strip(s, cs), cs) == Strip(s, cs)
  {
    StripEnds(s, cs);
  }

  /** The length of the leading run of `s` without whitespace. */
  function WordLength(s: string): (n: nat)
    ensures n <= |s|
    ensures forall i :: 0 <= i < n ==> s[i] !in Whitespace
    ensures n < |s| ==> s[n] in Whitespace
  {
    if s == [] || s[0] in Whitespace then 0 else 1 + WordLength(s[1..])
  }

  /** `s.split()`: the maximal runs of non-whitespace characters, in order. */
  function Words(s: string): (ws: seq<string>)
    ensures forall k :: 0 <= k < |ws| ==> ws[k] != [] && forall c :: c in ws[k] ==> c !in Whitespace
    decreases |s|
  {
    var t := StripLeft(s, Whitespace);
    if t == [] then []
    else
      var n := WordLength(t);
      [t[..n]] + Words(t[n..])
  }

  /** `s.replace(pat, rep)`: every non-overlapping occurrence, scanning from the left. */
  function Replace(s: string, pat: string, rep: string): string
    requires pat != []
    decreases |s|
  {
    if |s| < |pat| then s
    else if IsPrefix(pat, s) then rep + Replace(s[|pat|..], pat, rep)
    else [s[0]] + Replace(s[1..], pat, rep)
  }

  /** A string that avoids the first character of the pattern has nothing to replace. */
  lemma {:induction false} ReplaceAbsent(s: string, pat: string, rep: string)
    requires pat != [] && pat[0] !in s
    ensures Replace(s, pat, rep) == s
    decreases |s|
  {
    if |s| >= |pat| {
      assert s[0] != pat[0];
      ReplaceAbsent(s[1..], pat, rep);
      assert [s[0]] + s[1..] == s;
    }
  }

  /** A pattern at the very start is replaced, and the replacement goes on after it. */
  lemma ReplaceAtStart(pat: string, s: string, rep: string)
    requires pat != []
    ensures Replace(pat + s, pat, rep) == rep + Replace(s, pat, rep)
  {
    assert (pat + s)[..|pat|] == pat;
    assert (pat + s)[|pat|..] == s;
  }

  /** A pattern at the end, after a part that avoids its first character, is its only occurrence. */
  lemma {:induction false} ReplaceAtEnd(s: string, pat: string, rep: string)
    requires pat != [] && pat[0] !in s
    ensures Replace(s + pat, pat, rep) == s + rep
    decreases |s|
  {
    if s == [] {
      assert s + pat == pat + [];
      ReplaceAtStart(pat, [], rep);
      assert rep + [] == s + rep;
    } else {
      assert (s + pat)[0] != pat[0];
      assert (s + pat)[1..] == s[1..] + pat;
      ReplaceAtEnd(s[1..], pat, rep);
      assert [s[0]] + (s[1..] + rep) == s + rep;
    }
  }

  /** `sep.join(parts)` */
  function Join(sep: string, parts: seq<string>): string {
    if parts == [] then ""
    else if |parts| == 1 then parts[0]
    else parts[0] + sep + Join(sep, parts[1..])
  }

  /** `s[:n]` for `n >= 0` */
  function Take<T>(s: seq<T>, n: nat): (r: seq<T>)
    ensures |r| == if |s| < n then |s| else n
    ensures r == s[..|r|]
  {
    if |s| <= n then s else s[..n]
  }

  function DigitChar(d: nat): char
    requires d < 10
  {
    ('0' as int + d) as char
  }

  /** `str(n)` for a natural number. */
  function NatToString(n: nat): (r: string)
    ensures r != [] && forall i :: 0 <= i < |r| ==> IsDigit(r[i])
  {
    if n < 10 then [DigitChar(n)] else NatToString(n / 10) + [DigitChar(n % 10)]
  }

  function DigitValue(c: char): nat
    requires IsDigit(c)
  {
    c as int - '0' as int
  }

  predicate AllDigits(s: string) {
    forall i :: 0 <= i < |s| ==> IsDigit(s[i])
  }

  /** The value of a string of decimal digits ("" reads as 0). */
  function DigitsValue(s: string): nat
    requires AllDigits(s)
  {
    if s == [] then 0 else DigitsValue(s[..|s| - 1]) * 10 + DigitValue(s[|s| - 1])
  }

  function Pow10(n: nat): (p: nat)
    ensures p >= 1
  {
    if n == 0 then 1 else 10 * Pow10(n - 1)
  }

  /** Reading back the decimal digits of `n` gives `n`. */
  lemma {:induction false} DigitsValueOfNat(n: nat)
    ensures AllDigits(NatToString(n)) && DigitsValue(NatToString(n)) == n
  {
    var r := NatToString(n);
    if n >= 10 {
      DigitsValueOfNat(n / 10);
      assert r[..|r| - 1] == NatToString(n / 10);
    }
  }

  /** The value of `digits[.digits]` with at least one digit; `None` for anything else. */
  function UnsignedDecimal(s: string): Option<real> {
    var dot := Find(s, ".");
    var whole := if dot == -1 then s else s[..dot];
    var frac := if dot == -1 then "" else s[dot + 1..];
    if AllDigits(whole) && AllDigits(frac) && |whole| + |frac| > 0 then
      Some(DigitsValue(whole) as real + DigitsValue(frac) as real / Pow10(|frac|) as real)
    else None
  }

  /**
   * `float(s)` for decimal numerals: surrounding whitespace, an optional sign,
   * digits with at most one point; `None` where Python raises.
   */
  function ParseFloat(s: string): Option<real> {
    var t := Trim(s);
    if t != [] && (t[0] == '+' || t[0] == '-') then
      match UnsignedDecimal(t[1..])
      case Some(v) => Some(if t[0] == '-' then -v else v)
      case None => None
    else UnsignedDecimal(t)
  }

  /** A string of digits is its own trimmed form. */
  lemma DigitsAreTrimmed(s: string)
    requires s != [] && AllDigits(s)
    ensures Trim(s) == s
  {
    assert StripLeft(s, Whitespace) == s;
    assert StripRight(s, Whitespace) == s;
  }

  /** A string of digits contains no point. */
  lemma DigitsHaveNoPoint(s: string)
    requires AllDigits(s)
    ensures Find(s, ".") == -1
  {
    ContainsIff(s, ".");
    MissingCharNeverOccurs(s, '.');
  }

  /** A character that is not in `s` occurs nowhere in it. */
  lemma MissingCharNeverOccurs(s: string, c: char)
    requires c !in s
    ensures forall i :: !OccursAt(s, [c], i)
  {
    forall i | 0 <= i && i + 1 <= |s|
      ensures !OccursAt(s, [c], i)
    {
      assert s[i..i + 1][0] == s[i];
    }
  }

  /** A nonempty string of digits reads as the value of its digits. */
  lemma UnsignedDecimalOfDigits(s: string)
    requires s != [] && AllDigits(s)
    ensures UnsignedDecimal(s) == Some(DigitsValue(s) as real)
  {
    DigitsHaveNoPoint(s);
    assert AllDigits("") && DigitsValue("") == 0 && Pow10(0) == 1;
  }

  /** `float(str(n)) == n` */
  lemma ParseFloatOfNat(n: nat)
    ensures ParseFloat(NatToString(n)) == Some(n as real)
  {
    var r := NatToString(n);
    DigitsValueOfNat(n);
    DigitsAreTrimmed(r);
    UnsignedDecimalOfDigits(r);
    assert r[0] != '+' && r[0] != '-';
  }
}
