/** String operations the backend and the browser apply: Python's str.strip, ASCII case mapping,
    prefix and suffix tests, and the decimal text of numbers. */
module Text {

  /** Python's str.isspace() for one code point: what str.strip() without an argument removes. */
  predicate IsSpace(c: char) {
    c == ' ' || ('\t' <= c <= '\r') || ('\U{1c}' <= c <= '\U{1f}')
    || c == '\U{85}' || c == '\U{a0}' || c == '\U{1680}' || ('\U{2000}' <= c <= '\U{200a}')
    || c == '\U{2028}' || c == '\U{2029}' || c == '\U{202f}' || c == '\U{205f}' || c == '\U{3000}'
  }

  /** `r` is a contiguous piece of `s`. */
  ghost predicate IsSlice(r: string, s: string) {
    exists i, j :: 0 <= i <= j <= |s| && r == s[i..j]
  }

  lemma SliceOfSlice(r: string, t: string, s: string)
    requires IsSlice(r, t) && IsSlice(t, s)
    ensures IsSlice(r, s)
  {
    var a, b :| 0 <= a <= b <= |t| && r == t[a..b];
    var c, d :| 0 <= c <= d <= |s| && t == s[c..d];
    SliceAt(s, c, d, a, b);
  }

  lemma SliceAt(s: string, c: nat, d: nat, a: nat, b: nat)
    requires c <= d <= |s| && a <= b <= d - c
    ensures s[c..d][a..b] == s[c + a..c + b]
  {
    assert forall k :: 0 <= k < b - a ==> s[c..d][a..b][k] == s[c + a + k];
  }

  /** How many characters at the front of `s` are dropped. */
  function Leading(s: string, drop: char -> bool): (n: nat)
    ensures n <= |s|
    ensures forall k :: 0 <= k < n ==> drop(s[k])
    ensures n < |s| ==> !drop(s[n])
  {
    if s == [] || !drop(s[0]) then 0 else 1 + Leading(s[1..], drop)
  }

  /** How many characters at the back of `s` are dropped. */
  function Trailing(s: string, drop: char -> bool): (n: nat)
    ensures n <= |s|
    ensures forall k :: |s| - n <= k < |s| ==> drop(s[k])
    ensures n < |s| ==> !drop(s[|s| - 1 - n])
  {
    if s == [] || !drop(s[|s| - 1]) then 0 else 1 + Trailing(s[..|s| - 1], drop)
  }

  /** Python's `s.strip(chars)` (or `s.strip()` with `drop` = IsSpace): the slice of `s` left after
      every leading and every trailing character that `drop` accepts is removed. */
  function Strip(s: string, drop: char -> bool): (r: string)
    ensures Leading(s, drop) + |r| <= |s|
    ensures r == s[Leading(s, drop)..Leading(s, drop) + |r|]
    ensures forall k :: 0 <= k < |s| && !(Leading(s, drop) <= k < Leading(s, drop) + |r|) ==> drop(s[k])
    ensures r != [] ==> !drop(r[0]) && !drop(r[|r| - 1])
  {
    var a := Leading(s, drop);
    var t := s[a..];
    var n := Trailing(t, drop);
    var r := t[..|t| - n];
    assert r == s[a..a + |r|];
    assert forall k :: a + |r| <= k < |s| ==> drop(s[k]) by {
      forall k | a + |r| <= k < |s|
        ensures drop(s[k])
      {
        assert s[k] == t[k - a];
      }
    }
    assert r != [] ==> !drop(r[0]) && !drop(r[|r| - 1]) by {
      if r != [] {
        assert r[0] == s[a];
        assert r[|r| - 1] == t[|t| - 1 - n];
      }
    }
    r
  }

  lemma SuffixSlice(s: string, n: nat)
    requires n <= |s|
    ensures IsSlice(s[n..], s)
  {
    assert s[n..] == s[n..|s|];
  }

  lemma PrefixSlice(s: string, n: nat)
    requires n <= |s|
    ensures IsSlice(s[..n], s)
  {
    assert s[..n] == s[0..n];
  }

  lemma StripSlice(s: string, drop: char -> bool)
    ensures IsSlice(Strip(s, drop), s)
  {
    var a := Leading(s, drop);
    assert Strip(s, drop) == s[a..a + |Strip(s, drop)|];
  }

  /** No whitespace at either end. */
  predicate Trimmed(r: string) {
    r != [] ==> !IsSpace(r[0]) && !IsSpace(r[|r| - 1])
  }

  lemma StripTrims(s: string)
    ensures Trimmed(Strip(s, IsSpace))
  {
  }

  /** The three properties Strip promises determine its result: any slice `s[i..j]` with only dropped
      characters outside it and kept characters at both of its ends is the stripped text. */
  lemma StripUnique(s: string, drop: char -> bool, i: nat, j: nat)
    requires i <= j <= |s|
    requires forall k :: 0 <= k < i ==> drop(s[k])
    requires forall k :: j <= k < |s| ==> drop(s[k])
    requires i < j ==> !drop(s[i]) && !drop(s[j - 1])
    ensures Strip(s, drop) == s[i..j]
  {
    var a := Leading(s, drop);
    var r := Strip(s, drop);
    assert a < |s| ==> !drop(s[a]);
    assert i < j ==> drop(s[i]) || i >= a;
    if i < j {
      assert a == i;
      assert a + |r| - 1 < |s| ==> !drop(s[a + |r| - 1]) || r == [];
      assert r != [] ==> r[|r| - 1] == s[a + |r| - 1];
    }
  }

  predicate StartsWith(s: string, prefix: string) {
    |prefix| <= |s| && s[..|prefix|] == prefix
  }

  predicate EndsWith(s: string, suffix: string) {
    |suffix| <= |s| && s[|s| - |suffix|..] == suffix
  }

  /** Python's `needle in haystack` for two strings. */
  predicate Contains(haystack: string, needle: string)
    decreases |haystack|
  {
    |needle| <= |haystack| && (haystack[..|needle|] == needle || Contains(haystack[1..], needle))
  }

  lemma ContainsAt(haystack: string, needle: string, i: nat)
    requires i + |needle| <= |haystack| && haystack[i..i + |needle|] == needle
    ensures Contains(haystack, needle)
    decreases i
  {
    if i > 0 {
      assert haystack[1..][i - 1..i - 1 + |needle|] == needle;
      ContainsAt(haystack[1..], needle, i - 1);
    }
  }

  function LowerChar(c: char): char {
    if 'A' <= c <= 'Z' then (c as int + 32) as char else c
  }

  function UpperChar(c: char): char {
    if 'a' <= c <= 'z' then (c as int - 32) as char else c
  }

  /** Lower-casing of the ASCII letters; every other character is kept. */
  function Lower(s: string): (r: string)
    ensures |r| == |s| && forall k :: 0 <= k < |s| ==> r[k] == LowerChar(s[k])
  {
    seq(|s|, k requires 0 <= k < |s| => LowerChar(s[k]))
  }

  /** Upper-casing of the ASCII letters; every other character is kept. */
  function Upper(s: string): (r: string)
    ensures |r| == |s| && forall k :: 0 <= k < |s| ==> r[k] == UpperChar(s[k])
  {
    seq(|s|, k requires 0 <= k < |s| => UpperChar(s[k]))
  }

  /** Lower-casing forgets every earlier change of case. */
  lemma LowerOfUpper(s: string)
    ensures Lower(Upper(s)) == Lower(s)
  {
    assert forall k :: 0 <= k < |s| ==> LowerChar(UpperChar(s[k])) == LowerChar(s[k]);
  }

  lemma LowerOfLower(s: string)
    ensures Lower(Lower(s)) == Lower(s)
  {
    assert forall k :: 0 <= k < |s| ==> LowerChar(LowerChar(s[k])) == LowerChar(s[k]);
  }

  function Digit(d: int): char
    requires 0 <= d <= 9
  {
    "0123456789"[d]
  }

  function NatText(n: nat): (r: string)
    ensures r != []
  {
    if n < 10 then [Digit(n)] else NatText(n / 10) + [Digit(n % 10)]
  }

  /** The decimal text of an integer, as both Python's str() and JavaScript's String() write it. */
  function IntText(i: int): string {
    if i < 0 then "-" + NatText(-i) else NatText(i)
  }

  /** Up to `n` digits of the fraction `f` after the decimal point, trailing zeros not written. */
  function FractionText(f: real, n: nat): string
    requires 0.0 <= f < 1.0
    decreases n
  {
    if n == 0 || f == 0.0 then ""
    else
      var d := (f * 10.0).Floor;
      [Digit(d)] + FractionText(f * 10.0 - d as real, n - 1)
  }

  predicate IsIntegral(r: real) {
    r.Floor as real == r
  }

  /** A non-integral number in positional notation with at most 17 fractional digits. */
  function DecimalText(r: real): string {
    var m := if r < 0.0 then -r else r;
    var whole := m.Floor;
    (if r < 0.0 then "-" else "") + NatText(whole)
      + (if IsIntegral(m) then "" else "." + FractionText(m - whole as real, 17))
  }

  function Join(parts: seq<string>, sep: string): string {
    if parts == [] then ""
    else if |parts| == 1 then parts[0]
    else parts[0] + sep + Join(parts[1..], sep)
  }
}
