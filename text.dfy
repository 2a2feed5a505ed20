/** The few Python string operations the order dialogue relies on:
    `str.isspace`, `str.strip`, `str.split()[0]`, `str.partition`, ASCII
    lower-casing and `str(int)`. Strings are sequences of Unicode code points,
    as in Python 3. */
module Text {
  import opened Wrappers

  /** Python's `str.isspace` on one character (Unicode whitespace). */
  predicate IsSpace(c: char) {
    ('\t' <= c <= '\r') || ('\U{1C}' <= c <= '\U{1F}') || c == ' ' || c == '\U{85}' || c == '\U{A0}'
    || c == '\U{1680}' || ('\U{2000}' <= c <= '\U{200A}') || c == '\U{2028}' || c == '\U{2029}'
    || c == '\U{202F}' || c == '\U{205F}' || c == '\U{3000}'
  }

  predicate AllSpace(s: string) {
    forall k :: 0 <= k < |s| ==> IsSpace(s[k])
  }

  /** No character of `s` at an index in [lo, hi) is whitespace. */
  predicate SpaceRun(s: string, lo: int, hi: int) {
    forall k :: lo <= k < hi && 0 <= k < |s| ==> IsSpace(s[k])
  }

  /** Where `lstrip` cuts when it starts at `i`: the first index at or after
      `i` that holds no whitespace, or `|s|`. */
  function SkipSpaces(s: string, i: nat): (n: nat)
    requires i <= |s|
    ensures i <= n <= |s| && SpaceRun(s, i, n)
    ensures n < |s| ==> !IsSpace(s[n])
    decreases |s| - i
  {
    if i < |s| && IsSpace(s[i]) then SkipSpaces(s, i + 1) else i
  }

  /** Where `rstrip` cuts `s[lo..j]`: just after its last character that is
      not whitespace, or `lo`. */
  function SkipSpacesBack(s: string, lo: nat, j: nat): (n: nat)
    requires lo <= j <= |s|
    ensures lo <= n <= j && SpaceRun(s, n, j)
    ensures n > lo ==> !IsSpace(s[n - 1])
    decreases j
  {
    if j > lo && IsSpace(s[j - 1]) then SkipSpacesBack(s, lo, j - 1) else j
  }

  /** `r` is `s[i..i + |r|]`, and everything of `s` before and after it is
      whitespace. */
  predicate StrippedAt(s: string, r: string, i: int) {
    0 <= i && i + |r| <= |s| && s[i..i + |r|] == r && SpaceRun(s, 0, i) && SpaceRun(s, i + |r|, |s|)
  }

  /** `s.strip()`: only whitespace is removed, from both ends, and no
      whitespace is left at either end. */
  function Strip(s: string): (r: string)
    ensures exists i :: StrippedAt(s, r, i)
    ensures r == [] || (!IsSpace(r[0]) && !IsSpace(r[|r| - 1]))
  {
    var a := SkipSpaces(s, 0);
    var b := SkipSpacesBack(s, a, |s|);
    assert StrippedAt(s, s[a..b], a);
    s[a..b]
  }

  /** `lstrip()` stops at the first non-whitespace character. */
  lemma {:induction false} SkipSpacesAt(s: string, i: nat, n: nat)
    requires i <= n <= |s| && SpaceRun(s, i, n)
    requires n < |s| ==> !IsSpace(s[n])
    ensures SkipSpaces(s, i) == n
    decreases n - i
  {
    if i < n {
      SkipSpacesAt(s, i + 1, n);
    }
  }

  /** `rstrip()` stops after the last non-whitespace character. */
  lemma {:induction false} SkipSpacesBackAt(s: string, lo: nat, j: nat, n: nat)
    requires lo <= n <= j <= |s| && SpaceRun(s, n, j)
    requires n > lo ==> !IsSpace(s[n - 1])
    ensures SkipSpacesBack(s, lo, j) == n
    decreases j - n
  {
    if n < j {
      SkipSpacesBackAt(s, lo, j - 1, n);
    }
  }

  /** `Strip` is determined by its contract: any way of cutting whitespace off
      both ends of `s` that leaves no whitespace at either end gives `Strip(s)`. */
  lemma StripCharacterised(s: string, t: string, i: int)
    requires StrippedAt(s, t, i)
    requires t == [] || (!IsSpace(t[0]) && !IsSpace(t[|t| - 1]))
    ensures Strip(s) == t
  {
    if t == [] {
      SkipSpacesAt(s, 0, |s|);
      SkipSpacesBackAt(s, |s|, |s|, |s|);
    } else {
      assert s[i] == t[0] && s[i + |t| - 1] == t[|t| - 1];
      SkipSpacesAt(s, 0, i);
      SkipSpacesBackAt(s, i, |s|, i + |t|);
    }
  }

  /** A text with no whitespace at either end is its own `strip()`. */
  lemma StripUnpadded(t: string)
    requires t == [] || (!IsSpace(t[0]) && !IsSpace(t[|t| - 1]))
    ensures Strip(t) == t
  {
    assert StrippedAt(t, t, 0);
    StripCharacterised(t, t, 0);
  }

  /** The end of the run of non-whitespace characters that starts at `i`. */
  function WordEnd(s: string, i: nat): (e: nat)
    requires i <= |s|
    ensures i <= e <= |s|
    ensures forall k :: i <= k < e ==> !IsSpace(s[k])
    ensures e < |s| ==> IsSpace(s[e])
    decreases |s| - i
  {
    if i < |s| && !IsSpace(s[i]) then WordEnd(s, i + 1) else i
  }

  /** `s.split()[0]`; None where Python raises IndexError because `s` holds
      no non-whitespace character. */
  function FirstWord(s: string): (w: Option<string>)
    ensures w.None? <==> AllSpace(s)
    ensures w.Some? ==> w.value != [] && forall k :: 0 <= k < |w.value| ==> !IsSpace(w.value[k])
    ensures w.Some? ==> exists a :: WordAt(s, w.value, a)
  {
    var a := SkipSpaces(s, 0);
    if a == |s| then None
    else
      var e := WordEnd(s, a);
      assert WordAt(s, s[a..e], a);
      Some(s[a..e])
  }

  /** `w` is `s[a..a + |w|]`, only whitespace comes before it, and it ends at
      whitespace or at the end of `s`: the first whitespace-separated word. */
  predicate WordAt(s: string, w: string, a: int) {
    0 <= a && a + |w| <= |s| && SpaceRun(s, 0, a) && s[a..a + |w|] == w
    && (a + |w| == |s| || IsSpace(s[a + |w|]))
  }

  /** A run of non-whitespace characters from `i` to `e` that stops at
      whitespace or at the end of `s` is what WordEnd finds. */
  lemma {:induction false} WordEndAt(s: string, i: nat, e: nat)
    requires i <= e <= |s|
    requires forall k :: i <= k < e ==> !IsSpace(s[k])
    requires e < |s| ==> IsSpace(s[e])
    ensures WordEnd(s, i) == e
    decreases e - i
  {
    if i < e {
      WordEndAt(s, i + 1, e);
    }
  }

  /** `FirstWord` is determined by its contract: a non-empty word without
      whitespace that only whitespace precedes and that whitespace or the end
      of `s` follows is `s.split()[0]`. */
  lemma FirstWordCharacterised(s: string, w: string, a: int)
    requires WordAt(s, w, a)
    requires w != [] && forall k :: 0 <= k < |w| ==> !IsSpace(w[k])
    ensures FirstWord(s) == Some(w)
  {
    assert s[a] == w[0];
    SkipSpacesAt(s, 0, a);
    assert forall k :: a <= k < a + |w| ==> s[k] == w[k - a];
    WordEndAt(s, a, a + |w|);
  }

  /** `s.partition(sep)` without the separator: the text before the first
      `sep`, and the text after it ("" when `sep` does not occur). */
  function Partition(s: string, sep: char): (p: (string, string))
    ensures sep !in p.0
    ensures if sep in s then s == p.0 + [sep] + p.1 else p == (s, "")
  {
    if s == [] then ([], [])
    else if s[0] == sep then ([], s[1..])
    else
      var q := Partition(s[1..], sep);
      assert s == [s[0]] + s[1..];
      ([s[0]] + q.0, q.1)
  }

  function AsciiLowerChar(c: char): char {
    if 'A' <= c <= 'Z' then (c as int + 32) as char else c
  }

  /** `a.lower() == b.lower()`, with lower-casing restricted to the ASCII letters. */
  predicate EqualIgnoringAsciiCase(a: string, b: string) {
    |a| == |b| && forall k :: 0 <= k < |a| ==> AsciiLowerChar(a[k]) == AsciiLowerChar(b[k])
  }

  predicate IsDigit(c: char) {
    '0' <= c <= '9'
  }

  predicate AllDigits(s: string) {
    forall k :: 0 <= k < |s| ==> IsDigit(s[k])
  }

  function DigitValue(c: char): nat
    requires IsDigit(c)
  {
    c as int - '0' as int
  }

  function DigitChar(d: nat): (c: char)
    requires d < 10
    ensures IsDigit(c) && DigitValue(c) == d
  {
    ('0' as int + d) as char
  }

  /** `str(n)` for a non-negative integer: its decimal digits, without
      leading zeros. */
  function NatToString(n: nat): (r: string)
    ensures r != [] && AllDigits(r)
    ensures r[0] == '0' ==> n == 0
  {
    if n < 10 then [DigitChar(n)] else NatToString(n / 10) + [DigitChar(n % 10)]
  }

  /** The value of a string of decimal digits. */
  function ParseNat(s: string): nat
    requires AllDigits(s)
  {
    if s == [] then 0 else 10 * ParseNat(s[..|s| - 1]) + DigitValue(s[|s| - 1])
  }

  /** Reading back the decimal digits of `n` gives `n`. */
  lemma {:induction false} ParseNatToString(n: nat)
    ensures ParseNat(NatToString(n)) == n
  {
    var s := NatToString(n);
    if n >= 10 {
      assert s[..|s| - 1] == NatToString(n / 10);
      ParseNatToString(n / 10);
    }
  }

  /** Python's `str(i)` for an integer. */
  function IntToString(i: int): (r: string)
    ensures r != [] && forall k :: 0 <= k < |r| ==> IsDigit(r[k]) || (k == 0 && r[k] == '-')
  {
    if i < 0 then "-" + NatToString(-i) else NatToString(i)
  }

  /** Different integers print differently. */
  lemma IntToStringInjective(a: int, b: int)
    requires IntToString(a) == IntToString(b)
    ensures a == b
  {
    if a < 0 && b < 0 {
      assert NatToString(-a) == IntToString(a)[1..];
      ParseNatToString(-a);
      ParseNatToString(-b);
    } else if a >= 0 && b >= 0 {
      ParseNatToString(a);
      ParseNatToString(b);
    }
  }
}
