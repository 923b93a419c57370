/** The few pieces of Python string behaviour the policy and the approval
    prompt rely on: `str.isspace`, `str.strip`, `str.lower`, `str.split()`,
    the regular-expression word class and decimal rendering of integers. */
module Text {

  /** Python's whitespace set (`str.isspace`, and `\s` in a `str` pattern). */
  predicate IsSpace(c: char) {
    ('\t' <= c <= '\r') || ('\U{1c}' <= c <= '\U{1f}') || c == ' '
    || c == '\U{85}' || c == '\U{a0}' || c == '\U{1680}'
    || ('\U{2000}' <= c <= '\U{200a}') || c == '\U{2028}' || c == '\U{2029}'
    || c == '\U{202f}' || c == '\U{205f}' || c == '\U{3000}'
  }

  /** The regular-expression word class `\w`, restricted to ASCII. */
  predicate IsWordChar(c: char) {
    ('a' <= c <= 'z') || ('A' <= c <= 'Z') || ('0' <= c <= '9') || c == '_'
  }

  predicate IsUpper(c: char) {
    'A' <= c <= 'Z'
  }

  function LowerChar(c: char): (r: char)
    ensures !IsUpper(r)
    ensures 'A' <= c <= 'Z' ==> r as int == c as int + 32
    ensures !('A' <= c <= 'Z') ==> r == c
    ensures IsSpace(r) <==> IsSpace(c)
    ensures IsWordChar(r) <==> IsWordChar(c)
  {
    if IsUpper(c) then (c as int + 32) as char else c
  }

  /** `s.lower()` on ASCII letters; every other character is kept. */
  function Lower(s: string): (r: string)
    ensures |r| == |s|
    ensures forall i :: 0 <= i < |s| ==> r[i] == LowerChar(s[i])
  {
    seq(|s|, i requires 0 <= i < |s| => LowerChar(s[i]))
  }

  /** Every character of `s[lo..hi]` is whitespace. */
  predicate SpacesBetween(s: string, lo: int, hi: int)
    requires 0 <= lo <= hi <= |s|
  {
    forall i :: lo <= i < hi ==> IsSpace(s[i])
  }

  predicate AllSpace(s: string) {
    SpacesBetween(s, 0, |s|)
  }

  /** Index of the first non-space character at or after `j`. */
  function SkipSpaces(s: string, j: nat): (k: nat)
    requires j <= |s|
    ensures j <= k <= |s|
    ensures SpacesBetween(s, j, k)
    ensures k < |s| ==> !IsSpace(s[k])
    decreases |s| - j
  {
    if j < |s| && IsSpace(s[j]) then SkipSpaces(s, j + 1) else j
  }

  /** Index of the first space character at or after `j`, or `|s|`. */
  function NextSpace(s: string, j: nat): (k: nat)
    requires j <= |s|
    ensures j <= k <= |s|
    ensures forall i :: j <= i < k ==> !IsSpace(s[i])
    ensures k < |s| ==> IsSpace(s[k])
    decreases |s| - j
  {
    if j < |s| && !IsSpace(s[j]) then NextSpace(s, j + 1) else j
  }

  /** Start of the longest all-space suffix of `s[..n]`. */
  function TrailingStart(s: string, n: nat): (k: nat)
    requires n <= |s|
    ensures k <= n
    ensures SpacesBetween(s, k, n)
    ensures k > 0 ==> !IsSpace(s[k - 1])
  {
    if n > 0 && IsSpace(s[n - 1]) then TrailingStart(s, n - 1) else n
  }

  /** `s.strip()`: the infix of `s` left after removing leading and trailing
      whitespace. */
  function Strip(s: string): (r: string)
    ensures exists i, j :: 0 <= i <= j <= |s| && r == s[i..j]
                           && SpacesBetween(s, 0, i) && SpacesBetween(s, j, |s|)
    ensures r != [] ==> !IsSpace(r[0]) && !IsSpace(r[|r| - 1])
    ensures r == [] <==> AllSpace(s)
  {
    var i := SkipSpaces(s, 0);
    if i == |s| then
      assert s[i..i] == [];
      []
    else
      var j := TrailingStart(s, |s|);
      assert !IsSpace(s[i]);
      s[i..j]
  }

  /** `strip` is determined by where the surrounding whitespace ends: any
      infix with whitespace outside it and non-space ends is the result. */
  lemma StripIs(s: string, i: nat, j: nat)
    requires i <= j <= |s| && SpacesBetween(s, 0, i) && SpacesBetween(s, j, |s|)
    requires i < j ==> !IsSpace(s[i]) && !IsSpace(s[j - 1])
    requires i == j ==> AllSpace(s)
    ensures Strip(s) == s[i..j]
  {
    if i < j {
      SkipSpacesExact(s, 0, i);
      TrailingStartExact(s, |s|, j);
    }
  }

  /** A leading space makes no difference to `strip`. */
  lemma StripDropFirst(s: string)
    requires s != [] && IsSpace(s[0])
    ensures Strip(s) == Strip(s[1..])
  {
    var t := s[1..];
    if AllSpace(t) {
      SpacesAfterFirst(s, 0, |t|);
    } else {
      var i := SkipSpaces(t, 0);
      var j := TrailingStart(t, |t|);
      assert !IsSpace(t[i]);
      SpacesAfterFirst(s, 0, i);
      assert s[i + 1] == t[i];
      SkipSpacesExact(s, 0, i + 1);
      SpacesAfterFirst(s, j, |t|);
      assert s[j] == t[j - 1];
      TrailingStartExact(s, |s|, j + 1);
      assert s[i + 1..j + 1] == t[i..j];
    }
  }

  /** Spaces of `s[1..]` are spaces of `s` one place on; with a space in
      front, the run extends back to the start. */
  lemma SpacesAfterFirst(s: string, lo: nat, hi: nat)
    requires s != [] && IsSpace(s[0]) && lo <= hi <= |s| - 1 && SpacesBetween(s[1..], lo, hi)
    ensures SpacesBetween(s, lo + 1, hi + 1)
    ensures lo == 0 ==> SpacesBetween(s, 0, hi + 1)
  {
    forall k | lo + 1 <= k < hi + 1 ensures IsSpace(s[k]) {
      assert s[k] == s[1..][k - 1];
    }
  }

  /** A trailing space makes no difference to `strip`. */
  lemma StripDropLast(s: string)
    requires s != [] && IsSpace(s[|s| - 1])
    ensures Strip(s) == Strip(s[..|s| - 1])
  {
    var t := s[..|s| - 1];
    if AllSpace(t) {
      SpacesBeforeLast(s, 0, |t|);
    } else {
      var i := SkipSpaces(t, 0);
      var j := TrailingStart(t, |t|);
      assert !IsSpace(t[i]);
      SpacesBeforeLast(s, 0, i);
      assert s[i] == t[i];
      SkipSpacesExact(s, 0, i);
      SpacesBeforeLast(s, j, |t|);
      assert s[j - 1] == t[j - 1];
      TrailingStartExact(s, |s|, j);
      assert s[i..j] == t[i..j];
    }
  }

  /** Spaces of `s[..|s| - 1]` are spaces of `s`; with a space at the end,
      a run reaching the end of the prefix reaches the end of `s`. */
  lemma SpacesBeforeLast(s: string, lo: nat, hi: nat)
    requires s != [] && IsSpace(s[|s| - 1]) && lo <= hi <= |s| - 1 && SpacesBetween(s[..|s| - 1], lo, hi)
    ensures SpacesBetween(s, lo, hi)
    ensures hi == |s| - 1 ==> SpacesBetween(s, lo, |s|)
  {
    forall k | lo <= k < hi ensures IsSpace(s[k]) {
      assert s[k] == s[..|s| - 1][k];
    }
  }

  /** A run of spaces followed by a non-space ends where `SkipSpaces` stops. */
  lemma {:induction false} SkipSpacesExact(s: string, j: nat, m: nat)
    requires j <= m <= |s| && SpacesBetween(s, j, m)
    requires m < |s| && !IsSpace(s[m])
    ensures SkipSpaces(s, j) == m
    decreases m - j
  {
    if j < m {
      SkipSpacesExact(s, j + 1, m);
    }
  }

  /** A run of spaces ending at `n` after a non-space starts where
      `TrailingStart` stops. */
  lemma {:induction false} TrailingStartExact(s: string, n: nat, k: nat)
    requires 0 < k <= n <= |s| && SpacesBetween(s, k, n) && !IsSpace(s[k - 1])
    ensures TrailingStart(s, n) == k
    decreases n - k
  {
    if k < n {
      TrailingStartExact(s, n - 1, k);
    }
  }

  /** `s.split()[0]` for a string that begins with a non-space: the maximal
      run of non-space characters at its start. */
  function FirstToken(s: string): (r: string)
    ensures r <= s
    ensures forall i :: 0 <= i < |r| ==> !IsSpace(r[i])
    ensures |r| < |s| ==> IsSpace(s[|r|])
    ensures s != [] && !IsSpace(s[0]) ==> r != []
  {
    s[..NextSpace(s, 0)]
  }

  /** `str(n)` for an integer. */
  function IntToString(n: int): (r: string)
    ensures r != []
  {
    if n < 0 then "-" + NatToString(-n) else NatToString(n)
  }

  function NatToString(n: nat): (r: string)
    ensures r != []
    ensures forall i :: 0 <= i < |r| ==> '0' <= r[i] <= '9'
  {
    if n < 10 then [DigitChar(n)] else NatToString(n / 10) + [DigitChar(n % 10)]
  }

  function DigitChar(d: nat): (c: char)
    requires d < 10
    ensures '0' <= c <= '9'
  {
    ('0' as int + d) as char
  }
}
