/** The destructive shell patterns the policy refuses, and the search it runs
    over a lower-cased command. Each pattern is one of two shapes:
    `\bWORD\b`, or `\bWORD\s+FLAG\b` with FLAG drawn from a short list.
    `Matches` says declaratively where a pattern occurs; `FirstBlocked` is the
    early-return scan over the pattern list, and the two are proved to agree. */
module ShellPatterns {
  import opened Types
  import opened Text

  datatype Pattern =
    | Word(source: string, word: string)
    | Switch(source: string, word: string, flags: seq<string>)

  /** The patterns, in the order the policy tries them. */
  const BlockedShellPatterns: seq<Pattern> := [
    Switch("\\brm\\s+-rf\\b", "rm", ["-rf"]),
    Switch("\\bdel\\s+/[sq]\\b", "del", ["/s", "/q"]),
    Word("\\bformat\\b", "format"),
    Word("\\bshutdown\\b", "shutdown"),
    Word("\\breboot\\b", "reboot"),
    Word("\\bmkfs\\b", "mkfs")
  ]

  /** Every flag is non-empty and starts with a character `\s` cannot
      swallow, so the run of spaces before it is exactly the maximal one; that
      character is not a word character either, as every flag is a switch
      (`-rf`, `/s`, `/q`). */
  predicate WellFormed(p: Pattern) {
    p.Switch? ==> forall f :: f in p.flags ==> f != [] && !IsSpace(f[0]) && !IsWordChar(f[0])
  }

  lemma AllWellFormed()
    ensures forall p :: p in BlockedShellPatterns ==> WellFormed(p)
  {
  }

  /** `\b` at position `i`: a word character on exactly one side. */
  predicate Boundary(s: string, i: int)
    requires 0 <= i <= |s|
  {
    (i > 0 && IsWordChar(s[i - 1])) != (i < |s| && IsWordChar(s[i]))
  }

  predicate LiteralAt(s: string, i: nat, lit: string) {
    i + |lit| <= |s| && s[i..i + |lit|] == lit
  }

  /** The pattern matches `s[i..j]`. */
  ghost predicate MatchSpan(p: Pattern, s: string, i: nat, j: nat) {
    i <= j <= |s| && Boundary(s, i) && LiteralAt(s, i, p.word) &&
    match p
    case Word(_, w) => j == i + |w| && Boundary(s, j)
    case Switch(_, w, flags) => SpacedTail(s, i + |w|, flags, j)
  }

  /** Some flag of the list, after at least one space, spans `s[start..j]`. */
  ghost predicate SpacedTail(s: string, start: nat, flags: seq<string>, j: nat) {
    exists k: nat, f :: f in flags && SpacedFlag(s, start, k, f, j)
  }

  /** `\s+FLAG\b` with `k` spaces spans `s[start..j]`. */
  predicate SpacedFlag(s: string, start: nat, k: nat, f: string, j: nat) {
    k >= 1 && j == start + k + |f| && start + k <= |s|
    && SpacesBetween(s, start, start + k) && FlagFits(s, start + k, f)
  }

  /** `FLAG\b` at position `k`. */
  predicate FlagFits(s: string, k: nat, f: string) {
    LiteralAt(s, k, f) && Boundary(s, k + |f|)
  }

  /** `re.search(pattern, s)` succeeds. */
  ghost predicate Matches(p: Pattern, s: string) {
    exists i: nat, j: nat :: MatchSpan(p, s, i, j)
  }

  /** Some destructive pattern occurs in `s`. */
  ghost predicate Blocked(s: string) {
    exists p :: p in BlockedShellPatterns && Matches(p, s)
  }

  /** Some flag of the list starts at `k` and ends on a word boundary. */
  function FlagAt(flags: seq<string>, s: string, k: nat): (r: bool)
    ensures r <==> exists n :: 0 <= n < |flags| && FlagFits(s, k, flags[n])
  {
    if flags == [] then false
    else FlagFits(s, k, flags[0]) || FlagAt(flags[1..], s, k)
  }

  /** One attempt of the regular-expression engine at position `i`; `\s+` is
      taken greedily. */
  function MatchAt(p: Pattern, s: string, i: nat): bool
    requires i <= |s|
  {
    Boundary(s, i) && LiteralAt(s, i, p.word) &&
    match p
    case Word(_, w) => Boundary(s, i + |w|)
    case Switch(_, w, flags) =>
      var k := SkipSpaces(s, i + |w|);
      k > i + |w| && FlagAt(flags, s, k)
  }

  /** The greedy attempt succeeds exactly where the pattern matches. */
  lemma MatchAtCorrect(p: Pattern, s: string, i: nat)
    requires WellFormed(p) && i <= |s|
    ensures MatchAt(p, s, i) <==> exists j: nat :: MatchSpan(p, s, i, j)
  {
    if MatchAt(p, s, i) {
      MatchAtSound(p, s, i);
    }
    if j: nat :| MatchSpan(p, s, i, j) {
      MatchAtComplete(p, s, i, j);
    }
  }

  lemma MatchAtSound(p: Pattern, s: string, i: nat)
    requires i <= |s| && MatchAt(p, s, i)
    ensures exists j: nat :: MatchSpan(p, s, i, j)
  {
    if p.Word? {
      WordMatchSound(p, s, i);
    } else {
      SwitchMatchSound(p, s, i);
    }
  }

  lemma WordMatchSound(p: Pattern, s: string, i: nat)
    requires i <= |s| && MatchAt(p, s, i) && p.Word?
    ensures MatchSpan(p, s, i, i + |p.word|)
  {
  }

  lemma SwitchMatchSound(p: Pattern, s: string, i: nat)
    requires i <= |s| && MatchAt(p, s, i) && p.Switch?
    ensures exists j: nat :: MatchSpan(p, s, i, j)
  {
    var w := p.word;
    var start := i + |w|;
    var k := SkipSpaces(s, start);
    assert k > start && FlagAt(p.flags, s, k);
    var x :| 0 <= x < |p.flags| && FlagFits(s, k, p.flags[x]);
    var f := p.flags[x];
    var n: nat := k - start;
    assert SpacesBetween(s, start, start + n);
    assert SpacedFlag(s, start, n, f, k + |f|);
    assert SpacedTail(s, start, p.flags, k + |f|);
    assert i <= k + |f| <= |s| && Boundary(s, i) && LiteralAt(s, i, w);
    assert MatchSpan(p, s, i, k + |f|);
  }

  lemma MatchAtComplete(p: Pattern, s: string, i: nat, j: nat)
    requires WellFormed(p) && i <= |s| && MatchSpan(p, s, i, j)
    ensures MatchAt(p, s, i)
  {
    if p.Switch? {
      SwitchMatchComplete(p, s, i, j);
    }
  }

  lemma SwitchMatchComplete(p: Pattern, s: string, i: nat, j: nat)
    requires WellFormed(p) && i <= |s| && MatchSpan(p, s, i, j) && p.Switch?
    ensures MatchAt(p, s, i)
  {
    var w := p.word;
    var start := i + |w|;
    assert SpacedTail(s, start, p.flags, j);
    var n: nat, f :| f in p.flags && SpacedFlag(s, start, n, f, j);
    assert f != [] && !IsSpace(f[0]);
    var m := start + n;
    assert LiteralAt(s, m, f);
    assert s[m] == s[m..m + |f|][0];
    assert !IsSpace(s[m]);
    SkipSpacesExact(s, start, m);
    var x :| 0 <= x < |p.flags| && p.flags[x] == f;
    assert FlagFits(s, m, p.flags[x]);
    assert FlagAt(p.flags, s, m);
  }

  /** `re.search`: an attempt at every position from `i` on. */
  function SearchFrom(p: Pattern, s: string, i: nat): (r: bool)
    requires i <= |s|
    ensures r <==> exists m :: i <= m <= |s| && MatchAt(p, s, m)
    decreases |s| - i
  {
    MatchAt(p, s, i) || (i < |s| && SearchFrom(p, s, i + 1))
  }

  lemma SearchCorrect(p: Pattern, s: string)
    requires WellFormed(p)
    ensures SearchFrom(p, s, 0) <==> Matches(p, s)
  {
    if SearchFrom(p, s, 0) {
      var m :| 0 <= m <= |s| && MatchAt(p, s, m);
      MatchAtCorrect(p, s, m);
    }
    if Matches(p, s) {
      var i: nat, j: nat :| MatchSpan(p, s, i, j);
      MatchAtCorrect(p, s, i);
    }
  }

  /** The policy's loop over the patterns from index `n` on: the first one
      that occurs. */
  function FirstBlockedFrom(s: string, patterns: seq<Pattern>, n: nat): (r: Option<Pattern>)
    requires n <= |patterns|
    ensures r.Some? ==> exists m :: n <= m < |patterns| && patterns[m] == r.value
                          && SearchFrom(r.value, s, 0)
                          && forall l :: n <= l < m ==> !SearchFrom(patterns[l], s, 0)
    ensures r.None? <==> forall l :: n <= l < |patterns| ==> !SearchFrom(patterns[l], s, 0)
    decreases |patterns| - n
  {
    if n == |patterns| then None
    else if SearchFrom(patterns[n], s, 0) then Some(patterns[n])
    else FirstBlockedFrom(s, patterns, n + 1)
  }

  function FirstBlocked(s: string, patterns: seq<Pattern>): Option<Pattern> {
    FirstBlockedFrom(s, patterns, 0)
  }

  /** The scan finds a pattern exactly when a destructive pattern occurs. */
  lemma {:induction false} FirstBlockedIffBlocked(s: string)
    ensures FirstBlocked(s, BlockedShellPatterns).Some? <==> Blocked(s)
  {
    AllWellFormed();
    var ps := BlockedShellPatterns;
    var r := FirstBlocked(s, ps);
    if r.Some? {
      SearchCorrect(r.value, s);
    }
    if Blocked(s) {
      var p :| p in ps && Matches(p, s);
      SearchCorrect(p, s);
      var m :| 0 <= m < |ps| && ps[m] == p;
    }
  }
}
