/**
 * The Kotlin standard-library string operations the clients rely on:
 * `contains`, `trim` and `split(Regex("\n\n+"))`.
 */
module Strings {
  import opened Options

  // ---------------------------------------------------------------- contains

  /** `sub` occurs in `s` starting at index `i`. */
  ghost predicate OccursAt(s: string, sub: string, i: int) {
    0 <= i && i + |sub| <= |s| && s[i..i + |sub|] == sub
  }

  /** `s.contains(sub)`: some occurrence of `sub` in `s`. */
  function Contains(s: string, sub: string): (r: bool)
    ensures r <==> exists i :: OccursAt(s, sub, i)
    decreases |s|
  {
    if |sub| > |s| then false
    else if s[..|sub|] == sub then assert OccursAt(s, sub, 0); true
    else
      assert !OccursAt(s, sub, 0);
      OccursShift(s, sub);
      Contains(s[1..], sub)
  }

  /** Occurrences in `s[1..]` are the occurrences in `s` past index 0, shifted by one. */
  lemma OccursShift(s: string, sub: string)
    requires |s| > 0
    ensures forall j :: j >= 0 ==> (OccursAt(s[1..], sub, j) <==> OccursAt(s, sub, j + 1))
    ensures forall i :: i > 0 ==> (OccursAt(s, sub, i) <==> OccursAt(s[1..], sub, i - 1))
  {
    forall j | j >= 0
      ensures OccursAt(s[1..], sub, j) <==> OccursAt(s, sub, j + 1)
    {
      if j + 1 + |sub| <= |s| {
        assert s[1..][j..j + |sub|] == s[j + 1..j + 1 + |sub|];
      }
    }
  }

  // ---------------------------------------------------------------- trim

  /**
   * Kotlin's `Char.isWhitespace()`: Java's `Character.isWhitespace` or
   * `Character.isSpaceChar` (the Unicode space, line and paragraph separators).
   */
  predicate IsWhitespace(c: char) {
    || c == ' '
    || '\t' <= c <= '\r'
    || '\U{1C}' <= c <= '\U{1F}'
    || c == '\U{A0}' || c == '\U{1680}'
    || '\U{2000}' <= c <= '\U{200A}'
    || c == '\U{2028}' || c == '\U{2029}' || c == '\U{202F}'
    || c == '\U{205F}' || c == '\U{3000}'
  }

  /** Length of the whitespace prefix of `s`. */
  function LeadingWhitespace(s: string): (n: nat)
    ensures n <= |s|
    ensures forall i :: 0 <= i < n ==> IsWhitespace(s[i])
    ensures n < |s| ==> !IsWhitespace(s[n])
  {
    if |s| > 0 && IsWhitespace(s[0]) then 1 + LeadingWhitespace(s[1..]) else 0
  }

  /** Length of the whitespace suffix of `s`. */
  function TrailingWhitespace(s: string): (n: nat)
    ensures n <= |s|
    ensures forall i :: |s| - n <= i < |s| ==> IsWhitespace(s[i])
    ensures n < |s| ==> !IsWhitespace(s[|s| - 1 - n])
  {
    if |s| > 0 && IsWhitespace(s[|s| - 1]) then 1 + TrailingWhitespace(s[..|s| - 1]) else 0
  }

  /**
   * `s.trim()`: the infix of `s` left after removing leading and trailing
   * whitespace; empty when `s` is all whitespace.
   */
  function Trim(s: string): (r: string)
    ensures |r| <= |s|
    ensures LeadingWhitespace(s) + |r| <= |s| && r == s[LeadingWhitespace(s)..LeadingWhitespace(s) + |r|]
    ensures forall i :: 0 <= i < LeadingWhitespace(s) ==> IsWhitespace(s[i])
    ensures forall i :: LeadingWhitespace(s) + |r| <= i < |s| ==> IsWhitespace(s[i])
    ensures |r| > 0 ==> !IsWhitespace(r[0]) && !IsWhitespace(r[|r| - 1])
  {
    var t := s[LeadingWhitespace(s)..];
    t[..|t| - TrailingWhitespace(t)]
  }

  /** Trimming twice is trimming once. */
  lemma TrimIdempotent(s: string)
    ensures Trim(Trim(s)) == Trim(s)
  {
    var r := Trim(s);
    if |r| > 0 {
      assert LeadingWhitespace(r) == 0;
      assert TrailingWhitespace(r[LeadingWhitespace(r)..]) == 0;
    }
  }

  // ---------------------------------------------------------------- split

  /** A blank line (two consecutive line feeds) starts at index `i` of `s`. */
  ghost predicate BlankAt(s: string, i: int) {
    0 <= i && i + 1 < |s| && s[i] == '\n' && s[i + 1] == '\n'
  }

  /** `s` has no two consecutive line feeds. */
  ghost predicate NoBlankLine(s: string) {
    forall i :: !BlankAt(s, i)
  }

  /**
   * Where `Regex("\n\n+")` next matches in `s` when the matcher searches
   * from index `from`: the first blank line at or after `from`.
   */
  function NextBlankLine(s: string, from: nat): (r: Option<nat>)
    ensures r.None? ==> forall j :: from <= j ==> !BlankAt(s, j)
    ensures r.Some? ==> from <= r.value && BlankAt(s, r.value)
    ensures r.Some? ==> forall j :: from <= j < r.value ==> !BlankAt(s, j)
    decreases |s| - from
  {
    if from + 1 >= |s| then None
    else if s[from] == '\n' && s[from + 1] == '\n' then Some(from)
    else NextBlankLine(s, from + 1)
  }

  /** The end of the run of line feeds starting at `i`: where the greedy `\n+` stops. */
  function RunEnd(s: string, i: nat): (e: nat)
    requires i <= |s|
    ensures i <= e <= |s|
    ensures forall j :: i <= j < e ==> s[j] == '\n'
    ensures e < |s| ==> s[e] != '\n'
    decreases |s| - i
  {
    if i < |s| && s[i] == '\n' then RunEnd(s, i + 1) else i
  }

  /**
   * The pieces of `s[start..]` as Kotlin's `Regex.split` collects them: the
   * text up to the next match, then the rest after the match's end.
   */
  function SplitFrom(s: string, start: nat): (parts: seq<string>)
    requires start <= |s|
    ensures |parts| >= 1
    decreases |s| - start
  {
    match NextBlankLine(s, start)
    case None => [s[start..]]
    case Some(p) => [s[start..p]] + SplitFrom(s, RunEnd(s, p))
  }

  /**
   * Kotlin's `s.split(Regex("\n\n+"))`: the pieces between maximal runs
   * of two or more line feeds, in order. Kotlin keeps empty leading and
   * trailing pieces, so the empty string splits into `[""]`.
   */
  function SplitParagraphs(s: string): (parts: seq<string>)
    ensures |parts| >= 1
  {
    SplitFrom(s, 0)
  }

  /** The lengths of the separators the split of `s[start..]` removes, in order. */
  function SeparatorsFrom(s: string, start: nat): seq<nat>
    requires start <= |s|
    decreases |s| - start
  {
    match NextBlankLine(s, start)
    case None => []
    case Some(p) => [RunEnd(s, p) - p] + SeparatorsFrom(s, RunEnd(s, p))
  }

  function LineFeeds(n: nat): (r: string)
    ensures |r| == n && forall i :: 0 <= i < n ==> r[i] == '\n'
  {
    if n == 0 then [] else ['\n'] + LineFeeds(n - 1)
  }

  /** Puts pieces back together with line-feed separators of the given lengths. */
  function Join(parts: seq<string>, seps: seq<nat>): string
    requires |parts| == |seps| + 1
    decreases |seps|
  {
    if seps == [] then parts[0] else parts[0] + LineFeeds(seps[0]) + Join(parts[1..], seps[1..])
  }

  /** There is one separator fewer than pieces, and every separator is two or more line feeds. */
  lemma {:induction false} SplitFromSeparators(s: string, start: nat)
    requires start <= |s|
    ensures |SeparatorsFrom(s, start)| + 1 == |SplitFrom(s, start)|
    ensures forall k :: 0 <= k < |SeparatorsFrom(s, start)| ==> SeparatorsFrom(s, start)[k] >= 2
    decreases |s| - start
  {
    match NextBlankLine(s, start)
    case None =>
    case Some(p) =>
      var e := RunEnd(s, p);
      SplitFromSeparators(s, e);
      assert e >= p + 2 by {
        assert RunEnd(s, p) == RunEnd(s, p + 1) == RunEnd(s, p + 2);
      }
      assert SeparatorsFrom(s, start) == [e - p] + SeparatorsFrom(s, e);
      assert SplitFrom(s, start) == [s[start..p]] + SplitFrom(s, e);
  }

  /**
   * Joining the pieces of `s[start..]` with the removed separators gives
   * `s[start..]` back, and every separator is two or more line feeds.
   */
  lemma {:induction false} SplitFromJoin(s: string, start: nat)
    requires start <= |s|
    ensures |SeparatorsFrom(s, start)| + 1 == |SplitFrom(s, start)|
    ensures Join(SplitFrom(s, start), SeparatorsFrom(s, start)) == s[start..]
    ensures forall k :: 0 <= k < |SeparatorsFrom(s, start)| ==> SeparatorsFrom(s, start)[k] >= 2
    decreases |s| - start
  {
    SplitFromSeparators(s, start);
    match NextBlankLine(s, start)
    case None =>
    case Some(p) =>
      var e := RunEnd(s, p);
      SplitFromJoin(s, e);
      var parts, seps := SplitFrom(s, start), SeparatorsFrom(s, start);
      assert parts[0] == s[start..p] && parts[1..] == SplitFrom(s, e);
      assert seps[0] == e - p && seps[1..] == SeparatorsFrom(s, e);
      assert s[p..e] == LineFeeds(e - p);
      assert s[start..] == s[start..p] + s[p..e] + s[e..];
  }

  /** No piece of `s[start..]` contains a blank line. */
  lemma {:induction false} SplitFromNoBlank(s: string, start: nat)
    requires start <= |s|
    ensures forall k :: 0 <= k < |SplitFrom(s, start)| ==> NoBlankLine(SplitFrom(s, start)[k])
    decreases |s| - start
  {
    var parts := SplitFrom(s, start);
    var first, next := parts[0], NextBlankLine(s, start);
    var stop := if next.Some? then next.value else |s|;
    assert first == s[start..stop];
    forall i ensures !BlankAt(first, i) {
      if BlankAt(first, i) {
        assert BlankAt(s, start + i);
      }
    }
    if next.Some? {
      SplitFromNoBlank(s, RunEnd(s, next.value));
      assert parts[1..] == SplitFrom(s, RunEnd(s, next.value));
    }
  }

  /**
   * The separators are maximal runs: no piece but the last ends with a line
   * feed, no piece but the first starts with one, and only the first and the
   * last piece can be empty.
   */
  lemma {:induction false} SplitFromMaximal(s: string, start: nat)
    requires start <= |s|
    requires start > 0 ==> s[start - 1] == '\n' && (start < |s| ==> s[start] != '\n')
    ensures forall k :: 0 <= k < |SplitFrom(s, start)| - 1 ==>
              var part := SplitFrom(s, start)[k]; part == [] || part[|part| - 1] != '\n'
    ensures forall k :: 0 <= k < |SplitFrom(s, start)| && (k > 0 || start > 0) ==>
              var part := SplitFrom(s, start)[k]; part == [] || part[0] != '\n'
    ensures forall k :: 0 < k < |SplitFrom(s, start)| - 1 ==> SplitFrom(s, start)[k] != []
    decreases |s| - start
  {
    var parts := SplitFrom(s, start);
    match NextBlankLine(s, start)
    case None =>
    case Some(p) =>
      var e := RunEnd(s, p);
      SplitFromMaximal(s, e);
      var tail := SplitFrom(s, e);
      assert parts[0] == s[start..p] && parts[1..] == tail;
      if start < p {
        assert !BlankAt(s, p - 1);
      }
      if |tail| > 1 {
        match NextBlankLine(s, e)
        case None =>
        case Some(q) =>
          assert tail[0] == s[e..q];
          assert q != e;
      }
  }

  /** The pieces of the whole of `s`, with the properties proved above. */
  lemma SplitParagraphsSound(s: string)
    ensures |SeparatorsFrom(s, 0)| + 1 == |SplitParagraphs(s)|
    ensures Join(SplitParagraphs(s), SeparatorsFrom(s, 0)) == s
    ensures forall k :: 0 <= k < |SeparatorsFrom(s, 0)| ==> SeparatorsFrom(s, 0)[k] >= 2
    ensures forall k :: 0 <= k < |SplitParagraphs(s)| ==> NoBlankLine(SplitParagraphs(s)[k])
    ensures forall k :: 0 <= k < |SplitParagraphs(s)| - 1 ==>
              var part := SplitParagraphs(s)[k]; part == [] || part[|part| - 1] != '\n'
    ensures forall k :: 0 < k < |SplitParagraphs(s)| ==>
              var part := SplitParagraphs(s)[k]; part == [] || part[0] != '\n'
    ensures forall k :: 0 < k < |SplitParagraphs(s)| - 1 ==> SplitParagraphs(s)[k] != []
  {
    SplitFromJoin(s, 0);
    SplitFromNoBlank(s, 0);
    SplitFromMaximal(s, 0);
  }
}
