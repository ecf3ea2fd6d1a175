/**
 The fixed regular expressions of the scanner, without a general regex engine.

 Every pattern the detectors use has the shape
     head, class{least,most}, tail
 where `head` is one of a few literal alternatives tried in order (an
 optional space ` ?` becomes two heads, the one with the space first, as a
 greedy `?` tries it first), the class is repeated greedily, and `tail` is a
 literal. All patterns carry the `i` flag, so literals and classes compare
 after ASCII folding.

 `IsFirstMatch` states what `String.prototype.match` without the `g` flag
 returns for such a pattern: the leftmost start, then the first head that can
 complete a match there, then the longest repetition that still lets the tail
 match (the order in which a backtracking engine tries the choices). `Find`
 computes it by search and is proved to meet that specification.
 */
module Patterns {
  import opened Opt
  import opened Text

  /** The character classes used by the scanner, as they behave under the `i` flag. */
  datatype CharClass =
    | Digit             // \d, [0-9]
    | AlphaNum          // [A-Z0-9] and [a-z0-9]: with the i flag both accept every ASCII letter and digit
    | NotLineTerminator // the unescaped `.`: one UTF-16 code unit that is not a line terminator

  predicate InClass(cls: CharClass, c: char) {
    match cls
    case Digit => '0' <= c <= '9'
    case AlphaNum => '0' <= c <= '9' || 'A' <= Fold(c) <= 'Z'
    // Without the `u` flag `.` consumes a single code unit. A character beyond
    // U+FFFF is two code units: `.` could take the first, but the literal `js`
    // after it then meets the second, which is no ASCII letter. So the class
    // takes exactly the characters of one code unit.
    case NotLineTerminator => c as int <= 0xFFFF && c != '\n' && c != '\r' && c != '\U{2028}' && c != '\U{2029}'
  }

  /** `most == None` is an unbounded repetition (`+`, `{n,}`). */
  datatype Pattern = Pattern(heads: seq<string>, body: CharClass, least: nat, most: Option<nat>, tail: string)

  /** A match starting at `start`, through head number `alt`, with `len` repetitions of the class. */
  datatype Match = Match(start: nat, alt: nat, len: nat)

  predicate InBounds(p: Pattern, k: nat) {
    p.least <= k && (p.most.None? || k <= p.most.value)
  }

  /** The `k` characters of `s` from `from` on all belong to `cls`. */
  predicate RunAt(cls: CharClass, s: string, from: nat, k: nat) {
    from + k <= |s| && forall j :: from <= j < from + k ==> InClass(cls, s[j])
  }

  /** Pattern `p` matches `s` at index `i` through head `a` with `k` repetitions. */
  predicate MatchesAt(p: Pattern, s: string, i: nat, a: nat, k: nat) {
    && a < |p.heads|
    && LiteralAt(s, i, p.heads[a])
    && InBounds(p, k)
    && RunAt(p.body, s, i + |p.heads[a]|, k)
    && LiteralAt(s, i + |p.heads[a]| + k, p.tail)
  }

  /** `p.test(s)`: the pattern matches somewhere. */
  ghost predicate Matches(p: Pattern, s: string) {
    exists i: nat, a: nat, k: nat :: MatchesAt(p, s, i, a, k)
  }

  /** No match of `p` starts at an index in [lo, hi). */
  ghost predicate NoMatchBetween(p: Pattern, s: string, lo: nat, hi: nat) {
    forall j: nat, a: nat, k: nat :: lo <= j < hi ==> !MatchesAt(p, s, j, a, k)
  }

  /** At its start, `m` uses the first head that can match and the longest repetition with it. */
  ghost predicate PreferredAt(p: Pattern, s: string, m: Match) {
    && MatchesAt(p, s, m.start, m.alt, m.len)
    && (forall a: nat, k: nat :: a < m.alt ==> !MatchesAt(p, s, m.start, a, k))
    && (forall k: nat :: m.len < k ==> !MatchesAt(p, s, m.start, m.alt, k))
  }

  /** `m` is the match `s.match(p)` reports. */
  ghost predicate IsFirstMatch(p: Pattern, s: string, m: Match) {
    PreferredAt(p, s, m) && NoMatchBetween(p, s, 0, m.start)
  }

  /** Length of the run of `cls` characters starting at `from`, cut at `cap`. */
  function RunLength(cls: CharClass, s: string, from: nat, cap: Option<nat>): (n: nat)
    requires from <= |s|
    ensures RunAt(cls, s, from, n)
    ensures cap.Some? ==> n <= cap.value
    ensures forall k: nat :: n < k && (cap.None? || k <= cap.value) ==> !RunAt(cls, s, from, k)
    decreases |s| - from
  {
    if from == |s| || (cap.Some? && cap.value == 0) || !InClass(cls, s[from]) then 0
    else
      var rest := RunLength(cls, s, from + 1, if cap.Some? then Some(cap.value - 1) else None);
      assert forall k: nat :: 1 <= k && RunAt(cls, s, from, k) ==> RunAt(cls, s, from + 1, k - 1);
      1 + rest
  }

  /** Backtracking of the greedy repetition: the longest count, at most `k`, with which head `a` completes a match at `i`. */
  function Backtrack(p: Pattern, s: string, i: nat, a: nat, k: nat): (r: Option<nat>)
    ensures r.Some? ==> r.value <= k && MatchesAt(p, s, i, a, r.value)
    ensures forall k': nat :: k' <= k && (r.None? || r.value < k') ==> !MatchesAt(p, s, i, a, k')
    decreases k
  {
    if MatchesAt(p, s, i, a, k) then Some(k)
    else if k <= p.least then None
    else Backtrack(p, s, i, a, k - 1)
  }

  /** The greedy choice for head `a` at index `i`: the longest repetition that completes a match, if any does. */
  function LongestAt(p: Pattern, s: string, i: nat, a: nat): (r: Option<nat>)
    requires a < |p.heads|
    ensures r.Some? ==> MatchesAt(p, s, i, a, r.value) && forall k: nat :: r.value < k ==> !MatchesAt(p, s, i, a, k)
    ensures r.None? ==> forall k: nat :: !MatchesAt(p, s, i, a, k)
  {
    var h := p.heads[a];
    if LiteralAt(s, i, h) then
      var run := RunLength(p.body, s, i + |h|, p.most);
      assert forall k: nat :: run < k ==> !MatchesAt(p, s, i, a, k);
      Backtrack(p, s, i, a, run)
    else None
  }

  /** Tries heads `a`, `a + 1`, ... at index `i`, each with its greedy choice. */
  function TryHeads(p: Pattern, s: string, i: nat, a: nat): (r: Option<Match>)
    ensures r.Some? ==> r.value.start == i && a <= r.value.alt && PreferredAtFrom(p, s, r.value, a)
    ensures r.None? ==> forall b: nat, k: nat :: a <= b ==> !MatchesAt(p, s, i, b, k)
    decreases |p.heads| - a
  {
    if a >= |p.heads| then None
    else
      match LongestAt(p, s, i, a)
      case Some(k) => Some(Match(i, a, k))
      case None => TryHeads(p, s, i, a + 1)
  }

  /** Like `PreferredAt`, but only heads from `a` on are compared. */
  ghost predicate PreferredAtFrom(p: Pattern, s: string, m: Match, a: nat) {
    && MatchesAt(p, s, m.start, m.alt, m.len)
    && (forall b: nat, k: nat :: a <= b < m.alt ==> !MatchesAt(p, s, m.start, b, k))
    && (forall k: nat :: m.len < k ==> !MatchesAt(p, s, m.start, m.alt, k))
  }

  /** Leftmost search from index `i` on. */
  function FindFrom(p: Pattern, s: string, i: nat): (r: Option<Match>)
    ensures r.Some? ==> i <= r.value.start && PreferredAt(p, s, r.value) && NoMatchBetween(p, s, i, r.value.start)
    ensures r.None? ==> forall j: nat, a: nat, k: nat :: i <= j ==> !MatchesAt(p, s, j, a, k)
    decreases |s| + 1 - i
  {
    if i > |s| then None
    else
      match TryHeads(p, s, i, 0)
      case Some(m) => Some(m)
      case None => FindFrom(p, s, i + 1)
  }

  /** `s.match(p)` for a pattern without the `g` flag. */
  function Find(p: Pattern, s: string): (r: Option<Match>)
    ensures r.Some? ==> IsFirstMatch(p, s, r.value)
    ensures r.None? <==> !Matches(p, s)
  {
    FindFrom(p, s, 0)
  }

  /** Index just past the repetition of a match. */
  function BodyEnd(p: Pattern, m: Match): nat
    requires m.alt < |p.heads|
  {
    m.start + |p.heads[m.alt]| + m.len
  }

  /** `match[0]`: the whole matched text. */
  function WholeText(p: Pattern, s: string, m: Match): (t: string)
    requires MatchesAt(p, s, m.start, m.alt, m.len)
    ensures OccursAt(s, t, m.start)
    ensures |t| == |p.heads[m.alt]| + m.len + |p.tail|
  {
    s[m.start..BodyEnd(p, m) + |p.tail|]
  }

  /** `match[1]`: the text of the repetition, which every capturing pattern of the scanner groups. */
  function Group(p: Pattern, s: string, m: Match): (t: string)
    requires MatchesAt(p, s, m.start, m.alt, m.len)
    ensures OccursAt(s, t, m.start + |p.heads[m.alt]|)
    ensures |t| == m.len
  {
    s[m.start + |p.heads[m.alt]|..BodyEnd(p, m)]
  }

  /** The match `s.match(p)` reports is unique: the specification pins down one match. */
  lemma FirstMatchUnique(p: Pattern, s: string, m1: Match, m2: Match)
    requires IsFirstMatch(p, s, m1) && IsFirstMatch(p, s, m2)
    ensures m1 == m2
  {
  }

  /** A pattern whose heads are all non-empty never matches the empty string. */
  lemma NoMatchInEmpty(p: Pattern)
    requires forall a :: 0 <= a < |p.heads| ==> |p.heads[a]| > 0
    ensures !Matches(p, "")
  {
  }

  /**
   `match[0]` of a single-head pattern without tail: the head, then a run of
   the class within the bounds, cut short of the upper bound only where the
   run itself ends.
   */
  lemma WholeTextShape(p: Pattern, s: string)
    requires |p.heads| == 1 && p.tail == ""
    requires Find(p, s).Some?
    ensures var m := Find(p, s).value;
            var t := WholeText(p, s, m);
            && OccursAt(s, t, m.start)
            && LiteralAt(t, 0, p.heads[0])
            && InBounds(p, m.len) && |t| == |p.heads[0]| + m.len
            && (forall j :: |p.heads[0]| <= j < |t| ==> InClass(p.body, t[j]))
            && ((p.most.None? || m.len < p.most.value) ==> m.start + |t| == |s| || !InClass(p.body, s[m.start + |t|]))
  {
    var m := Find(p, s).value;
    var t := WholeText(p, s, m);
    var h := p.heads[0];
    assert m.alt == 0;
    assert MatchesAt(p, s, m.start, 0, m.len);
    assert forall j :: 0 <= j < |t| ==> t[j] == s[m.start + j];
    assert (p.most.None? || m.len < p.most.value) ==> m.start + |t| == |s| || !InClass(p.body, s[m.start + |t|]) by {
      if (p.most.None? || m.len < p.most.value) && m.start + |t| < |s| && InClass(p.body, s[m.start + |t|]) {
        assert RunAt(p.body, s, m.start + |h|, m.len + 1);
        assert MatchesAt(p, s, m.start, 0, m.len + 1);
        assert false;
      }
    }
  }

  /**
   `match[1]` of a pattern that groups its repetition: a run of the class
   within the bounds, right after one of the heads and right before the tail.
   */
  lemma GroupShape(p: Pattern, s: string)
    requires Find(p, s).Some?
    ensures var m := Find(p, s).value;
            var g := Group(p, s, m);
            var at := m.start + |p.heads[m.alt]|;
            && OccursAt(s, g, at)
            && LiteralAt(s, m.start, p.heads[m.alt])
            && InBounds(p, |g|)
            && (forall j :: 0 <= j < |g| ==> InClass(p.body, g[j]))
            && LiteralAt(s, at + |g|, p.tail)
  {
    var m := Find(p, s).value;
    var g := Group(p, s, m);
    assert forall j :: 0 <= j < |g| ==> g[j] == s[m.start + |p.heads[m.alt]| + j];
  }

}
