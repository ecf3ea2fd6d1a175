/**
 Text operations the detection engine relies on: JavaScript's case-sensitive
 `String.prototype.includes`, the ASCII case folding a regular expression with
 the `i` flag applies, and `Array.prototype.join`.

 A `string` is a `seq<char>`; each `char` is one code point of the decoded
 page (the page arrives as well-formed text, so it holds no lone surrogate).
 JavaScript compares UTF-16 code units instead, but every needle and every
 literal of the scanner is ASCII, and no ASCII code unit occurs inside the
 encoding of another character: `includes`, the literals and the ASCII
 classes give the same answers over code points as over code units. Only the
 regular expression `.` depends on the difference; `Patterns.InClass` accounts
 for it.
 */
module Text {

  /** `t` occurs in `s` starting at index `i`, character for character. */
  ghost predicate OccursAt(s: string, t: string, i: int) {
    0 <= i && i + |t| <= |s| && s[i..i + |t|] == t
  }

  /** `t` is a (case-sensitive) substring of `s`. */
  ghost predicate Occurs(s: string, t: string) {
    exists i :: OccursAt(s, t, i)
  }

  /** Left-to-right search for `t` in `s`, starting at index `i`. */
  function IncludesFrom(s: string, t: string, i: nat): (b: bool)
    ensures b <==> exists j :: i <= j && OccursAt(s, t, j)
    decreases |s| - i
  {
    if i + |t| > |s| then false
    else if s[i..i + |t|] == t then assert OccursAt(s, t, i); true
    else IncludesFrom(s, t, i + 1)
  }

  /** `s.includes(t)`. */
  function Includes(s: string, t: string): (b: bool)
    ensures b <==> Occurs(s, t)
  {
    IncludesFrom(s, t, 0)
  }

  /**
   The canonical form a regular expression with the `i` flag (and without `u`)
   compares: ASCII lower-case letters become upper-case. JavaScript also
   upper-cases other letters, but never maps a non-ASCII character to an ASCII
   one, so against the all-ASCII patterns of the scanner this fold is exact.
   */
  function Fold(c: char): char {
    if 'a' <= c <= 'z' then (c as int - 32) as char else c
  }

  /** The literal `lit` matches `s` at index `i`, ignoring ASCII case. */
  predicate LiteralAt(s: string, i: nat, lit: string) {
    i + |lit| <= |s| && forall k :: 0 <= k < |lit| ==> Fold(s[i + k]) == Fold(lit[k])
  }

  /** `parts.join(sep)`: the parts in order with `sep` between neighbours, as `Array.prototype.join` builds it. */
  function Join(parts: seq<string>, sep: string): (r: string)
    ensures |parts| == 0 ==> r == ""
    ensures |parts| == 1 ==> r == parts[0]
    ensures |parts| >= 1 ==> parts[0] <= r
    ensures |parts| >= 2 ==> parts[0] + sep <= r
  {
    if |parts| == 0 then ""
    else if |parts| == 1 then parts[0]
    else parts[0] + sep + Join(parts[1..], sep)
  }

}
