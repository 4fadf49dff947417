/**
 * String operations of the JavaScript runtime that the site's components
 * rely on: the `\s` class of regular expressions, `indexOf`, `startsWith`,
 * `replace` with a string pattern, `Array.prototype.join` and the
 * `charAt(0).toUpperCase() + slice(1)` capitalisation idiom.
 *
 * Strings are sequences of Unicode scalar values; JavaScript counts UTF-16
 * code units, which differs only for characters outside the basic plane.
 */
module Text {
  import opened Optional

  /** The characters matched by `\s` in a JavaScript regular expression. */
  predicate IsWhitespace(c: char) {
    var u := c as int;
    u == 0x09 || u == 0x0A || u == 0x0B || u == 0x0C || u == 0x0D || u == 0x20
    || u == 0xA0 || u == 0x1680 || (0x2000 <= u <= 0x200A)
    || u == 0x2028 || u == 0x2029 || u == 0x202F || u == 0x205F
    || u == 0x3000 || u == 0xFEFF
  }

  /** True when no character of `s` is matched by `\s`. */
  predicate NoWhitespace(s: string) {
    forall i :: 0 <= i < |s| ==> !IsWhitespace(s[i])
  }

  /** The first position at or after `k` holding `c`, or `|s|` when there is none. */
  function IndexOfFrom(s: string, c: char, k: nat): (r: nat)
    ensures r <= |s|
    ensures r < |s| ==> k <= r && s[r] == c
    ensures forall m :: k <= m < r ==> s[m] != c
    decreases |s| - k
  {
    if k >= |s| then |s|
    else if s[k] == c then k
    else IndexOfFrom(s, c, k + 1)
  }

  predicate StartsWith(s: string, prefix: string) {
    |prefix| <= |s| && s[..|prefix|] == prefix
  }

  /** True when `pat` occurs in `s` starting at position `m`. */
  predicate OccursAt(s: string, pat: string, m: nat) {
    m + |pat| <= |s| && s[m..m + |pat|] == pat
  }

  /** The first occurrence of `pat` in `s` at or after `k`, if any. */
  function FindFrom(s: string, pat: string, k: nat): (r: Option<nat>)
    ensures r.Some? ==> k <= r.value && OccursAt(s, pat, r.value)
    ensures r.Some? ==> forall m :: k <= m < r.value ==> !OccursAt(s, pat, m)
    ensures r.None? ==> forall m :: k <= m ==> !OccursAt(s, pat, m)
    decreases |s| - k
  {
    if k + |pat| > |s| then None
    else if s[k..k + |pat|] == pat then Some(k)
    else FindFrom(s, pat, k + 1)
  }

  /** `s.replace(pat, rep)` for a string pattern: only the first occurrence is replaced. */
  function ReplaceFirst(s: string, pat: string, rep: string): (r: string)
    ensures StartsWith(s, pat) ==> r == rep + s[|pat|..]
    ensures (forall m :: !OccursAt(s, pat, m)) ==> r == s
  {
    match FindFrom(s, pat, 0)
    case None => s
    case Some(i) => s[..i] + rep + s[i + |pat|..]
  }

  /** `parts.join(sep)`. */
  function Join(parts: seq<string>, sep: string): string
  {
    if |parts| == 0 then ""
    else if |parts| == 1 then parts[0]
    else parts[0] + sep + Join(parts[1..], sep)
  }

  /** A join with a non-empty separator is empty exactly when it joins nothing or one empty part. */
  lemma JoinIsEmpty(parts: seq<string>, sep: string)
    requires sep != ""
    ensures Join(parts, sep) == "" <==> parts == [] || parts == [""]
  {
    if |parts| >= 2 {
      assert |Join(parts, sep)| >= |sep|;
    }
  }

  /** `String.prototype.toUpperCase` on one character, for the ASCII letters. */
  function UpperAscii(c: char): (r: char)
    ensures 'a' <= c <= 'z' ==> 'A' <= r <= 'Z' && r as int == c as int - 32
    ensures !('a' <= c <= 'z') ==> r == c
  {
    if 'a' <= c <= 'z' then (c as int - 32) as char else c
  }

  /** `s.charAt(0).toUpperCase() + s.slice(1)`. */
  function Capitalise(s: string): (r: string)
    ensures |r| == |s|
    ensures |s| > 0 ==> r[0] == UpperAscii(s[0]) && r[1..] == s[1..]
  {
    if s == "" then "" else [UpperAscii(s[0])] + s[1..]
  }
}
