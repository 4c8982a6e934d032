/**
 * String helpers the screens rely on: ASCII case mapping (standing in for
 * `toLowerCase`), capitalisation, and substring search (`includes`).
 */
module Text {

  predicate IsUpperAscii(c: char) {
    'A' <= c <= 'Z'
  }

  predicate IsLowerAscii(c: char) {
    'a' <= c <= 'z'
  }

  /** ASCII lower-casing of one character; every other character is kept. */
  function LowerChar(c: char): (d: char)
    ensures !IsUpperAscii(d)
    ensures !IsUpperAscii(c) ==> d == c
  {
    if IsUpperAscii(c) then (c as int + 32) as char else c
  }

  /** ASCII upper-casing of one character; every other character is kept. */
  function UpperChar(c: char): (d: char)
    ensures !IsLowerAscii(d)
    ensures !IsLowerAscii(c) ==> d == c
  {
    if IsLowerAscii(c) then (c as int - 32) as char else c
  }

  /** `s.toLowerCase()`, restricted to ASCII letters. */
  function Lower(s: string): (r: string)
    ensures |r| == |s|
    ensures forall i :: 0 <= i < |s| ==> r[i] == LowerChar(s[i])
  {
    seq(|s|, i requires 0 <= i < |s| => LowerChar(s[i]))
  }

  /** Lower-casing twice is lower-casing once. */
  lemma LowerIdempotent(s: string)
    ensures Lower(Lower(s)) == Lower(s)
  {
  }

  /** Lower-casing works piecewise on a concatenation. */
  lemma LowerAppend(s: string, t: string)
    ensures Lower(s + t) == Lower(s) + Lower(t)
  {
  }

  /** First character upper-cased, the rest unchanged. */
  function Capitalize(s: string): (r: string)
    ensures |r| == |s|
    ensures |s| > 0 ==> r[0] == UpperChar(s[0]) && r[1..] == s[1..]
  {
    if |s| == 0 then "" else [UpperChar(s[0])] + s[1..]
  }

  /** `hay.includes(needle)`: `needle` occurs in `hay` at some offset. */
  predicate Contains(hay: string, needle: string) {
    exists i :: 0 <= i <= |hay| && needle <= hay[i..]
  }

  /** Every string contains the empty string. */
  lemma ContainsEmpty(hay: string)
    ensures Contains(hay, "")
  {
    assert "" <= hay[0..];
  }
}
