/**
 * The two string operations the metadata builder applies to Java names:
 * `String.toLowerCase` (storage names) and commons-lang `StringUtils.capitalize`
 * (secondary-index names). Both are modelled on ASCII letters only.
 */
module JavaText {

  function LowerChar(c: char): char {
    if 'A' <= c <= 'Z' then (c as int + 32) as char else c
  }

  function UpperChar(c: char): char {
    if 'a' <= c <= 'z' then (c as int - 32) as char else c
  }

  /** `s.toLowerCase()`: every character lowered, length kept. */
  function LowerCase(s: string): (r: string)
    ensures |r| == |s|
    ensures forall i :: 0 <= i < |s| ==> r[i] == LowerChar(s[i])
    ensures forall i :: 0 <= i < |r| ==> !('A' <= r[i] <= 'Z')
  {
    seq(|s|, i requires 0 <= i < |s| => LowerChar(s[i]))
  }

  /** `StringUtils.capitalize(s)`: the first character upper-cased, the rest kept. */
  function Capitalize(s: string): (r: string)
    ensures |r| == |s|
    ensures |s| > 0 ==> r[0] == UpperChar(s[0]) && r[1..] == s[1..]
    ensures |s| > 0 ==> !('a' <= r[0] <= 'z')
  {
    if s == [] then s else [UpperChar(s[0])] + s[1..]
  }
}
