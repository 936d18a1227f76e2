/** The few Python built-ins the game relies on: `None` and `str.upper` on ASCII text. */
module Builtins {

  /** A value or Python's `None`. */
  datatype Option<T> = None | Some(value: T)

  /** `str.upper` on one character, for the ASCII range: a lower-case letter becomes its
      upper-case partner and every other character is kept. */
  function UpperChar(c: char): (u: char)
    ensures !('a' <= u <= 'z')
    ensures 'A' <= c <= 'Z' ==> u == c
    ensures 'A' <= u <= 'Z' <==> ('A' <= c <= 'Z' || 'a' <= c <= 'z')
    ensures u == ' ' <==> c == ' '
    ensures u == '_' <==> c == '_'
    ensures 'a' <= c <= 'z' ==> u as int - 'A' as int == c as int - 'a' as int
    ensures !('a' <= c <= 'z') ==> u == c
  {
    if 'a' <= c <= 'z' then (c as int - 32) as char else c
  }

  /** `str.upper` on a string, character by character: each lower-case ASCII letter
      becomes its upper-case partner, every other character is kept. */
  function Upper(s: string): (u: string)
    ensures |u| == |s|
    ensures forall i :: 0 <= i < |s| && 'a' <= s[i] <= 'z' ==> u[i] as int == s[i] as int - 32
    ensures forall i :: 0 <= i < |s| && !('a' <= s[i] <= 'z') ==> u[i] == s[i]
  {
    seq(|s|, i requires 0 <= i < |s| => UpperChar(s[i]))
  }

}
