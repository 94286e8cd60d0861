/** The part of JavaScript's `toUpperCase` the generator relies on: ASCII letters. */
module Text {

  /** Upper-case of one character: `a`..`z` map to `A`..`Z`, everything else is kept. */
  function UpperChar(c: char): (u: char)
    ensures 'a' <= c <= 'z' ==> 'A' <= u <= 'Z' && u as int == c as int - 32
    ensures !('a' <= c <= 'z') ==> u == c
  {
    if 'a' <= c <= 'z' then (c as int - 32) as char else c
  }

  /** `s.toUpperCase()` on a string. */
  function Upper(s: string): (u: string)
    ensures |u| == |s|
    ensures forall i :: 0 <= i < |s| ==> u[i] == UpperChar(s[i])
  {
    if s == [] then [] else [UpperChar(s[0])] + Upper(s[1..])
  }

  /** A word the generator can hide: non-empty, lower-case ASCII letters only. */
  predicate IsWord(w: string) {
    |w| > 0 && forall i :: 0 <= i < |w| ==> 'a' <= w[i] <= 'z'
  }

  /** A cell of a finished board: exactly one upper-case letter. */
  predicate IsLetterCell(s: string) {
    |s| == 1 && 'A' <= s[0] <= 'Z'
  }

  /** Upper-casing a cell that already holds an upper-case letter changes nothing. */
  lemma UpperOfLetterCell(s: string)
    requires IsLetterCell(s)
    ensures Upper(s) == s
  {
  }

  /** Upper-casing one letter of a word gives a letter cell. */
  lemma UpperOfWordLetter(w: string, i: nat)
    requires IsWord(w) && i < |w|
    ensures IsLetterCell([UpperChar(w[i])])
  {
  }
}
