/**
 * The part of Go's strings.ToUpper that the bot relies on, restricted to
 * ASCII: the letters a..z become A..Z and every other character is kept.
 */
module Ascii {

  predicate IsLower(c: char) { 'a' <= c <= 'z' }

  predicate IsUpper(c: char) { 'A' <= c <= 'Z' }

  function UpperChar(c: char): char
  {
    if IsLower(c) then (c as int - 32) as char else c
  }

  function LowerChar(c: char): char
  {
    if IsUpper(c) then (c as int + 32) as char else c
  }

  /** strings.ToUpper on ASCII text: the same length, each character upper-cased in place. */
  function Upper(s: string): (r: string)
    ensures |r| == |s|
    ensures forall i :: 0 <= i < |s| ==> r[i] == UpperChar(s[i])
  {
    if s == [] then [] else [UpperChar(s[0])] + Upper(s[1..])
  }

  /** Every character of w is an upper-case letter (true of the difficulty labels). */
  predicate IsUpperWord(w: string)
  {
    forall i :: 0 <= i < |w| ==> IsUpper(w[i])
  }

  /** s spells w letter by letter, each letter in either case. */
  predicate IsCaseVariant(s: string, w: string)
  {
    |s| == |w| &&
    forall i :: 0 <= i < |s| ==> s[i] == w[i] || s[i] == LowerChar(w[i])
  }

  /** Upper-casing leaves no lower-case letter behind. */
  lemma UpperHasNoLower(s: string)
    ensures forall i :: 0 <= i < |Upper(s)| ==> !IsLower(Upper(s)[i])
  {
  }

  /** Upper-casing twice is upper-casing once. */
  lemma UpperIdempotent(s: string)
    ensures Upper(Upper(s)) == Upper(s)
  {
  }

  /**
   * For an upper-case word w, upper-casing s yields w exactly when s is w
   * written in any mix of cases.
   */
  lemma UpperMatchesCaseVariants(s: string, w: string)
    requires IsUpperWord(w)
    ensures Upper(s) == w <==> IsCaseVariant(s, w)
  {
  }
}
