/** Case folding as the core uses it: `toLowerCase()`/`toUpperCase()` in the
    navigation engine and `StringComparison.OrdinalIgnoreCase` in the tag helper.
    Only the ASCII letters are folded. */
module Text {

  predicate IsUpper(c: char) { 'A' <= c <= 'Z' }

  predicate IsLower(c: char) { 'a' <= c <= 'z' }

  function LowerChar(c: char): (r: char)
    ensures !IsUpper(r)
    ensures IsUpper(c) ==> IsLower(r) && r as int == c as int + 32
    ensures !IsUpper(c) ==> r == c
  {
    if IsUpper(c) then (c as int + 32) as char else c
  }

  function UpperChar(c: char): (r: char)
    ensures !IsLower(r)
    ensures IsLower(c) ==> IsUpper(r) && r as int == c as int - 32
    ensures !IsLower(c) ==> r == c
  {
    if IsLower(c) then (c as int - 32) as char else c
  }

  /** `s.toLowerCase()` */
  function Lower(s: string): (r: string)
    ensures |r| == |s|
    ensures forall i :: 0 <= i < |s| ==> r[i] == LowerChar(s[i])
  {
    if s == [] then [] else [LowerChar(s[0])] + Lower(s[1..])
  }

  /** `s.toUpperCase()` */
  function Upper(s: string): (r: string)
    ensures |r| == |s|
    ensures forall i :: 0 <= i < |s| ==> r[i] == UpperChar(s[i])
  {
    if s == [] then [] else [UpperChar(s[0])] + Upper(s[1..])
  }

  /** `a.toLowerCase() === b.toLowerCase()` */
  predicate EqualsIgnoreCase(a: string, b: string) {
    Lower(a) == Lower(b)
  }

  /** A string with no upper-case letter is its own lower-case form, so such
      strings are equal ignoring case only when they are equal. */
  lemma {:induction false} LowerOfLowerCase(s: string)
    requires forall i :: 0 <= i < |s| ==> !IsUpper(s[i])
    ensures Lower(s) == s
  {
    if s != [] {
      LowerOfLowerCase(s[1..]);
    }
  }
}
