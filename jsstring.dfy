/** `String.prototype.toUpperCase` as far as HTTP method keys need it: the
    ASCII letters a to z map to A to Z, every other character is kept. */
module JsString {

  function UpperChar(c: char): (u: char)
    ensures 'a' <= c <= 'z' ==> u as int == c as int - 32
    ensures !('a' <= c <= 'z') ==> u == c
  {
    if 'a' <= c <= 'z' then (c as int - 32) as char else c
  }

  predicate IsLower(c: char) {
    'a' <= c <= 'z'
  }

  /** `s.toUpperCase()`. */
  function Upper(s: string): (r: string)
    ensures |r| == |s|
    ensures forall i :: 0 <= i < |s| ==> r[i] == UpperChar(s[i])
    ensures forall i :: 0 <= i < |s| ==> !IsLower(r[i]) && (r[i] != s[i] <==> IsLower(s[i]))
  {
    seq(|s|, i requires 0 <= i < |s| => UpperChar(s[i]))
  }

  /** A key is left unchanged by upper-casing exactly when it holds no ASCII
      lower-case letter, and applying upper-casing again changes nothing. */
  lemma UpperNormalises(s: string)
    ensures Upper(s) == s <==> forall i :: 0 <= i < |s| ==> !IsLower(s[i])
    ensures Upper(Upper(s)) == Upper(s)
  {
  }

  /** The only characters that upper-case to `G`, `E` and `T`. */
  lemma UpperCharIs(c: char, target: char)
    requires 'A' <= target <= 'Z'
    ensures UpperChar(c) == target <==> c == target || c as int == target as int + 32
  {
  }

  /** The test `method.toUpperCase() === 'GET'` holds exactly for the
      eight spellings of "get" that differ only in letter case. */
  lemma UpperIsGet(s: string)
    ensures Upper(s) == "GET" <==>
      |s| == 3 && (s[0] == 'g' || s[0] == 'G') && (s[1] == 'e' || s[1] == 'E') && (s[2] == 't' || s[2] == 'T')
  {
  }
}
