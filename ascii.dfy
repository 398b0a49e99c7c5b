/**
 * ASCII case mapping, the part of Ruby's `String#upcase` that the npm-audit
 * adapter relies on (npm reports severities as lower-case ASCII words).
 */
module Ascii {

  predicate IsLower(c: char) {
    'a' <= c <= 'z'
  }

  /** Upper-cases one character; every other character is left alone. */
  function UpcaseChar(c: char): (u: char)
    ensures !IsLower(u)
    ensures IsLower(c) ==> u as int == c as int - 32
    ensures !IsLower(c) ==> u == c
  {
    if IsLower(c) then (c as int - 32) as char else c
  }

  /** Upper-cases a string character by character. */
  function Upcase(s: string): (r: string)
    ensures |r| == |s|
    ensures forall i :: 0 <= i < |s| ==> r[i] == UpcaseChar(s[i])
  {
    seq(|s|, i requires 0 <= i < |s| => UpcaseChar(s[i]))
  }

  /**
   * Two characters that are equal, or are the lower- and upper-case forms of
   * one ASCII letter (the upper-case letter sits 32 code points below).
   */
  predicate SameIgnoringCase(a: char, b: char) {
    || a == b
    || (IsLower(a) && b as int == a as int - 32)
    || (IsLower(b) && a as int == b as int - 32)
  }

  /** Two strings that differ at most in the case of ASCII letters. */
  predicate EqualIgnoringCase(s: string, t: string) {
    |s| == |t| && forall i :: 0 <= i < |s| ==> SameIgnoringCase(s[i], t[i])
  }

  /** Upper-cased characters agree exactly when the originals agree up to case. */
  lemma UpcaseCharEqualIff(a: char, b: char)
    ensures UpcaseChar(a) == UpcaseChar(b) <==> SameIgnoringCase(a, b)
  {
  }

  /** Upper-casing twice is upper-casing once. */
  lemma UpcaseIdempotent(s: string)
    ensures Upcase(Upcase(s)) == Upcase(s)
  {
    var u := Upcase(s);
    assert forall i :: 0 <= i < |u| ==> Upcase(u)[i] == u[i];
  }

  /** Upper-cased strings agree exactly when the originals agree up to case. */
  lemma UpcaseEqualIff(s: string, t: string)
    ensures Upcase(s) == Upcase(t) <==> EqualIgnoringCase(s, t)
  {
    if |s| == |t| {
      forall i | 0 <= i < |s|
        ensures Upcase(s)[i] == Upcase(t)[i] <==> SameIgnoringCase(s[i], t[i])
      {
        UpcaseCharEqualIff(s[i], t[i]);
      }
      if EqualIgnoringCase(s, t) {
        assert Upcase(s) == Upcase(t);
      }
    }
  }
}
