/**
 ASCII case mapping on characters and strings. JavaScript's `toLowerCase` and
 `toUpperCase` are modelled on the 26 ASCII letters only; every other
 character is left as it is.
 */
module AsciiCase {

  predicate IsUpper(c: char) { 'A' <= c <= 'Z' }

  predicate IsLower(c: char) { 'a' <= c <= 'z' }

  /** The lower-case form of an ASCII capital; any other character unchanged. */
  function Lower(c: char): (d: char)
    ensures !IsUpper(d)
    ensures IsUpper(c) ==> IsLower(d) && d as int - 'a' as int == c as int - 'A' as int
    ensures !IsUpper(c) ==> d == c
  {
    if IsUpper(c) then (c as int - 'A' as int + 'a' as int) as char else c
  }

  /** The upper-case form of an ASCII small letter; any other character unchanged. */
  function Upper(c: char): (d: char)
    ensures !IsLower(d)
    ensures IsLower(c) ==> IsUpper(d) && d as int - 'A' as int == c as int - 'a' as int
    ensures !IsLower(c) ==> d == c
  {
    if IsLower(c) then (c as int - 'a' as int + 'A' as int) as char else c
  }

  /** Lowering and raising forget only the case of a letter. */
  lemma CaseRoundTrip(c: char)
    ensures Lower(Upper(c)) == Lower(c)
    ensures Upper(Lower(c)) == Upper(c)
  {
  }

  /** Two characters that agree once lowered also agree once raised. */
  lemma SameLowerSameUpper(a: char, b: char)
    requires Lower(a) == Lower(b)
    ensures Upper(a) == Upper(b)
  {
    CaseRoundTrip(a);
    CaseRoundTrip(b);
  }

  /** `s.toLowerCase()` on ASCII: the same length, each character lowered. */
  function LowerStr(s: string): (r: string)
    ensures |r| == |s|
    ensures forall i :: 0 <= i < |s| ==> r[i] == Lower(s[i])
  {
    seq(|s|, i requires 0 <= i < |s| => Lower(s[i]))
  }

  /** A lowered string holds no ASCII capital. */
  predicate IsLowered(s: string)
  {
    forall c :: c in s ==> !IsUpper(c)
  }

  /** Lowering yields a lowered string. */
  lemma LowerStrIsLowered(s: string)
    ensures IsLowered(LowerStr(s))
  {
  }

  /** Lowering leaves a lowered string unchanged. */
  lemma LowerStrFixes(s: string)
    requires IsLowered(s)
    ensures LowerStr(s) == s
  {
    assert forall i :: 0 <= i < |s| ==> LowerStr(s)[i] == s[i];
  }

  /** The strings that lowering leaves unchanged are exactly the lowered ones. */
  lemma LowerStrFixedIff(s: string)
    ensures IsLowered(s) <==> LowerStr(s) == s
  {
    if IsLowered(s) {
      LowerStrFixes(s);
    } else {
      var i :| 0 <= i < |s| && IsUpper(s[i]);
      assert LowerStr(s)[i] != s[i];
    }
  }

  /** Lowering twice is lowering once. */
  lemma LowerStrIdempotent(s: string)
    ensures LowerStr(LowerStr(s)) == LowerStr(s)
  {
    LowerStrIsLowered(s);
    LowerStrFixes(LowerStr(s));
  }

  /** Two strings equal after lowering have first characters that agree once raised. */
  lemma SameLoweredSameFirstUpper(p: string, q: string)
    requires LowerStr(p) == LowerStr(q) && p != []
    ensures q != [] && Upper(p[0]) == Upper(q[0])
  {
    assert LowerStr(p)[0] == Lower(p[0]);
    assert LowerStr(q)[0] == Lower(q[0]);
    SameLowerSameUpper(p[0], q[0]);
  }
}
