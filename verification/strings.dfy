/** Text primitives used by the search box: lower-casing (`toLowerCase`)
    and substring containment (`includes`). Lower-casing is modelled on
    ASCII letters only; every other character is left as it is. */
module Strings {

  predicate IsUpper(c: char) {
    'A' <= c <= 'Z'
  }

  predicate IsLowerLetter(c: char) {
    'a' <= c <= 'z'
  }

  /** Lower-cases one character: an ASCII capital becomes its small letter. */
  function Lower(c: char): (r: char)
    ensures !IsUpper(r)
    ensures IsLowerLetter(r) <==> IsUpper(c) || IsLowerLetter(c)
    ensures !IsUpper(c) ==> r == c
    ensures IsUpper(c) ==> (r as int) - ('a' as int) == (c as int) - ('A' as int)
  {
    if IsUpper(c) then ((c as int) + 32) as char else c
  }

  /** `s.toLowerCase()`: lower-cases every character, keeping the length. */
  function LowerStr(s: string): (r: string)
    ensures |r| == |s|
    ensures forall i :: 0 <= i < |s| ==> r[i] == Lower(s[i])
    ensures forall i :: 0 <= i < |r| ==> !IsUpper(r[i])
  {
    seq(|s|, i requires 0 <= i < |s| => Lower(s[i]))
  }

  /** Lower-casing a string that is already lower-cased changes nothing. */
  lemma LowerStrIdempotent(s: string)
    ensures LowerStr(LowerStr(s)) == LowerStr(s)
  {
  }

  /** Two characters that are the same letter up to ASCII case: equal, or
      one is a capital and the other its small letter. */
  predicate SameIgnoringCase(a: char, b: char) {
    || a == b
    || (IsUpper(a) && (b as int) - (a as int) == ('a' as int) - ('A' as int))
    || (IsUpper(b) && (a as int) - (b as int) == ('a' as int) - ('A' as int))
  }

  /** Two characters lower-case alike exactly when they agree up to case. */
  lemma LowerEqual(a: char, b: char)
    ensures Lower(a) == Lower(b) <==> SameIgnoringCase(a, b)
  {
  }

  /** Two strings lower-case alike exactly when they have the same length
      and agree up to case at every position. */
  lemma LowerStrEqual(s: string, t: string)
    ensures LowerStr(s) == LowerStr(t)
            <==> |s| == |t| && forall i :: 0 <= i < |s| ==> SameIgnoringCase(s[i], t[i])
  {
  }

  /** `needle` occurs in `hay` starting at position `i`. */
  predicate OccursAt(needle: string, hay: string, i: int) {
    0 <= i && i + |needle| <= |hay| && hay[i..i + |needle|] == needle
  }

  /** `hay.includes(needle)`: `needle` occurs somewhere in `hay`. */
  predicate Substring(needle: string, hay: string) {
    exists i | 0 <= i <= |hay| - |needle| :: OccursAt(needle, hay, i)
  }

  /** The empty string occurs in every string. */
  lemma EmptySubstring(hay: string)
    ensures Substring("", hay)
  {
    assert OccursAt("", hay, 0);
  }

  /** A needle whose first character is nowhere in the haystack does not occur in it. */
  lemma FirstCharAbsent(needle: string, hay: string)
    requires |needle| > 0
    requires needle[0] !in hay
    ensures !Substring(needle, hay)
  {
  }

  /** Left-to-right search for `needle` in `hay`, as `includes` does. */
  method Includes(hay: string, needle: string) returns (found: bool)
    ensures found <==> Substring(needle, hay)
  {
    if |needle| > |hay| {
      return false;
    }
    var i := 0;
    while i <= |hay| - |needle|
      invariant 0 <= i <= |hay| - |needle| + 1
      invariant forall j :: 0 <= j < i ==> !OccursAt(needle, hay, j)
    {
      if hay[i..i + |needle|] == needle {
        assert OccursAt(needle, hay, i);
        return true;
      }
      i := i + 1;
    }
    return false;
  }
}
