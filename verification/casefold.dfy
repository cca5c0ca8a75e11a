/** Case-insensitive substring search, as used by the scan filter
    (`name.contains("HM-10", ignoreCase = true)`).

    Kotlin treats two characters as equal ignoring case when they are equal,
    or their upper-case forms are equal, or the lower-case forms of those
    upper-case forms are equal, over all of Unicode. This model folds ASCII
    letters only; for the marker the filter looks for ("HM-10", pure ASCII)
    the two agree on every ASCII name. */
module CaseFold {

  /** ASCII lower-casing of one character; everything else is left alone. */
  function Lower(c: char): char
  {
    if 'A' <= c <= 'Z' then (c as int + 32) as char else c
  }

  /** ASCII upper-casing of one character; everything else is left alone. */
  function Upper(c: char): char
  {
    if 'a' <= c <= 'z' then (c as int - 32) as char else c
  }

  predicate SameIgnoringCase(a: char, b: char)
  {
    Lower(a) == Lower(b)
  }

  function LowerAll(s: string): (r: string)
    ensures |r| == |s|
    ensures forall i :: 0 <= i < |s| ==> r[i] == Lower(s[i])
  {
    seq(|s|, i requires 0 <= i < |s| => Lower(s[i]))
  }

  function UpperAll(s: string): (r: string)
    ensures |r| == |s|
    ensures forall i :: 0 <= i < |s| ==> r[i] == Upper(s[i])
  {
    seq(|s|, i requires 0 <= i < |s| => Upper(s[i]))
  }

  /** `sub` occurs in `s` starting at offset `i`, character by character
      ignoring case (Kotlin's `regionMatches(…, ignoreCase = true)`). */
  predicate MatchesAt(s: string, i: int, sub: string)
  {
    && 0 <= i
    && i + |sub| <= |s|
    && forall j :: 0 <= j < |sub| ==> SameIgnoringCase(s[i + j], sub[j])
  }

  /** Reference definition of `s.contains(sub, ignoreCase = true)`. */
  predicate ContainsIgnoreCase(s: string, sub: string)
  {
    exists i :: 0 <= i <= |s| - |sub| && MatchesAt(s, i, sub)
  }

  /** The character-by-character comparison of `regionMatches`; an offset
      that leaves too little of `s` is a mismatch, not an error. */
  method RegionMatches(s: string, i: nat, sub: string) returns (b: bool)
    ensures b <==> MatchesAt(s, i, sub)
  {
    if i + |sub| > |s| {
      return false;
    }
    var j := 0;
    while j < |sub|
      invariant 0 <= j <= |sub|
      invariant forall k :: 0 <= k < j ==> SameIgnoringCase(s[i + k], sub[k])
    {
      if !SameIgnoringCase(s[i + j], sub[j]) {
        return false;
      }
      j := j + 1;
    }
    return true;
  }

  /** `s.indexOf(sub, ignoreCase = true)`: the first offset where `sub`
      matches, or -1; `contains` is `indexOf(…) >= 0`. */
  method IndexOfIgnoreCase(s: string, sub: string) returns (idx: int)
    ensures idx == -1 <==> !ContainsIgnoreCase(s, sub)
    ensures idx != -1 ==> MatchesAt(s, idx, sub)
    ensures idx != -1 ==> forall k :: 0 <= k < idx ==> !MatchesAt(s, k, sub)
  {
    var i := 0;
    while i <= |s| - |sub|
      invariant 0 <= i
      invariant forall k :: 0 <= k < i ==> !MatchesAt(s, k, sub)
      decreases |s| - i
    {
      var m := RegionMatches(s, i, sub);
      if m {
        return i;
      }
      i := i + 1;
    }
    return -1;
  }

  lemma LowerUpperAgree(c: char)
    ensures Lower(Upper(c)) == Lower(c)
    ensures Lower(Lower(c)) == Lower(c)
  {
  }

  /** Changing the case of the searched text never changes the answer. */
  lemma {:induction false} ContainsIgnoresCaseOfText(s: string, sub: string)
    ensures ContainsIgnoreCase(LowerAll(s), sub) <==> ContainsIgnoreCase(s, sub)
    ensures ContainsIgnoreCase(UpperAll(s), sub) <==> ContainsIgnoreCase(s, sub)
  {
    forall i | 0 <= i <= |s| - |sub|
      ensures MatchesAt(LowerAll(s), i, sub) <==> MatchesAt(s, i, sub)
      ensures MatchesAt(UpperAll(s), i, sub) <==> MatchesAt(s, i, sub)
    {
      forall j | 0 <= j < |sub|
        ensures SameIgnoringCase(LowerAll(s)[i + j], sub[j]) <==> SameIgnoringCase(s[i + j], sub[j])
        ensures SameIgnoringCase(UpperAll(s)[i + j], sub[j]) <==> SameIgnoringCase(s[i + j], sub[j])
      {
        LowerUpperAgree(s[i + j]);
      }
    }
  }

  /** Changing the case of the searched-for text never changes the answer. */
  lemma {:induction false} ContainsIgnoresCaseOfPattern(s: string, sub: string)
    ensures ContainsIgnoreCase(s, LowerAll(sub)) <==> ContainsIgnoreCase(s, sub)
    ensures ContainsIgnoreCase(s, UpperAll(sub)) <==> ContainsIgnoreCase(s, sub)
  {
    forall i | 0 <= i <= |s| - |sub|
      ensures MatchesAt(s, i, LowerAll(sub)) <==> MatchesAt(s, i, sub)
      ensures MatchesAt(s, i, UpperAll(sub)) <==> MatchesAt(s, i, sub)
    {
      forall j | 0 <= j < |sub|
        ensures SameIgnoringCase(s[i + j], LowerAll(sub)[j]) <==> SameIgnoringCase(s[i + j], sub[j])
        ensures SameIgnoringCase(s[i + j], UpperAll(sub)[j]) <==> SameIgnoringCase(s[i + j], sub[j])
      {
        LowerUpperAgree(sub[j]);
      }
    }
  }

  /** A match survives any text put before or after it. */
  lemma ContainsInContext(p: string, s: string, q: string, sub: string)
    requires ContainsIgnoreCase(s, sub)
    ensures ContainsIgnoreCase(p + s + q, sub)
  {
    var i :| 0 <= i <= |s| - |sub| && MatchesAt(s, i, sub);
    var t := p + s + q;
    forall j | 0 <= j < |sub|
      ensures SameIgnoringCase(t[|p| + i + j], sub[j])
    {
      assert t[|p| + i + j] == s[i + j];
    }
    assert MatchesAt(t, |p| + i, sub);
  }
}
