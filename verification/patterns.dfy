/**
 The three regular expressions the input models use, written as predicates
 over characters, each with a scanning matcher that decides it independently.
 Pydantic v2 matches `pattern=` with the Rust regex engine, where `$` is the
 end of the text.
 */
module Patterns {

  predicate IsLower(c: char) { 'a' <= c <= 'z' }

  predicate IsUpper(c: char) { 'A' <= c <= 'Z' }

  /** Every character of `s[lo..hi]` is a lower-case ASCII letter. */
  predicate LowerIn(s: string, lo: int, hi: int)
    requires 0 <= lo && hi <= |s|
  {
    forall k | lo <= k < hi :: IsLower(s[k])
  }

  /** Every character of `s[lo..hi]` is an upper-case ASCII letter. */
  predicate UpperIn(s: string, lo: int, hi: int)
    requires 0 <= lo && hi <= |s|
  {
    forall k | lo <= k < hi :: IsUpper(s[k])
  }

  /** `^[a-z]{2}(-[A-Z]{2})?$`: the language of a project, e.g. `en` or `en-US`. */
  predicate LanguageCode(s: string) {
    || (|s| == 2 && LowerIn(s, 0, 2))
    || (|s| == 5 && LowerIn(s, 0, 2) && s[2] == '-' && UpperIn(s, 3, 5))
  }

  /** `^[a-z]{2,10}(_[a-z]{2})?$`: the language of a magic-clips project, e.g. `cmn_en`. */
  predicate ClipLanguageCode(s: string) {
    || (2 <= |s| <= 10 && LowerIn(s, 0, |s|))
    || (5 <= |s| <= 13 && LowerIn(s, 0, |s| - 3) && s[|s| - 3] == '_' && LowerIn(s, |s| - 2, |s|))
  }

  /** `^(natural|fast|extra-fast)$`: a silence-removal pace. */
  predicate Pace(s: string) {
    s == "natural" || s == "fast" || s == "extra-fast"
  }

  /** The character class `LanguageCode` expects at position `k`. */
  predicate LanguageClassAt(k: nat, c: char) {
    if k < 2 then IsLower(c) else if k == 2 then c == '-' else IsUpper(c)
  }

  /** Decides `LanguageCode` by checking each position against its character class. */
  method MatchLanguageCode(s: string) returns (ok: bool)
    ensures ok <==> LanguageCode(s)
  {
    if |s| != 2 && |s| != 5 {
      return false;
    }
    ok := true;
    var i := 0;
    while i < |s|
      invariant 0 <= i <= |s|
      invariant ok <==> forall k | 0 <= k < i :: LanguageClassAt(k, s[k])
    {
      ok := ok && LanguageClassAt(i, s[i]);
      i := i + 1;
    }
  }

  /** Decides `ClipLanguageCode` by scanning the leading run of lower-case letters. */
  method MatchClipLanguageCode(s: string) returns (ok: bool)
    ensures ok <==> ClipLanguageCode(s)
  {
    var i := 0;
    while i < |s| && IsLower(s[i])
      invariant 0 <= i <= |s|
      invariant LowerIn(s, 0, i)
    {
      i := i + 1;
    }
    ClipCodeByRun(s, i);
    ok := 2 <= i <= 10 && (i == |s| || (i + 3 == |s| && s[i] == '_' && IsLower(s[i + 1]) && IsLower(s[i + 2])));
  }

  /**
   Once the leading run of lower-case letters is known to end at `i`, the
   clip-language pattern reduces to a check on the run length and the tail.
   */
  lemma ClipCodeByRun(s: string, i: nat)
    requires i <= |s| && LowerIn(s, 0, i) && (i < |s| ==> !IsLower(s[i]))
    ensures ClipLanguageCode(s) <==>
              2 <= i <= 10 && (i == |s| || (i + 3 == |s| && s[i] == '_' && IsLower(s[i + 1]) && IsLower(s[i + 2])))
  {
    if i < |s| {
      assert !LowerIn(s, 0, |s|);
      if 5 <= |s| <= 13 && LowerIn(s, 0, |s| - 3) && s[|s| - 3] == '_' {
        assert i == |s| - 3;
      }
    }
  }

  /** A bare two-letter code is accepted by both patterns; a regional code only by the first. */
  lemma LanguagePatternsOverlap(s: string)
    requires LanguageCode(s)
    ensures |s| == 2 <==> ClipLanguageCode(s)
  {
    if |s| == 5 {
      assert !IsLower(s[2]);
    }
  }
}
