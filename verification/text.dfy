/** The few string operations the annotation code relies on: Python's
    `str.lower()` (on ASCII letters) and prefix tests. */
module Text {

  predicate IsUpperAscii(c: char) {
    'A' <= c <= 'Z'
  }

  predicate IsLowerAscii(c: char) {
    'a' <= c <= 'z'
  }

  /** True when no character of `s` is an upper-case ASCII letter. */
  predicate NoUpper(s: string) {
    forall i :: 0 <= i < |s| ==> !IsUpperAscii(s[i])
  }

  /** The lower-case form of one character; only ASCII letters change. */
  function LowerChar(c: char): (r: char)
    ensures !IsUpperAscii(r)
    ensures r == c || (IsUpperAscii(c) && IsLowerAscii(r))
    ensures IsUpperAscii(c) ==> UpperChar(r) == c
  {
    if IsUpperAscii(c) then (c as int + 32) as char else c
  }

  /** The upper-case form of an ASCII lower-case letter. */
  function UpperChar(c: char): (r: char)
    requires IsLowerAscii(c)
    ensures IsUpperAscii(r)
  {
    (c as int - 32) as char
  }

  /** Python's `s.lower()`: every character is lowered in place. */
  function Lower(s: string): (r: string)
    ensures |r| == |s|
    ensures forall i :: 0 <= i < |s| ==> r[i] == LowerChar(s[i])
    ensures NoUpper(r)
  {
    if s == [] then [] else [LowerChar(s[0])] + Lower(s[1..])
  }

  /** `v` spells the lower-case word `w`, each letter in either case. This is
      an independent description of "equal after lower-casing". */
  predicate MatchesIgnoringCase(v: string, w: string) {
    && |v| == |w|
    && forall i :: 0 <= i < |v| ==>
         v[i] == w[i] || (IsLowerAscii(w[i]) && v[i] == UpperChar(w[i]))
  }

  /** Lower-casing `v` yields the lower-case word `w` exactly when `v` spells
      `w` up to the case of its letters. */
  lemma LowerEqualsIff(v: string, w: string)
    requires NoUpper(w)
    ensures Lower(v) == w <==> MatchesIgnoringCase(v, w)
  {
    var l := Lower(v);
    if l == w {
      forall i | 0 <= i < |v|
        ensures v[i] == w[i] || (IsLowerAscii(w[i]) && v[i] == UpperChar(w[i]))
      {
        assert w[i] == LowerChar(v[i]);
      }
    }
    if MatchesIgnoringCase(v, w) {
      forall i | 0 <= i < |v|
        ensures l[i] == w[i]
      {
        if v[i] != w[i] {
          assert v[i] == UpperChar(w[i]);
          assert LowerChar(v[i]) == w[i];
        } else {
          assert !IsUpperAscii(w[i]);
        }
      }
    }
  }

  predicate StartsWith(s: string, prefix: string) {
    |prefix| <= |s| && s[..|prefix|] == prefix
  }

  /** A string that is empty, or whose first character differs from that of
      a non-empty prefix, does not start with that prefix. */
  lemma FirstCharRulesOutPrefix(s: string, prefix: string)
    requires |prefix| > 0 && (s == [] || s[0] != prefix[0])
    ensures !StartsWith(s, prefix)
  {
    if |prefix| <= |s| {
      assert s[..|prefix|][0] == s[0];
    }
  }
}
