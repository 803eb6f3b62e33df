/** Case folding of option-type names, as done by Python's `str.lower` before
    an option type is checked. Only the ASCII letters A-Z are folded. */
module Text {

  predicate IsUpper(c: char) {
    'A' <= c <= 'Z'
  }

  /** The lower-case form of one character. */
  function LowerChar(c: char): (r: char)
    ensures !IsUpper(r)
    ensures !IsUpper(c) ==> r == c
    ensures IsUpper(c) ==> 'a' <= r <= 'z' && r as int - c as int == 'a' as int - 'A' as int
  {
    if IsUpper(c) then (c as int - 'A' as int + 'a' as int) as char else c
  }

  /** `s.lower()`: every character folded, nothing added or dropped. */
  function Lower(s: string): (r: string)
    ensures |r| == |s|
    ensures forall i :: 0 <= i < |s| ==> r[i] == LowerChar(s[i])
  {
    if s == [] then [] else [LowerChar(s[0])] + Lower(s[1..])
  }

  /** A string with no upper-case letter. */
  predicate IsLowerCase(t: string) {
    forall i :: 0 <= i < |t| ==> !IsUpper(t[i])
  }

  /** `s` spells `t` with any of its letters possibly written in upper case. */
  predicate SameIgnoringCase(s: string, t: string) {
    |s| == |t| &&
    forall i :: 0 <= i < |s| ==>
      s[i] == t[i] || (IsUpper(s[i]) && t[i] as int - s[i] as int == 'a' as int - 'A' as int)
  }

  /** Lower-casing `s` yields the lower-case word `t` exactly when `s` is `t`
      written in any mixture of cases. */
  lemma LowerMatches(s: string, t: string)
    requires IsLowerCase(t)
    ensures Lower(s) == t <==> SameIgnoringCase(s, t)
  {
    if Lower(s) == t {
      forall i | 0 <= i < |s|
        ensures s[i] == t[i] || (IsUpper(s[i]) && t[i] as int - s[i] as int == 'a' as int - 'A' as int)
      {
        assert t[i] == LowerChar(s[i]);
      }
    }
    if SameIgnoringCase(s, t) {
      forall i | 0 <= i < |s| ensures Lower(s)[i] == t[i] {
        assert !IsUpper(t[i]);
      }
    }
  }

  /** Lower-casing leaves a lower-case string as it is, so "call" and "put"
      are accepted as written. */
  lemma LowerOfLowerCase(t: string)
    requires IsLowerCase(t)
    ensures Lower(t) == t
  {
    LowerMatches(t, t);
  }
}
