/** C strings inside longer texts. */
module CStrings {

  /** Where the C string that starts at position i ends. */
  function StrEnd(s: string, i: nat): (e: nat)
    requires i <= |s|
    ensures i <= e <= |s| && forall k :: i <= k < e ==> s[k] != '\0'
    ensures e < |s| ==> s[e] == '\0'
    decreases |s| - i
  {
    if i == |s| || s[i] == '\0' then i else StrEnd(s, i + 1)
  }

  /** The C string that starts at position i. */
  function Str(s: string, i: nat): (r: string)
    requires i <= |s|
    ensures i + |r| <= |s| && forall k :: 0 <= k < |r| ==> r[k] == s[i + k] != '\0'
    ensures i + |r| < |s| ==> s[i + |r|] == '\0'
  {
    s[i..StrEnd(s, i)]
  }

  lemma StrUnique(s: string, i: nat, n: nat)
    requires i + n <= |s| && forall k :: i <= k < i + n ==> s[k] != '\0'
    requires i + n < |s| ==> s[i + n] == '\0'
    ensures Str(s, i) == s[i..i + n]
  {
  }

  lemma StrHasNoNul(s: string, i: nat)
    requires i <= |s|
    ensures forall k :: i <= k < i + |Str(s, i)| ==> s[k] != '\0'
  {
  }
}
