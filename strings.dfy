/** The two string operations the integration performs: `str.rstrip(c)` and `str.split(".")[0]`. */
module Strings {

  /** `s.rstrip(c)` for a single character c: drops every trailing c. */
  function StripTrailing(s: string, c: char): (r: string)
    ensures r <= s
    ensures r == [] || r[|r| - 1] != c
    ensures forall i :: |r| <= i < |s| ==> s[i] == c
  {
    if s != [] && s[|s| - 1] == c then StripTrailing(s[..|s| - 1], c) else s
  }

  /** The three facts StripTrailing ensures pin its result down: no other prefix has them. */
  lemma StripTrailingUnique(s: string, c: char, r: string)
    requires r <= s
    requires r == [] || r[|r| - 1] != c
    requires forall i :: |r| <= i < |s| ==> s[i] == c
    ensures r == StripTrailing(s, c)
  {
  }

  function Repeat(c: char, k: nat): (s: string)
    ensures |s| == k && forall i :: 0 <= i < k ==> s[i] == c
  {
    if k == 0 then [] else Repeat(c, k - 1) + [c]
  }

  /** Stripping undoes appending any number of c to a string that does not end in c. */
  lemma {:induction false} StripTrailingAppended(b: string, c: char, k: nat)
    requires b == [] || b[|b| - 1] != c
    ensures StripTrailing(b + Repeat(c, k), c) == b
  {
    if k > 0 {
      var s := b + Repeat(c, k);
      assert s[..|s| - 1] == b + Repeat(c, k - 1);
      StripTrailingAppended(b, c, k - 1);
    }
  }

  /** `s.split(".")[0]`: the part of s before its first '.', or all of s when it has none. */
  function DomainOf(s: string): (d: string)
    ensures d <= s
    ensures '.' !in d
    ensures |d| < |s| ==> s[|d|] == '.'
  {
    if s == [] || s[0] == '.' then [] else [s[0]] + DomainOf(s[1..])
  }

  /** Splitting an entity id `domain.object` gives back the domain it was built from. */
  lemma {:induction false} DomainOfQualified(domain: string, rest: string)
    requires '.' !in domain
    ensures DomainOf(domain + "." + rest) == domain
  {
    if domain != [] {
      assert (domain + "." + rest)[1..] == domain[1..] + "." + rest;
      DomainOfQualified(domain[1..], rest);
    }
  }

  /** An id without a '.' is its own domain. */
  lemma {:induction false} DomainOfUnqualified(s: string)
    requires '.' !in s
    ensures DomainOf(s) == s
  {
    if s != [] {
      DomainOfUnqualified(s[1..]);
    }
  }
}
