/** Small facts about sequences shared by the world's lists. */
module Sequences {

  function Last<T>(s: seq<T>): T
    requires |s| > 0
  {
    s[|s| - 1]
  }

  /** a can be obtained from b by deleting elements, keeping the order of
      the rest. */
  predicate IsSubsequence<T(==)>(a: seq<T>, b: seq<T>)
    decreases |b|
  {
    if b == [] then a == []
    else (a != [] && a[0] == b[0] && IsSubsequence(a[1..], b[1..])) || IsSubsequence(a, b[1..])
  }

  /** The parts of a list made of a prefix of s up to and including index
      i, followed by rest. */
  lemma PrefixParts<T>(s: seq<T>, i: nat, rest: seq<T>)
    requires i < |s|
    ensures var cur := s[..i + 1] + rest;
            cur[..i] == s[..i] && cur[i] == s[i] && cur[i + 1..] == rest
  {
    var cur := s[..i + 1] + rest;
    assert cur[..i] == s[..i];
    assert cur[i + 1..] == rest;
  }
}
