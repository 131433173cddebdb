/** Order-preserving subsequences. */
module Sequences {

  /** `t` is obtained from `s` by deleting some elements, keeping the order of
      the rest. */
  predicate IsSubsequence<T(==)>(t: seq<T>, s: seq<T>)
    decreases |s|
  {
    if s == [] then t == []
    else IsSubsequence(t, s[1..]) || (t != [] && t[0] == s[0] && IsSubsequence(t[1..], s[1..]))
  }

  lemma {:induction false} SubsequenceNoLonger<T>(t: seq<T>, s: seq<T>)
    requires IsSubsequence(t, s)
    ensures |t| <= |s|
    decreases |s|
  {
    if s != [] {
      if IsSubsequence(t, s[1..]) {
        SubsequenceNoLonger(t, s[1..]);
      } else {
        SubsequenceNoLonger(t[1..], s[1..]);
      }
    }
  }
}
