/** Order-preserving subsequences, used to state that a filter keeps the input's order. */
module Sequences {

  /** r is obtained from s by deleting some elements and keeping the order of the rest. */
  ghost predicate SubsequenceOf<T>(r: seq<T>, s: seq<T>)
    decreases |s|
  {
    if r == [] then true
    else if s == [] then false
    else (r[0] == s[0] && SubsequenceOf(r[1..], s[1..])) || SubsequenceOf(r, s[1..])
  }

  /** A subsequence is never longer than the sequence it comes from. */
  lemma {:induction false} SubsequenceLength<T>(r: seq<T>, s: seq<T>)
    requires SubsequenceOf(r, s)
    ensures |r| <= |s|
    decreases |s|
  {
    if r != [] {
      if r[0] == s[0] && SubsequenceOf(r[1..], s[1..]) {
        SubsequenceLength(r[1..], s[1..]);
      } else {
        SubsequenceLength(r, s[1..]);
      }
    }
  }
}
