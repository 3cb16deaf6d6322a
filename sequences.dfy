/** Facts about sequences shared by the list-filtering parts of the model. */
module Sequences {

  /** `sub` is `s` with some elements dropped, the rest in their original order. */
  predicate IsSubsequence<T(==)>(sub: seq<T>, s: seq<T>)
    decreases |s|
  {
    if s == [] then sub == []
    else (sub != [] && sub[0] == s[0] && IsSubsequence(sub[1..], s[1..])) || IsSubsequence(sub, s[1..])
  }
}
