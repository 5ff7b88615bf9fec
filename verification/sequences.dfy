/**
 * Facts about sequence concatenation and slicing that the proofs use as
 * single steps.
 */
module Sequences {
  lemma AppendAssoc<T>(a: seq<T>, b: seq<T>, c: seq<T>)
    ensures a + (b + c) == a + b + c
  {
  }

  /** Removing the first element by splicing around it. */
  lemma SpliceFirst<T>(s: seq<T>)
    requires s != []
    ensures s[..0] + s[1..] == s[1..]
  {
  }
}
