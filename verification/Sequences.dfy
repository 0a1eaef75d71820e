/** Facts about concatenation that several modules use. */
module Sequences {
  lemma Regroup<T>(a: seq<T>, b: seq<T>, c: seq<T>, d: seq<T>)
    ensures a + (b + c) + d == a + (b + (c + d))
  {
  }

  lemma CutMiddle<T>(a: seq<T>, b: seq<T>, c: seq<T>)
    ensures var s := a + (b + c); s[..|a|] == a && s[|a| + |b|..] == c
  {
  }
}
