/** Shapes every module shares: optional fields, and sequences without repeats. */
module Prelude {

  /** A document field that may be absent, or a call that may give nothing. */
  datatype Option<+T> = None | Some(value: T)

  function Min(a: int, b: int): int { if a <= b then a else b }

  function Max(a: int, b: int): int { if a <= b then b else a }

  ghost predicate Distinct<T>(xs: seq<T>) {
    forall i, j :: 0 <= i < j < |xs| ==> xs[i] != xs[j]
  }

  ghost function SetOf<T>(xs: seq<T>): set<T> { set x | x in xs }

  lemma {:induction false} DistinctCount<T>(xs: seq<T>)
    requires Distinct(xs)
    ensures |SetOf(xs)| == |xs|
  {
    if xs != [] {
      var front, last := xs[..|xs| - 1], xs[|xs| - 1];
      DistinctCount(front);
      assert xs == front + [last];
      assert SetOf(xs) == SetOf(front) + {last} && last !in front;
    }
  }
}
