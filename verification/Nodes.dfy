/** Lists of node addresses: which are unused, and when they are distinct. */
module Nodes {
  import opened Prelude

  function Unused(nodes: seq<string>, used: seq<string>): seq<string> {
    if nodes == [] then []
    else
      var last := nodes[|nodes| - 1];
      Unused(nodes[..|nodes| - 1], used) + (if last in used then [] else [last])
  }

  lemma {:induction false} UnusedIff(nodes: seq<string>, used: seq<string>, node: string)
    ensures node in Unused(nodes, used) <==> node in nodes && node !in used
  {
    if nodes != [] {
      var front, last := nodes[..|nodes| - 1], nodes[|nodes| - 1];
      UnusedIff(front, used, node);
      assert nodes == front + [last];
    }
  }

  lemma {:induction false} UnusedDistinct(nodes: seq<string>, used: seq<string>)
    requires Distinct(nodes)
    ensures Distinct(Unused(nodes, used))
  {
    if nodes != [] {
      var front, last := nodes[..|nodes| - 1], nodes[|nodes| - 1];
      UnusedDistinct(front, used);
      UnusedIff(front, used, last);
      assert last !in front;
    }
  }

  /** What is unused and what is used make up the fill. */
  lemma UnusedCount(nodes: seq<string>, used: seq<string>)
    requires Distinct(nodes) && Distinct(used) && forall node :: node in used ==> node in nodes
    ensures |Unused(nodes, used)| + |used| == |nodes|
  {
    var unused := Unused(nodes, used);
    forall node: string ensures node in unused <==> node in nodes && node !in used { UnusedIff(nodes, used, node); }
    UnusedDistinct(nodes, used);
    DistinctCount(nodes);
    DistinctCount(used);
    DistinctCount(unused);
    assert SetOf(nodes) == SetOf(unused) + SetOf(used) && SetOf(unused) !! SetOf(used);
  }

  lemma DistinctJoin(xs: seq<string>, ys: seq<string>)
    requires Distinct(xs) && Distinct(ys) && forall y :: y in ys ==> y !in xs
    ensures Distinct(xs + ys)
  {
    forall i, j | 0 <= i < j < |xs + ys| ensures (xs + ys)[i] != (xs + ys)[j] {
      if i < |xs| <= j { assert ys[j - |xs|] in ys; }
    }
  }

  lemma DistinctPrefix(xs: seq<string>, ys: seq<string>)
    requires Distinct(xs + ys)
    ensures Distinct(xs)
  {
    assert forall i :: 0 <= i < |xs| ==> xs[i] == (xs + ys)[i];
  }
}
