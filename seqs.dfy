/** Element-wise mapping over sequences, the shape of every copy loop in the translation. */
module Seqs {

  /** Applies `f` to every element of `s`, in order; built by appending at the end,
      as a loop that walks `s` front to back and pushes each image. */
  function MapSeq<A, B>(f: A -> B, s: seq<A>): (r: seq<B>)
    ensures |r| == |s|
    ensures forall i :: 0 <= i < |s| ==> r[i] == f(s[i])
    decreases |s|
  {
    if s == [] then [] else MapSeq(f, s[..|s| - 1]) + [f(s[|s| - 1])]
  }

  /** Mapping commutes with appending one element at the end. */
  lemma MapSeqSnoc<A, B>(f: A -> B, s: seq<A>, x: A)
    ensures MapSeq(f, s + [x]) == MapSeq(f, s) + [f(x)]
  {
    assert (s + [x])[..|s|] == s;
  }

  /** Mapping with `g` after `f` is mapping with the composition; if `g` undoes `f`
      on every element, mapping back restores the sequence. */
  lemma MapSeqCompose<A, B, C>(f: A -> B, g: B -> C, h: A -> C, s: seq<A>)
    requires forall x :: h(x) == g(f(x))
    ensures MapSeq(g, MapSeq(f, s)) == MapSeq(h, s)
  {
  }
}
