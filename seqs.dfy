/** Sequence combinators shared by the renderers: a map and a flat map, with how they distribute over `+`. */
module Seqs {
  import opened Wrappers

  /** `f` applied to each element, in order. */
  function MapSeq<A, B>(f: A -> B, xs: seq<A>): (r: seq<B>)
    ensures |r| == |xs|
    ensures forall i :: 0 <= i < |xs| ==> r[i] == f(xs[i])
  {
    seq(|xs|, i requires 0 <= i < |xs| => f(xs[i]))
  }

  lemma MapSeqAppend<A, B>(f: A -> B, xs: seq<A>, ys: seq<A>)
    ensures MapSeq(f, xs + ys) == MapSeq(f, xs) + MapSeq(f, ys)
  {
    var p, q := MapSeq(f, xs + ys), MapSeq(f, xs) + MapSeq(f, ys);
    forall i | 0 <= i < |xs + ys|
      ensures p[i] == q[i]
    {
      if i < |xs| {
        assert (xs + ys)[i] == xs[i];
      } else {
        assert (xs + ys)[i] == ys[i - |xs|];
      }
    }
  }

  /** The lists `f` gives for the elements, one after the other. */
  function FlatMap<A, B>(f: A -> seq<B>, xs: seq<A>): seq<B> {
    if xs == [] then [] else FlatMap(f, xs[..|xs| - 1]) + f(xs[|xs| - 1])
  }

  lemma {:induction false} FlatMapAppend<A, B>(f: A -> seq<B>, xs: seq<A>, ys: seq<A>)
    ensures FlatMap(f, xs + ys) == FlatMap(f, xs) + FlatMap(f, ys)
    decreases |ys|
  {
    if ys == [] {
      assert xs + ys == xs;
    } else {
      var init, last := ys[..|ys| - 1], ys[|ys| - 1];
      assert (xs + ys)[..|xs + ys| - 1] == xs + init;
      assert (xs + ys)[|xs + ys| - 1] == last;
      FlatMapAppend(f, xs, init);
      var x, y, z := FlatMap(f, xs), FlatMap(f, init), f(last);
      assert (x + y) + z == x + (y + z);
    }
  }

  lemma Assoc<T>(x: seq<T>, y: seq<T>, z: seq<T>)
    ensures x + (y + z) == (x + y) + z
  {
  }

  lemma SnocSplit<T>(s: seq<T>)
    requires s != []
    ensures s == s[..|s| - 1] + [s[|s| - 1]]
  {
  }

  lemma SnocSnocAt<T>(s: seq<T>, x: T, y: T)
    ensures |s + [x] + [y]| == |s| + 2 && (s + [x] + [y])[|s|] == x
  {
  }

  /** `f` applied to each element in order, the first failure stopping the walk. */
  function Traverse<A, B, E>(f: A -> Result<B, E>, xs: seq<A>): Result<seq<B>, E> {
    if xs == [] then Ok([])
    else
      var init :- Traverse(f, xs[..|xs| - 1]);
      var last :- f(xs[|xs| - 1]);
      Ok(init + [last])
  }

  /** A walk that succeeds has one result per element, each the value `f` gives it. */
  lemma {:induction false} TraverseInOrder<A, B, E>(f: A -> Result<B, E>, xs: seq<A>)
    requires Traverse(f, xs).Ok?
    ensures |Traverse(f, xs).value| == |xs|
    ensures forall i :: 0 <= i < |xs| ==> f(xs[i]) == Ok(Traverse(f, xs).value[i])
  {
    if xs != [] {
      var init := xs[..|xs| - 1];
      TraverseInOrder(f, init);
      assert forall i :: 0 <= i < |init| ==> init[i] == xs[i];
    }
  }

  lemma LastOfSnoc<T>(s: seq<T>, x: T)
    ensures |s + [x]| == |s| + 1 && (s + [x])[|s|] == x
  {
  }

  /** A prefix of a sequence is a prefix of the sequence extended by a gap and one element. */
  lemma PrefixSnoc<T>(a: seq<T>, b: seq<T>, g: seq<T>, x: T, r: seq<T>)
    requires |a| <= |b| && b[..|a|] == a && r == b + g + [x]
    ensures |a| <= |r| && r[..|a|] == a
  {
    assert r[..|a|] == b[..|a|];
  }
}
