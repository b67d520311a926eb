/** Keeping and transforming the elements of a sequence in one pass, the shape
    shared by the page filter of the source client and the match loop of the
    destination client. */
module Sequences {
  import opened Outcomes

  /** The images under `f` of the elements it keeps (those it maps to `Some`), in order. */
  function FilterMap<A, B>(xs: seq<A>, f: A -> Option<B>): (ys: seq<B>)
    ensures |ys| <= |xs|
  {
    if xs == [] then []
    else
      var init := FilterMap(xs[..|xs| - 1], f);
      match f(xs[|xs| - 1])
      case None => init
      case Some(y) => init + [y]
  }

  /** The indices of the elements of `xs` that `f` keeps, in increasing order. */
  function Kept<A, B>(xs: seq<A>, f: A -> Option<B>): seq<nat>
  {
    if xs == [] then []
    else
      var init := Kept(xs[..|xs| - 1], f);
      if f(xs[|xs| - 1]).Some? then init + [|xs| - 1] else init
  }

  /** A prefix one element longer is the shorter prefix followed by that element. */
  lemma PrefixSnoc<A>(xs: seq<A>, i: nat)
    requires i < |xs|
    ensures xs[..i + 1] == xs[..i] + [xs[i]]
  {
  }

  lemma FilterMapSnoc<A, B>(xs: seq<A>, x: A, f: A -> Option<B>)
    ensures FilterMap(xs + [x], f) == FilterMap(xs, f) + (if f(x).Some? then [f(x).value] else [])
  {
    assert (xs + [x])[..|xs|] == xs;
  }

  /** Filtering a concatenation is concatenating the filtered parts. */
  lemma {:induction false} FilterMapAppend<A, B>(xs: seq<A>, ys: seq<A>, f: A -> Option<B>)
    ensures FilterMap(xs + ys, f) == FilterMap(xs, f) + FilterMap(ys, f)
    decreases |ys|
  {
    if ys == [] {
      assert xs + ys == xs;
    } else {
      var init, last := ys[..|ys| - 1], ys[|ys| - 1];
      assert ys == init + [last];
      assert xs + ys == (xs + init) + [last];
      FilterMapAppend(xs, init, f);
      FilterMapSnoc(xs + init, last, f);
      FilterMapSnoc(init, last, f);
    }
  }

  /** FilterMap keeps exactly the elements `f` maps to `Some`, in their original
      order: its result is the image of a strictly increasing choice of positions,
      and those positions are all the kept ones. */
  lemma {:induction false} FilterMapPositions<A, B>(xs: seq<A>, f: A -> Option<B>)
    ensures var ys, ps := FilterMap(xs, f), Kept(xs, f);
      && |ps| == |ys|
      && (forall j :: 0 <= j < |ps| ==> ps[j] < |xs| && f(xs[ps[j]]) == Some(ys[j]))
      && (forall j, k :: 0 <= j < k < |ps| ==> ps[j] < ps[k])
      && (forall i :: 0 <= i < |xs| ==> (f(xs[i]).Some? <==> i in ps))
  {
    if xs != [] {
      var init := xs[..|xs| - 1];
      FilterMapPositions(init, f);
      assert xs == init + [xs[|xs| - 1]];
      forall i | 0 <= i < |init| ensures xs[i] == init[i] { }
    }
  }

  /** When every element is kept by exactly one of `f` and `g`, the two results
      together are as long as the input. */
  lemma {:induction false} FilterMapPartition<A, B, C>(xs: seq<A>, f: A -> Option<B>, g: A -> Option<C>)
    requires forall i :: 0 <= i < |xs| ==> f(xs[i]).Some? != g(xs[i]).Some?
    ensures |FilterMap(xs, f)| + |FilterMap(xs, g)| == |xs|
  {
    if xs != [] {
      var init := xs[..|xs| - 1];
      forall i | 0 <= i < |init| ensures f(init[i]).Some? != g(init[i]).Some? {
        assert init[i] == xs[i];
      }
      FilterMapPartition(init, f, g);
    }
  }
}
