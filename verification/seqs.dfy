/** The two iterator pipelines the mappings use, as functions on sequences. */
module Seqs {
  import opened Wrappers

  /** `into_iter().map(f).collect()`: one output per input, same order. */
  function Map<A, B>(f: A -> B, xs: seq<A>): (ys: seq<B>)
    ensures |ys| == |xs|
    ensures forall i :: 0 <= i < |xs| ==> ys[i] == f(xs[i])
  {
    if |xs| == 0 then [] else [f(xs[0])] + Map(f, xs[1..])
  }

  /** `into_iter().filter_map(f).collect()`: the present results of f, in input order. */
  function FilterMap<A, B>(f: A -> Option<B>, xs: seq<A>): (ys: seq<B>)
    ensures |ys| <= |xs|
    ensures forall y :: y in ys ==> exists x :: x in xs && f(x) == Some(y)
  {
    if |xs| == 0 then []
    else match f(xs[0])
      case Some(y) => [y] + FilterMap(f, xs[1..])
      case None => FilterMap(f, xs[1..])
  }

  /** The ascending positions of xs at which f yields a value: the reference
      definition FilterMap is compared against. */
  ghost function Kept<A, B>(f: A -> Option<B>, xs: seq<A>): (ks: seq<nat>)
    ensures forall k :: 0 <= k < |ks| ==> ks[k] < |xs| && f(xs[ks[k]]).Some?
    ensures forall j, k :: 0 <= j < k < |ks| ==> ks[j] < ks[k]
  {
    if |xs| == 0 then []
    else
      var ks := Kept(f, xs[..|xs| - 1]);
      if f(xs[|xs| - 1]).Some? then ks + [|xs| - 1] else ks
  }

  /** Kept misses no position at which f yields a value. */
  lemma {:induction false} KeptComplete<A, B>(f: A -> Option<B>, xs: seq<A>)
    ensures forall i :: 0 <= i < |xs| && f(xs[i]).Some? ==> i in Kept(f, xs)
  {
    if |xs| > 0 {
      var init := xs[..|xs| - 1];
      KeptComplete(f, init);
      assert forall i :: 0 <= i < |init| ==> init[i] == xs[i];
    }
  }

  /** Filtering a concatenation filters each part and keeps them in order. */
  lemma {:induction false} FilterMapAppend<A, B>(f: A -> Option<B>, xs: seq<A>, ys: seq<A>)
    ensures FilterMap(f, xs + ys) == FilterMap(f, xs) + FilterMap(f, ys)
  {
    if |xs| == 0 {
      assert xs + ys == ys;
    } else {
      assert (xs + ys)[0] == xs[0];
      assert (xs + ys)[1..] == xs[1..] + ys;
      FilterMapAppend(f, xs[1..], ys);
    }
  }

  /** Output k of FilterMap is f's value at the k-th kept position: nothing is
      dropped that f keeps, nothing is invented, and the order is the input's. */
  lemma {:induction false} FilterMapSelectsKept<A, B>(f: A -> Option<B>, xs: seq<A>)
    ensures |FilterMap(f, xs)| == |Kept(f, xs)|
    ensures forall k :: 0 <= k < |Kept(f, xs)| ==> f(xs[Kept(f, xs)[k]]) == Some(FilterMap(f, xs)[k])
  {
    if |xs| > 0 {
      var init, last := xs[..|xs| - 1], xs[|xs| - 1];
      assert xs == init + [last];
      FilterMapAppend(f, init, [last]);
      FilterMapSelectsKept(f, init);
      assert [last][1..] == [];
      assert FilterMap(f, [last]) == (if f(last).Some? then [f(last).value] else []);
    }
  }

  /** When f keeps every element, FilterMap loses nothing. */
  lemma {:induction false} FilterMapAllPresent<A, B>(f: A -> Option<B>, xs: seq<A>)
    requires forall i :: 0 <= i < |xs| ==> f(xs[i]).Some?
    ensures |FilterMap(f, xs)| == |xs|
    ensures forall i :: 0 <= i < |xs| ==> f(xs[i]) == Some(FilterMap(f, xs)[i])
  {
    if |xs| > 0 {
      FilterMapAllPresent(f, xs[1..]);
    }
  }

  /** When f keeps no element, FilterMap is empty. */
  lemma {:induction false} FilterMapNonePresent<A, B>(f: A -> Option<B>, xs: seq<A>)
    requires forall i :: 0 <= i < |xs| ==> f(xs[i]).None?
    ensures FilterMap(f, xs) == []
  {
    if |xs| > 0 {
      FilterMapNonePresent(f, xs[1..]);
    }
  }
}
