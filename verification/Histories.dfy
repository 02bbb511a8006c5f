/** Histories of values and of the threads behind them. */
module Histories {
  /** The values at the places of one thread, in order. */
  function By<T>(values: seq<T>, threads: seq<nat>, u: nat): seq<T>
    requires |values| == |threads|
  {
    if values == [] then []
    else
      var n := |values| - 1;
      By(values[..n], threads[..n], u) + if threads[n] == u then [values[n]] else []
  }

  lemma ByPush<T>(values: seq<T>, threads: seq<nat>, v: T, t: nat, u: nat)
    requires |values| == |threads|
    ensures By(values + [v], threads + [t], u) == By(values, threads, u) + if t == u then [v] else []
  {
    assert (values + [v])[..|values|] == values && (threads + [t])[..|threads|] == threads;
  }

  lemma Regroup<T>(xs: seq<T>, ys: seq<T>, zs: seq<T>)
    ensures xs + (ys + zs) == xs + ys + zs
  {
  }

  lemma NothingAdded<T>(xs: seq<T>)
    ensures xs + [] == xs && [] + xs == xs
  {
  }
}
