/** The batching of lib/concurrency.js. */
module Concurrency {
  import opened Basics

  function Flatten<T>(batches: seq<seq<T>>): seq<T> {
    if batches == [] then [] else Flatten(batches[..|batches| - 1]) + batches[|batches| - 1]
  }

  /** The items are handled in batches, one after another: each settles its items
      at their own index, no batch is larger than the limit, and only the last
      may be smaller. */
  method MapWithConcurrency<T, R>(items: seq<T>, fn: (T, nat) -> R, limit: int)
    returns (results: seq<R>, ghost batches: seq<seq<T>>)
    ensures |results| == |items| && forall i | 0 <= i < |items| :: results[i] == fn(items[i], i)
    ensures Flatten(batches) == items
    ensures forall b | 0 <= b < |batches| :: 0 < |batches[b]| <= Max(1, limit)
    ensures forall b | 0 <= b < |batches| - 1 :: |batches[b]| == Max(1, limit)
  {
    results, batches := [], [];
    var concurrency: nat := Max(1, limit);
    var index: nat := 0;
    while index < |items|
      invariant Flatten(batches) == items[..Min(index, |items|)]
      invariant |results| == Min(index, |items|)
      invariant forall i | 0 <= i < |results| :: results[i] == fn(items[i], i)
      invariant forall b | 0 <= b < |batches| :: 0 < |batches[b]| <= concurrency
      invariant index <= |items| ==> forall b | 0 <= b < |batches| :: |batches[b]| == concurrency
      invariant forall b | 0 <= b < |batches| - 1 :: |batches[b]| == concurrency
      decreases |items| - index
    {
      var batch := items[index..Min(index + concurrency, |items|)];
      assert (batches + [batch])[..|batches|] == batches;
      assert items[..index] + batch == items[..Min(index + concurrency, |items|)];
      batches := batches + [batch];
      results := results + seq(|batch|, i requires 0 <= i < |batch| => fn(batch[i], index + i));
      index := index + concurrency;
    }
    assert items[..|items|] == items;
  }
}
