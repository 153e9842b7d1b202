/** The batch generator shared by the ingest, parse and normalize runners (`_chunked`). */
module Batching {
  import opened Common

  function Flatten<T>(batches: seq<seq<T>>): seq<T> {
    if batches == [] then []
    else Flatten(batches[..|batches| - 1]) + batches[|batches| - 1]
  }

  lemma FrontAndLast<T>(s: seq<T>)
    requires s != []
    ensures s == s[..|s| - 1] + [s[|s| - 1]]
  {
  }

  lemma TakeSnoc<T>(s: seq<T>, i: nat)
    requires i < |s|
    ensures s[..i + 1] == s[..i] + [s[i]]
  {
  }

  lemma TakeFront<T>(s: seq<T>, i: nat)
    requires i < |s|
    ensures s[..i + 1][..i] == s[..i] && s[..i + 1][i] == s[i]
  {
  }

  lemma FlattenSnoc<T>(batches: seq<seq<T>>, batch: seq<T>)
    ensures Flatten(batches + [batch]) == Flatten(batches) + batch
  {
    assert (batches + [batch])[..|batches|] == batches;
  }

  lemma {:induction false} FlattenAppend<T>(left: seq<seq<T>>, right: seq<seq<T>>)
    ensures Flatten(left + right) == Flatten(left) + Flatten(right)
    decreases |right|
  {
    if right == [] {
      assert left + right == left;
    } else {
      var front, last := right[..|right| - 1], right[|right| - 1];
      FlattenAppend(left, front);
      assert (left + right)[..|left + right| - 1] == left + front;
    }
  }

  lemma FlattenStep<T>(batches: seq<seq<T>>, b: nat)
    requires b < |batches|
    ensures Flatten(batches[..b + 1]) == Flatten(batches[..b]) + batches[b]
  {
    assert batches[..b + 1][..b] == batches[..b];
  }

  lemma FlattenSplit<T>(batches: seq<seq<T>>, b: nat)
    requires b <= |batches|
    ensures Flatten(batches) == Flatten(batches[..b]) + Flatten(batches[b..])
  {
    FlattenAppend(batches[..b], batches[b..]);
    assert batches[..b] + batches[b..] == batches;
  }

  lemma {:induction false} MemberOfSome<T>(parts: seq<seq<T>>, s: T) returns (i: nat)
    requires s in Flatten(parts)
    ensures i < |parts| && s in parts[i]
    decreases |parts|
  {
    var last := |parts| - 1;
    if s in parts[last] {
      i := last;
    } else {
      i := MemberOfSome(parts[..last], s);
    }
  }

  lemma {:induction false} MemberOfFlatten<T>(groups: seq<seq<T>>, g: nat, t: T)
    requires g < |groups| && t in groups[g]
    ensures t in Flatten(groups)
    decreases |groups|
  {
    if g < |groups| - 1 {
      MemberOfFlatten(groups[..|groups| - 1], g, t);
    }
  }

  /**
   * Cut `items` into consecutive batches: nothing is lost or reordered, every batch but the last is full,
   * and the last is not empty.
   */
  method Chunked<T>(items: seq<T>, size: int) returns (r: Result<seq<seq<T>>>)
    ensures r.Err? <==> size <= 0
    ensures r.Ok? ==> Flatten(r.value) == items
    ensures r.Ok? ==> forall k :: 0 <= k < |r.value| - 1 ==> |r.value[k]| == size
    ensures r.Ok? && r.value != [] ==> 0 < |r.value[|r.value| - 1]| <= size
  {
    if size <= 0 { return Err("Chunk size must be positive"); }
    var batches: seq<seq<T>> := [];
    var batch: seq<T> := [];
    for i := 0 to |items|
      invariant Flatten(batches) + batch == items[..i]
      invariant |batch| < size
      invariant forall k :: 0 <= k < |batches| ==> |batches[k]| == size
    {
      batch := batch + [items[i]];
      assert items[..i + 1] == Flatten(batches) + batch;
      if |batch| >= size {
        FlattenSnoc(batches, batch);
        batches := batches + [batch];
        batch := [];
      }
    }
    assert items[..|items|] == items;
    if batch != [] {
      FlattenSnoc(batches, batch);
      batches := batches + [batch];
    }
    return Ok(batches);
  }
}
