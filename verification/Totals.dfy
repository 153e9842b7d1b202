/** Sums over lists, independent of the order of their members, selections from lists, and dictionaries. */
module Totals {
  import opened Common

  function SumBy<T>(f: T -> int, s: seq<T>): int {
    if s == [] then 0 else SumBy(f, s[..|s| - 1]) + f(s[|s| - 1])
  }

  lemma SumBySnoc<T>(f: T -> int, s: seq<T>, x: T)
    ensures SumBy(f, s + [x]) == SumBy(f, s) + f(x)
  {
    assert (s + [x])[..|s|] == s;
  }

  lemma {:induction false} SumByAppend<T>(f: T -> int, s: seq<T>, t: seq<T>)
    ensures SumBy(f, s + t) == SumBy(f, s) + SumBy(f, t)
    decreases |t|
  {
    if t == [] {
      assert s + t == s;
    } else {
      var front := t[..|t| - 1];
      assert s + t == (s + front) + [t[|t| - 1]];
      SumBySnoc(f, s + front, t[|t| - 1]);
      SumByAppend(f, s, front);
    }
  }

  /** Any member can be counted last. */
  lemma MoveOut<T>(f: T -> int, a: seq<T>, x: T, b: seq<T>)
    ensures SumBy(f, a + [x] + b) == SumBy(f, a + b) + f(x)
  {
    SumByAppend(f, a, b);
    SumBySnoc(f, a, x);
    SumByAppend(f, a + [x], b);
  }

  lemma SplitAround<T>(s: seq<T>, i: nat)
    requires i < |s|
    ensures s == s[..i] + [s[i]] + s[i + 1..]
    ensures s[i] in multiset(s) && multiset(s[..i] + s[i + 1..]) == multiset(s) - multiset{s[i]}
  {
    var a, b := s[..i], s[i + 1..];
    assert s == a + [s[i]] + b;
    assert multiset(a + [s[i]] + b) == multiset(a + b) + multiset{s[i]};
  }

  function Drop<T>(s: seq<T>, i: nat): seq<T>
    requires i < |s|
  {
    s[..i] + s[i + 1..]
  }

  lemma TakeOut<T>(f: T -> int, s: seq<T>, i: nat)
    requires i < |s|
    ensures SumBy(f, s) == SumBy(f, Drop(s, i)) + f(s[i])
    ensures s[i] in multiset(s) && multiset(Drop(s, i)) == multiset(s) - multiset{s[i]}
  {
    SplitAround(s, i);
    MoveOut(f, s[..i], s[i], s[i + 1..]);
  }

  lemma {:induction false} SumIgnoresOrder<T>(f: T -> int, s: seq<T>, t: seq<T>)
    requires multiset(s) == multiset(t)
    ensures SumBy(f, s) == SumBy(f, t)
    decreases |s|
  {
    if s == [] {
      assert |multiset(t)| == 0;
    } else {
      TakeOut(f, s, 0);
      var i :| 0 <= i < |t| && t[i] == s[0];
      TakeOut(f, t, i);
      SumIgnoresOrder(f, Drop(s, 0), Drop(t, i));
    }
  }

  lemma TwoMembers<T>(s: seq<T>, i: nat, j: nat)
    requires i < j < |s|
    ensures multiset{s[i], s[j]} <= multiset(s)
  {
    SplitAround(s, j);
    var rest := s[..j] + s[j + 1..];
    assert rest[i] == s[i];
    assert s[i] in multiset(rest);
    assert multiset(s) == multiset(rest) + multiset{s[j]};
  }

  lemma FindTwo<T>(s: seq<T>, x: T, y: T) returns (i: nat, j: nat)
    requires multiset{x, y} <= multiset(s)
    ensures i < |s| && j < |s| && i != j && s[i] == x && s[j] == y
  {
    assert multiset(s)[x] >= multiset{x, y}[x] && multiset(s)[y] >= multiset{x, y}[y];
    assert x in multiset(s);
    i :| 0 <= i < |s| && s[i] == x;
    SplitAround(s, i);
    var rest := s[..i] + s[i + 1..];
    assert y in multiset(rest);
    var k :| 0 <= k < |rest| && rest[k] == y;
    j := if k < i then k else k + 1;
  }

  function Where<T>(keep: T -> bool, s: seq<T>): seq<T> {
    if s == [] then []
    else Where(keep, s[..|s| - 1]) + if keep(s[|s| - 1]) then [s[|s| - 1]] else []
  }

  lemma {:induction false} WhereMembers<T(!new)>(keep: T -> bool, s: seq<T>)
    ensures forall x :: x in Where(keep, s) <==> x in s && keep(x)
  {
    if s != [] {
      var front, last := s[..|s| - 1], s[|s| - 1];
      WhereMembers(keep, front);
      assert forall x :: x in s <==> x in front || x == last;
    }
  }

  /** A dictionary filled in list order: a later entry with the same key replaces an earlier one. */
  function IndexBy<T, V>(key: T -> int, entry: T -> Option<V>, s: seq<T>): map<int, V> {
    if s == [] then map[]
    else
      var before, last := IndexBy(key, entry, s[..|s| - 1]), s[|s| - 1];
      if entry(last).Some? then before[key(last) := entry(last).value] else before
  }

  /** Members with the same key have the same entry. */
  ghost predicate Functional<T(!new), V>(key: T -> int, entry: T -> Option<V>, s: seq<T>) {
    forall x, y :: x in s && y in s && entry(x).Some? && entry(y).Some? && key(x) == key(y) ==> entry(x) == entry(y)
  }

  lemma {:induction false} IndexMembers<T(!new), V(!new)>(key: T -> int, entry: T -> Option<V>, s: seq<T>, k: int)
    requires Functional(key, entry, s)
    ensures k in IndexBy(key, entry, s) <==> exists x :: x in s && entry(x).Some? && key(x) == k
    ensures forall x :: x in s && entry(x).Some? && key(x) == k ==>
              k in IndexBy(key, entry, s) && IndexBy(key, entry, s)[k] == entry(x).value
  {
    if s != [] {
      var front, last := s[..|s| - 1], s[|s| - 1];
      assert forall x :: x in s <==> x in front || x == last;
      IndexMembers(key, entry, front, k);
    }
  }

  /** The order of the list does not matter when no two members compete for a key. */
  lemma IndexIgnoresOrder<T(!new), V(!new)>(key: T -> int, entry: T -> Option<V>, s: seq<T>, t: seq<T>)
    requires Functional(key, entry, s) && forall x :: x in s <==> x in t
    ensures IndexBy(key, entry, s) == IndexBy(key, entry, t)
  {
    forall k
      ensures k in IndexBy(key, entry, s) <==> k in IndexBy(key, entry, t)
      ensures k in IndexBy(key, entry, s) ==> IndexBy(key, entry, s)[k] == IndexBy(key, entry, t)[k]
    {
      IndexMembers(key, entry, s, k);
      IndexMembers(key, entry, t, k);
    }
  }
}
