/** Stable sorting by a key order (Python's `sorted`), and the code-point order of strings. */
module Sorting {

  function Insert<T>(le: (T, T) -> bool, x: T, s: seq<T>): (r: seq<T>)
    ensures multiset(r) == multiset{x} + multiset(s)
  {
    if s == [] || le(x, s[0]) then [x] + s
    else
      assert s == [s[0]] + s[1..];
      [s[0]] + Insert(le, x, s[1..])
  }

  function SortBy<T>(le: (T, T) -> bool, s: seq<T>): (r: seq<T>)
    ensures multiset(r) == multiset(s)
  {
    if s == [] then []
    else
      assert s == [s[0]] + s[1..];
      Insert(le, s[0], SortBy(le, s[1..]))
  }

  ghost predicate Sorted<T>(le: (T, T) -> bool, s: seq<T>) {
    forall i, j :: 0 <= i < j < |s| ==> le(s[i], s[j])
  }

  ghost predicate TotalPreorder<T(!new)>(le: (T, T) -> bool) {
    && (forall x, y :: le(x, y) || le(y, x))
    && (forall x, y, z :: le(x, y) && le(y, z) ==> le(x, z))
  }

  /** No two elements of `m` tie in the order. */
  ghost predicate Strict<T>(le: (T, T) -> bool, m: multiset<T>) {
    forall x, y :: x in m && y in m && le(x, y) && le(y, x) ==> x == y
  }

  lemma {:induction false} InsertKeepsSorted<T(!new)>(le: (T, T) -> bool, x: T, s: seq<T>)
    requires TotalPreorder(le) && Sorted(le, s)
    ensures Sorted(le, Insert(le, x, s))
  {
    if s != [] && !le(x, s[0]) {
      InsertKeepsSorted(le, x, s[1..]);
      var rest := Insert(le, x, s[1..]);
      forall j | 0 <= j < |rest|
        ensures le(s[0], rest[j])
      {
        assert rest[j] in multiset(rest);
        assert rest[j] == x || rest[j] in s[1..];
      }
    } else if s != [] {
      forall j | 0 <= j < |s|
        ensures le(x, s[j])
      {
        assert j > 0 ==> le(s[0], s[j]);
      }
    }
  }

  lemma {:induction false} SortSorts<T(!new)>(le: (T, T) -> bool, s: seq<T>)
    requires TotalPreorder(le)
    ensures Sorted(le, SortBy(le, s))
  {
    if s != [] {
      SortSorts(le, s[1..]);
      InsertKeepsSorted(le, s[0], SortBy(le, s[1..]));
    }
  }

  /** Sorting a sorted list changes nothing. */
  lemma {:induction false} SortOfSorted<T>(le: (T, T) -> bool, s: seq<T>)
    requires Sorted(le, s)
    ensures SortBy(le, s) == s
  {
    if s != [] {
      SortOfSorted(le, s[1..]);
    }
  }

  lemma HeadIsLeast<T>(le: (T, T) -> bool, s: seq<T>, x: T)
    requires Sorted(le, s) && x in multiset(s)
    ensures x == s[0] || le(s[0], x)
  {
    var i :| 0 <= i < |s| && s[i] == x;
  }

  lemma TailMultiset<T>(s: seq<T>)
    requires s != []
    ensures s[0] in multiset(s) && multiset(s[1..]) == multiset(s) - multiset{s[0]}
  {
    assert s == [s[0]] + s[1..];
  }

  /** A multiset without ties has one sorted arrangement. */
  lemma {:induction false} SortedIsUnique<T>(le: (T, T) -> bool, s: seq<T>, t: seq<T>)
    requires Sorted(le, s) && Sorted(le, t) && multiset(s) == multiset(t) && Strict(le, multiset(s))
    ensures s == t
  {
    assert |s| == |multiset(s)| == |multiset(t)| == |t|;
    if s != [] {
      TailMultiset(s);
      TailMultiset(t);
      HeadIsLeast(le, s, t[0]);
      HeadIsLeast(le, t, s[0]);
      SortedIsUnique(le, s[1..], t[1..]);
      HeadAndTail(s);
      HeadAndTail(t);
    }
  }

  lemma HeadAndTail<T>(s: seq<T>)
    requires s != []
    ensures s == [s[0]] + s[1..]
  {
  }

  /** The order in which the elements arrive does not matter. */
  lemma SortIgnoresOrder<T(!new)>(le: (T, T) -> bool, s: seq<T>, t: seq<T>)
    requires TotalPreorder(le) && multiset(s) == multiset(t) && Strict(le, multiset(s))
    ensures SortBy(le, s) == SortBy(le, t)
  {
    SortSorts(le, s);
    SortSorts(le, t);
    SortedIsUnique(le, SortBy(le, s), SortBy(le, t));
  }

  /** Two lists, the first below the second, may be sorted apart. */
  lemma SortOfConcat<T(!new)>(le: (T, T) -> bool, s: seq<T>, t: seq<T>)
    requires TotalPreorder(le) && Strict(le, multiset(s + t))
    requires forall x, y :: x in s && y in t ==> le(x, y)
    ensures SortBy(le, s + t) == SortBy(le, s) + SortBy(le, t)
  {
    SortSorts(le, s);
    SortSorts(le, t);
    SortSorts(le, s + t);
    var a, b := SortBy(le, s), SortBy(le, t);
    forall x, y | x in a && y in b
      ensures le(x, y)
    {
      assert x in multiset(a) && y in multiset(b);
    }
    SortedConcat(le, a, b);
    assert multiset(a + b) == multiset(s + t);
    SortedIsUnique(le, SortBy(le, s + t), a + b);
  }

  lemma SortedConcat<T>(le: (T, T) -> bool, a: seq<T>, b: seq<T>)
    requires Sorted(le, a) && Sorted(le, b)
    requires forall x, y :: x in a && y in b ==> le(x, y)
    ensures Sorted(le, a + b)
  {
  }

  // ---- Sorted sets of integers -----------------------------------------------------

  lemma {:induction false} LeastExists(s: set<int>)
    requires exists x :: x in s
    ensures exists m :: m in s && forall x :: x in s ==> m <= x
    decreases |s|
  {
    var x :| x in s;
    var rest := s - {x};
    if y :| y in rest {
      LeastExists(rest);
      var m :| m in rest && forall z :: z in rest ==> m <= z;
      var least := if x < m then x else m;
      assert forall z :: z in s ==> z == x || z in rest;
      assert least in s && forall z :: z in s ==> least <= z;
    } else {
      assert forall z :: z in s ==> z == x || z in rest;
    }
  }

  ghost predicate Increasing(s: seq<int>) {
    forall i, j :: 0 <= i < j < |s| ==> s[i] < s[j]
  }

  /** `sorted(set)` */
  function SortedSet(s: set<int>): (r: seq<int>)
    ensures Increasing(r) && forall x :: x in r <==> x in s
    decreases |s|
  {
    if forall x :: x in s ==> false then []
    else
      LeastExists(s);
      var m :| m in s && forall x :: x in s ==> m <= x;
      var rest := SortedSet(s - {m});
      LeastFirst(m, rest);
      [m] + rest
  }

  lemma LeastFirst(m: int, rest: seq<int>)
    requires Increasing(rest) && forall x :: x in rest ==> m < x
    ensures Increasing([m] + rest) && forall x :: x in [m] + rest <==> x == m || x in rest
  {
    assert forall k :: 0 <= k < |rest| ==> rest[k] in rest;
  }

  // ---- Strings in code-point order -------------------------------------------------

  predicate StringLe(a: string, b: string) {
    a == "" || (b != "" && (a[0] < b[0] || (a[0] == b[0] && StringLe(a[1..], b[1..]))))
  }

  lemma {:induction false} StringLeTotal(a: string, b: string)
    ensures StringLe(a, b) || StringLe(b, a)
    ensures StringLe(a, b) && StringLe(b, a) ==> a == b
  {
    if a != "" && b != "" {
      StringLeTotal(a[1..], b[1..]);
      assert a == [a[0]] + a[1..] && b == [b[0]] + b[1..];
    }
  }

  lemma {:induction false} StringLeTransitive(a: string, b: string, c: string)
    requires StringLe(a, b) && StringLe(b, c)
    ensures StringLe(a, c)
  {
    if a != "" && a[0] == b[0] == c[0] {
      StringLeTransitive(a[1..], b[1..], c[1..]);
    }
  }

  lemma StringOrder()
    ensures TotalPreorder(StringLe)
  {
    forall x, y
      ensures StringLe(x, y) || StringLe(y, x)
    {
      StringLeTotal(x, y);
    }
    forall x, y, z | StringLe(x, y) && StringLe(y, z)
      ensures StringLe(x, z)
    {
      StringLeTransitive(x, y, z);
    }
  }

  // ---- Sorted sets ------------------------------------------------------------------

  /** Every member of `s` once. */
  ghost predicate Lists<T(!new)>(r: seq<T>, s: set<T>) {
    && (forall x :: x in r <==> x in s)
    && (forall i, j :: 0 <= i < j < |r| ==> r[i] != r[j])
  }

  lemma OnceEach<T(!new)>(r: seq<T>, s: set<T>)
    requires multiset(r) == multiset(s)
    ensures Lists(r, s)
  {
    assert forall x :: x in multiset(r) <==> x in r;
    forall i, j | 0 <= i < j < |r|
      ensures r[i] != r[j]
    {
      assert r == r[..j] + r[j..];
      assert r[i] in multiset(r[..j]) && r[j] in multiset(r[j..]);
      assert multiset(r)[r[j]] <= 1;
    }
  }

  /** `sorted(set)` */
  method SortedList<T(==, !new)>(le: (T, T) -> bool, s: set<T>) returns (r: seq<T>)
    requires TotalPreorder(le)
    ensures Sorted(le, r) && Lists(r, s)
  {
    r := [];
    var rest := s;
    while rest != {}
      invariant rest <= s && Sorted(le, r) && multiset(r) == multiset(s - rest)
      decreases |rest|
    {
      var x :| x in rest;
      InsertKeepsSorted(le, x, r);
      r := Insert(le, x, r);
      assert s - (rest - {x}) == (s - rest) + {x};
      rest := rest - {x};
    }
    assert s - rest == s;
    OnceEach(r, s);
  }

  ghost predicate StrictlyAscending(s: seq<string>) {
    forall i, j :: 0 <= i < j < |s| ==> StringLe(s[i], s[j]) && s[i] != s[j]
  }

  method SortedMembers(names: set<string>) returns (r: seq<string>)
    ensures StrictlyAscending(r) && forall c :: c in r <==> c in names
  {
    StringOrder();
    r := SortedList(StringLe, names);
  }
}
