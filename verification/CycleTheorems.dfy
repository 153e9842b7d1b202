/** What the operational cycles promise (WorkAI/assess/aggregation.py, WorkAI/assess/runner.py). */
module CycleTheorems {
  import opened Sorting
  import opened Batching
  import opened GreedyRuns
  import opened Totals
  import opened Aggregation
  import opened CycleKeys

  function Runs(lib: Lib, tasks: seq<Task>): (groups: seq<seq<Task>>)
    ensures NoneEmpty(groups)
  {
    var sorted := SortBy(TaskLe, tasks);
    CutHasNoEmptyRun(lib, sorted);
    Cut(Merges(lib), sorted)
  }

  /** A run of several tasks holds micro-tasks like its first one. */
  ghost predicate MembersMatch(lib: Lib, group: seq<Task>) {
    forall k :: 1 <= k < |group| ==> Accepts(lib, group[0], group[k])
  }

  /**
   * The cycles are the runs of the sorted tasks: every task is in exactly one run, each member of a run matches its
   * first task, and no run could have taken the task that starts the next one.
   */
  lemma CyclesAreForcedRuns(lib: Lib, tasks: seq<Task>)
    ensures var groups := Runs(lib, tasks);
            && Aggregate(lib, tasks) == CyclesOf(lib, groups)
            && multiset(Flatten(groups)) == multiset(tasks) && Sorted(TaskLe, Flatten(groups))
            && (forall g :: 0 <= g < |groups| ==> MembersMatch(lib, groups[g]))
            && (forall g, h :: 0 <= g < h < |groups| && h == g + 1 ==> !Accepts(lib, groups[g][0], groups[h][0]))
  {
    var groups := Runs(lib, tasks);
    TaskOrder();
    SortSorts(TaskLe, tasks);
    CutIsGreedy(Merges(lib), SortBy(TaskLe, tasks));
    forall g | 0 <= g < |groups|
      ensures MembersMatch(lib, groups[g])
    {
      RunMembersMatch(lib, groups[g]);
    }
    forall g, h | 0 <= g < h < |groups| && h == g + 1
      ensures !Accepts(lib, groups[g][0], groups[h][0])
    {
      assert !Merges(lib)(groups[g][0], groups[h][0]);
    }
  }

  lemma RunMembersMatch(lib: Lib, group: seq<Task>)
    requires IsRun(Merges(lib), group)
    ensures MembersMatch(lib, group)
  {
    forall k | 1 <= k < |group|
      ensures Accepts(lib, group[0], group[k])
    {
      assert Merges(lib)(group[0], group[k]);
    }
  }

  // ---- Conservation ---------------------------------------------------------------

  function CountOf(c: Cycle): int { c.count }

  function MinutesOf(c: Cycle): int { c.minutes }

  predicate AnyCycleWaits(cycles: seq<Cycle>) {
    exists c :: c in cycles && c.waiting
  }

  /** No task and no minute is lost or counted twice, and a waiting task shows in its cycle. */
  lemma CyclesConserve(lib: Lib, tasks: seq<Task>)
    ensures SumBy(CountOf, Aggregate(lib, tasks)) == |tasks|
    ensures SumBy(MinutesOf, Aggregate(lib, tasks)) == TotalMinutes(tasks)
    ensures AnyCycleWaits(Aggregate(lib, tasks)) <==> AnyWaiting(tasks)
  {
    var sorted, groups := SortBy(TaskLe, tasks), Runs(lib, tasks);
    CutIsGreedy(Merges(lib), sorted);
    GroupsConserve(lib, groups);
    SumIgnoresOrder(Minutes, sorted, tasks);
    assert |multiset(sorted)| == |sorted| && |multiset(tasks)| == |tasks|;
    assert forall t :: t in multiset(sorted) <==> t in sorted;
    assert forall t :: t in multiset(tasks) <==> t in tasks;
  }

  ghost predicate Conserves(cycles: seq<Cycle>, tasks: seq<Task>) {
    && SumBy(CountOf, cycles) == |tasks|
    && SumBy(MinutesOf, cycles) == TotalMinutes(tasks)
    && (AnyCycleWaits(cycles) <==> AnyWaiting(tasks))
  }

  lemma {:induction false} GroupsConserve(lib: Lib, groups: seq<seq<Task>>)
    requires NoneEmpty(groups)
    ensures Conserves(CyclesOf(lib, groups), Flatten(groups))
    decreases |groups|
  {
    if groups != [] {
      var front, last := groups[..|groups| - 1], groups[|groups| - 1];
      FrontAndLast(groups);
      GroupsConserve(lib, front);
      CyclesSnoc(lib, front, last);
      ConserveSnoc(lib, CyclesOf(lib, front), Flatten(front), last);
    }
  }

  lemma ConserveSnoc(lib: Lib, cycles: seq<Cycle>, tasks: seq<Task>, group: seq<Task>)
    requires Conserves(cycles, tasks) && group != []
    ensures Conserves(cycles + [CycleOf(lib, group)], tasks + group)
  {
    SumsSnoc(cycles, CycleOf(lib, group));
    TotalsAppend(tasks, group);
  }

  lemma TotalsAppend(s: seq<Task>, t: seq<Task>)
    ensures TotalMinutes(s + t) == TotalMinutes(s) + TotalMinutes(t)
    ensures AnyWaiting(s + t) <==> AnyWaiting(s) || AnyWaiting(t)
  {
    SumByAppend(Minutes, s, t);
    assert forall u :: u in s + t <==> u in s || u in t;
  }

  lemma SumsSnoc(cycles: seq<Cycle>, c: Cycle)
    ensures SumBy(CountOf, cycles + [c]) == SumBy(CountOf, cycles) + c.count
    ensures SumBy(MinutesOf, cycles + [c]) == SumBy(MinutesOf, cycles) + c.minutes
    ensures AnyCycleWaits(cycles + [c]) <==> AnyCycleWaits(cycles) || c.waiting
  {
    SumBySnoc(CountOf, cycles, c);
    SumBySnoc(MinutesOf, cycles, c);
    assert forall d :: d in cycles + [c] <==> d in cycles || d == c;
  }

  // ---- Independence of order and grouping --------------------------------------------

  /** With task ids as primary keys, the order of the input rows does not matter. */
  lemma OrderDoesNotMatter(lib: Lib, tasks: seq<Task>, again: seq<Task>)
    requires multiset(tasks) == multiset(again) && DistinctIds(multiset(tasks))
    ensures Aggregate(lib, tasks) == Aggregate(lib, again)
  {
    TaskOrder();
    DistinctIdsAreStrict(multiset(tasks));
    SortIgnoresOrder(TaskLe, tasks, again);
  }

  predicate DayBefore(s: Task, t: Task) {
    s.employee < t.employee || (s.employee == t.employee && s.date < t.date)
  }

  ghost predicate AllBefore(x: seq<Task>, y: seq<Task>) {
    forall s, t :: s in x && t in y ==> DayBefore(s, t)
  }

  /** The groups of `run_assess_aggregation`, in the order in which the query delivers them. */
  ghost predicate Ascending(parts: seq<seq<Task>>) {
    forall i, j :: 0 <= i < j < |parts| ==> AllBefore(parts[i], parts[j])
  }

  function AggregateEach(lib: Lib, parts: seq<seq<Task>>): seq<seq<Cycle>> {
    seq(|parts|, i requires 0 <= i < |parts| => Aggregate(lib, parts[i]))
  }

  /** Aggregating each employee and day apart gives the same cycles as aggregating everything at once. */
  lemma {:induction false} GroupsAggregateApart(lib: Lib, parts: seq<seq<Task>>)
    requires Ascending(parts) && DistinctIds(multiset(Flatten(parts)))
    ensures Aggregate(lib, Flatten(parts)) == Flatten(AggregateEach(lib, parts))
    decreases |parts|
  {
    if parts != [] {
      var front, last := parts[..|parts| - 1], parts[|parts| - 1];
      FewerIds(Flatten(front), last);
      FlattenIsBefore(parts);
      GroupsAggregateApart(lib, front);
      ApartStep(lib, front, last);
      FrontAndLast(parts);
    }
  }

  lemma ApartStep(lib: Lib, front: seq<seq<Task>>, last: seq<Task>)
    requires Aggregate(lib, Flatten(front)) == Flatten(AggregateEach(lib, front))
    requires AllBefore(Flatten(front), last) && DistinctIds(multiset(Flatten(front) + last))
    ensures Aggregate(lib, Flatten(front) + last) == Flatten(AggregateEach(lib, front + [last]))
  {
    ApartTwo(lib, Flatten(front), last);
    EachSnoc(lib, front, last);
  }

  lemma EachSnoc(lib: Lib, front: seq<seq<Task>>, last: seq<Task>)
    ensures Flatten(AggregateEach(lib, front + [last])) == Flatten(AggregateEach(lib, front)) + Aggregate(lib, last)
  {
    assert AggregateEach(lib, front + [last]) == AggregateEach(lib, front) + [Aggregate(lib, last)];
    FlattenSnoc(AggregateEach(lib, front), Aggregate(lib, last));
  }

  lemma FewerIds(x: seq<Task>, y: seq<Task>)
    requires DistinctIds(multiset(x + y))
    ensures DistinctIds(multiset(x))
  {
    assert multiset(x + y) == multiset(x) + multiset(y);
  }

  lemma FlattenIsBefore(parts: seq<seq<Task>>)
    requires parts != [] && Ascending(parts)
    ensures AllBefore(Flatten(parts[..|parts| - 1]), parts[|parts| - 1]) && Ascending(parts[..|parts| - 1])
  {
    var front, last := parts[..|parts| - 1], parts[|parts| - 1];
    forall s, t | s in Flatten(front) && t in last
      ensures DayBefore(s, t)
    {
      var i := MemberOfSome(front, s);
      assert AllBefore(parts[i], parts[|parts| - 1]);
    }
  }

  lemma ApartTwo(lib: Lib, x: seq<Task>, y: seq<Task>)
    requires AllBefore(x, y) && DistinctIds(multiset(x + y))
    ensures Aggregate(lib, x + y) == Aggregate(lib, x) + Aggregate(lib, y)
  {
    SortsApart(x, y);
    MembersStayBefore(x, y, SortBy(TaskLe, x), SortBy(TaskLe, y));
    CutsApart(lib, SortBy(TaskLe, x), SortBy(TaskLe, y));
    CyclesAppend(lib, Runs(lib, x), Runs(lib, y));
  }

  lemma SortsApart(x: seq<Task>, y: seq<Task>)
    requires AllBefore(x, y) && DistinctIds(multiset(x + y))
    ensures SortBy(TaskLe, x + y) == SortBy(TaskLe, x) + SortBy(TaskLe, y)
  {
    TaskOrder();
    DistinctIdsAreStrict(multiset(x + y));
    SortOfConcat(TaskLe, x, y);
  }

  lemma MembersStayBefore(x: seq<Task>, y: seq<Task>, a: seq<Task>, b: seq<Task>)
    requires AllBefore(x, y) && multiset(a) == multiset(x) && multiset(b) == multiset(y)
    ensures AllBefore(a, b)
  {
    forall s, t | s in a && t in b
      ensures DayBefore(s, t)
    {
      assert s in multiset(a) && t in multiset(b);
    }
  }

  lemma CutsApart(lib: Lib, a: seq<Task>, b: seq<Task>)
    requires AllBefore(a, b)
    ensures Cut(Merges(lib), a + b) == Cut(Merges(lib), a) + Cut(Merges(lib), b)
  {
    forall s, t | s in a && t in b
      ensures !Merges(lib)(s, t)
    {
      assert DayBefore(s, t);
    }
    CutOfConcat(Merges(lib), a, b);
  }

  lemma CyclesAppend(lib: Lib, a: seq<seq<Task>>, b: seq<seq<Task>>)
    requires NoneEmpty(a) && NoneEmpty(b)
    ensures NoneEmpty(a + b) && CyclesOf(lib, a + b) == CyclesOf(lib, a) + CyclesOf(lib, b)
  {
  }

  // ---- Cycle keys ---------------------------------------------------------------------

  /** The unique constraint on task coordinates. */
  ghost predicate DistinctPlaces(tasks: multiset<Task>) {
    forall s, t :: s in tasks && t in tasks && SamePlace(s, t) ==> s == t && tasks[s] == 1
  }

  ghost predicate CollisionFree(digest: string -> string) {
    forall p, q :: digest(p) == digest(q) ==> p == q
  }

  /** With a collision-free digest no two cycles share a key, so the upsert keeps every cycle. */
  lemma KeysDiffer(lib: Lib, tasks: seq<Task>)
    requires DistinctPlaces(multiset(tasks)) && CollisionFree(lib.digest)
    requires forall s, t :: s in tasks && t in tasks ==> !NamesClash(s, t)
    ensures forall g, h :: 0 <= g < h < |Aggregate(lib, tasks)| ==>
              Aggregate(lib, tasks)[g].key != Aggregate(lib, tasks)[h].key
  {
    var sorted, groups := SortBy(TaskLe, tasks), Runs(lib, tasks);
    CutIsGreedy(Merges(lib), sorted);
    forall g, h | 0 <= g < h < |groups|
      ensures CycleKey(lib, groups[g][0]) != CycleKey(lib, groups[h][0])
    {
      var s, t := groups[g][0], groups[h][0];
      HeadsAreTwo(groups, g, h);
      TwoPlaces(multiset(tasks), s, t);
      assert s in multiset(tasks) && t in multiset(tasks);
      if CycleKey(lib, s) == CycleKey(lib, t) {
        SameKey(lib, s, t);
        PayloadsDiffer(lib, s, t);
      }
    }
  }

  lemma TwoPlaces(tasks: multiset<Task>, s: Task, t: Task)
    requires DistinctPlaces(tasks) && multiset{s, t} <= tasks
    ensures !SamePlace(s, t)
  {
    assert tasks[s] >= multiset{s, t}[s] && tasks[t] >= multiset{s, t}[t];
  }

  lemma SameKey(lib: Lib, s: Task, t: Task)
    requires CollisionFree(lib.digest) && CycleKey(lib, s) == CycleKey(lib, t)
    ensures Payload(lib, s) == Payload(lib, t)
  {
    assert lib.digest(Payload(lib, s)) == CycleKey(lib, s)[6..];
    assert lib.digest(Payload(lib, t)) == CycleKey(lib, t)[6..];
  }

  /** The first tasks of two runs are two members of the whole list. */
  lemma HeadsAreTwo(groups: seq<seq<Task>>, g: nat, h: nat)
    requires g < h < |groups| && groups[g] != [] && groups[h] != []
    ensures multiset{groups[g][0], groups[h][0]} <= multiset(Flatten(groups))
  {
    FlattenSplit(groups, h);
    MemberOfFlatten(groups[..h], g, groups[g][0]);
    MemberOfFlatten(groups[h..], 0, groups[h][0]);
  }
}
