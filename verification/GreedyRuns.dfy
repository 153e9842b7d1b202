/** Cutting a list greedily into runs whose members are all accepted by the run's first member. */
module GreedyRuns {
  import opened Batching

  /** A run: every further member was accepted by the first. */
  ghost predicate IsRun<T>(accepts: (T, T) -> bool, group: seq<T>) {
    group != [] && forall k :: 1 <= k < |group| ==> accepts(group[0], group[k])
  }

  ghost predicate AllRuns<T>(accepts: (T, T) -> bool, groups: seq<seq<T>>) {
    forall g :: 0 <= g < |groups| ==> IsRun(accepts, groups[g])
  }

  /** No cut is optional: the task after a cut is not accepted by the run before it. */
  ghost predicate ForcedCuts<T>(accepts: (T, T) -> bool, groups: seq<seq<T>>)
    requires AllRuns(accepts, groups)
  {
    forall g, h :: 0 <= g < h < |groups| && h == g + 1 ==> !accepts(groups[g][0], groups[h][0])
  }

  /** `groups` cuts `tasks` into consecutive runs, and every cut is forced. */
  ghost predicate IsGreedy<T>(accepts: (T, T) -> bool, tasks: seq<T>, groups: seq<seq<T>>) {
    Flatten(groups) == tasks && AllRuns(accepts, groups) && ForcedCuts(accepts, groups)
  }

  /** The greedy cut, one task at a time: join the last run or start a new one. */
  function Cut<T>(accepts: (T, T) -> bool, tasks: seq<T>): seq<seq<T>> {
    if tasks == [] then []
    else Place(accepts, Cut(accepts, tasks[..|tasks| - 1]), tasks[|tasks| - 1])
  }

  function Place<T>(accepts: (T, T) -> bool, groups: seq<seq<T>>, t: T): seq<seq<T>> {
    if groups != [] && groups[|groups| - 1] != [] && accepts(groups[|groups| - 1][0], t)
    then groups[..|groups| - 1] + [groups[|groups| - 1] + [t]]
    else groups + [[t]]
  }

  lemma RunsSnoc<T>(accepts: (T, T) -> bool, groups: seq<seq<T>>, run: seq<T>)
    requires AllRuns(accepts, groups) && IsRun(accepts, run)
    ensures AllRuns(accepts, groups + [run])
  {
  }

  lemma CutsSnoc<T>(accepts: (T, T) -> bool, groups: seq<seq<T>>, run: seq<T>)
    requires AllRuns(accepts, groups) && ForcedCuts(accepts, groups) && AllRuns(accepts, groups + [run])
    requires groups != [] ==> groups[|groups| - 1] != [] && run != [] && !accepts(groups[|groups| - 1][0], run[0])
    ensures ForcedCuts(accepts, groups + [run])
  {
    var all := groups + [run];
    forall g, h | 0 <= g < h < |all| && h == g + 1
      ensures !accepts(all[g][0], all[h][0])
    {
      assert all[g] == groups[g];
      if h < |groups| {
        assert all[h] == groups[h];
      }
    }
  }

  lemma CutsFront<T>(accepts: (T, T) -> bool, front: seq<seq<T>>, last: seq<T>)
    requires AllRuns(accepts, front + [last]) && ForcedCuts(accepts, front + [last])
    ensures AllRuns(accepts, front) && ForcedCuts(accepts, front) && IsRun(accepts, last)
    ensures front != [] ==> front[|front| - 1] != [] && !accepts(front[|front| - 1][0], last[0])
  {
    var all := front + [last];
    assert forall g :: 0 <= g < |front| ==> all[g] == front[g];
    assert IsRun(accepts, all[|front|]);
    if front != [] {
      assert IsRun(accepts, all[|front| - 1]);
    }
  }

  lemma StartRun<T>(accepts: (T, T) -> bool, groups: seq<seq<T>>, run: seq<T>)
    requires IsGreedy(accepts, Flatten(groups), groups) && IsRun(accepts, run)
    requires groups != [] ==> groups[|groups| - 1] != [] && !accepts(groups[|groups| - 1][0], run[0])
    ensures IsGreedy(accepts, Flatten(groups) + run, groups + [run])
  {
    FlattenSnoc(groups, run);
    RunsSnoc(accepts, groups, run);
    CutsSnoc(accepts, groups, run);
  }

  lemma DropRun<T>(accepts: (T, T) -> bool, front: seq<seq<T>>, last: seq<T>)
    requires IsGreedy(accepts, Flatten(front) + last, front + [last])
    ensures IsGreedy(accepts, Flatten(front), front) && IsRun(accepts, last)
    ensures front != [] ==> front[|front| - 1] != [] && !accepts(front[|front| - 1][0], last[0])
  {
    CutsFront(accepts, front, last);
  }

  lemma {:induction false} CutIsGreedy<T>(accepts: (T, T) -> bool, tasks: seq<T>)
    ensures IsGreedy(accepts, tasks, Cut(accepts, tasks))
  {
    if tasks != [] {
      var before, t := tasks[..|tasks| - 1], tasks[|tasks| - 1];
      CutIsGreedy(accepts, before);
      PlaceKeepsGreedy(accepts, before, Cut(accepts, before), t);
      assert tasks == before + [t];
    }
  }

  lemma PlaceKeepsGreedy<T>(accepts: (T, T) -> bool, before: seq<T>, groups: seq<seq<T>>, t: T)
    requires IsGreedy(accepts, before, groups)
    ensures IsGreedy(accepts, before + [t], Place(accepts, groups, t))
  {
    if groups == [] {
      PlaceStarts(accepts, groups, t);
      StartRun(accepts, groups, [t]);
    } else {
      var front, last := groups[..|groups| - 1], groups[|groups| - 1];
      FrontAndLast(groups);
      FlattenSnoc(front, last);
      LastRunPlaces(accepts, front, last, t);
    }
  }

  lemma LastRunPlaces<T>(accepts: (T, T) -> bool, front: seq<seq<T>>, last: seq<T>, t: T)
    requires IsGreedy(accepts, Flatten(front) + last, front + [last])
    ensures IsGreedy(accepts, Flatten(front) + last + [t], Place(accepts, front + [last], t))
  {
    DropRun(accepts, front, last);
    if accepts(last[0], t) {
      PlaceJoins(accepts, front, last, t);
      StartRun(accepts, front, last + [t]);
      assert Flatten(front) + (last + [t]) == Flatten(front) + last + [t];
    } else {
      PlaceStarts(accepts, front + [last], t);
      FlattenSnoc(front, last);
      StartRun(accepts, front + [last], [t]);
    }
  }

  lemma NewRunIsCut<T>(accepts: (T, T) -> bool, front: seq<seq<T>>, t: T)
    requires front == Cut(accepts, Flatten(front))
    requires front != [] ==> front[|front| - 1] != [] && !accepts(front[|front| - 1][0], t)
    ensures Cut(accepts, Flatten(front) + [t]) == front + [[t]]
  {
    CutStep(accepts, Flatten(front), t);
    PlaceStarts(accepts, front, t);
  }

  lemma LongerRunIsCut<T>(accepts: (T, T) -> bool, front: seq<seq<T>>, before: seq<T>, t: T)
    requires front + [before] == Cut(accepts, Flatten(front) + before) && before != [] && accepts(before[0], t)
    ensures Cut(accepts, Flatten(front) + (before + [t])) == front + [before + [t]]
  {
    CutStep(accepts, Flatten(front) + before, t);
    PlaceJoins(accepts, front, before, t);
    assert Flatten(front) + before + [t] == Flatten(front) + (before + [t]);
  }

  /** There is only one greedy cut. */
  lemma {:induction false} GreedyIsCut<T>(accepts: (T, T) -> bool, tasks: seq<T>, groups: seq<seq<T>>)
    requires IsGreedy(accepts, tasks, groups)
    ensures groups == Cut(accepts, tasks)
    decreases |tasks|
  {
    if groups != [] {
      var front, last := groups[..|groups| - 1], groups[|groups| - 1];
      FrontAndLast(groups);
      FlattenSnoc(front, last);
      DropRun(accepts, front, last);
      var before, t := last[..|last| - 1], last[|last| - 1];
      FrontAndLast(last);
      if before == [] {
        GreedyIsCut(accepts, Flatten(front), front);
        assert last == [t];
        NewRunIsCut(accepts, front, t);
      } else {
        ShorterIsGreedy(accepts, front, before, t);
        GreedyIsCut(accepts, Flatten(front) + before, front + [before]);
        LongerRunIsCut(accepts, front, before, t);
      }
    }
  }

  /** Without its last task a longer last run is still a greedy one. */
  lemma ShorterIsGreedy<T>(accepts: (T, T) -> bool, front: seq<seq<T>>, before: seq<T>, t: T)
    requires IsGreedy(accepts, Flatten(front) + (before + [t]), front + [before + [t]]) && before != []
    ensures IsGreedy(accepts, Flatten(front) + before, front + [before]) && accepts(before[0], t)
  {
    var last := before + [t];
    DropRun(accepts, front, last);
    assert last[|before|] == t && forall k :: 0 <= k < |before| ==> last[k] == before[k];
    StartRun(accepts, front, before);
  }

  lemma PlaceStarts<T>(accepts: (T, T) -> bool, groups: seq<seq<T>>, t: T)
    requires groups != [] && groups[|groups| - 1] != [] ==> !accepts(groups[|groups| - 1][0], t)
    ensures Place(accepts, groups, t) == groups + [[t]]
  {
  }

  lemma CutStep<T>(accepts: (T, T) -> bool, tasks: seq<T>, t: T)
    ensures Cut(accepts, tasks + [t]) == Place(accepts, Cut(accepts, tasks), t)
  {
    assert (tasks + [t])[..|tasks|] == tasks;
  }

  lemma CutPrefix<T>(accepts: (T, T) -> bool, tasks: seq<T>, i: nat)
    requires i < |tasks|
    ensures Cut(accepts, tasks[..i + 1]) == Place(accepts, Cut(accepts, tasks[..i]), tasks[i])
  {
    assert tasks[..i + 1][..i] == tasks[..i];
  }

  lemma PlaceJoins<T>(accepts: (T, T) -> bool, front: seq<seq<T>>, last: seq<T>, t: T)
    requires last != [] && accepts(last[0], t)
    ensures Place(accepts, front + [last], t) == front + [last + [t]]
  {
    assert (front + [last])[..|front|] == front;
  }

  /** Cuts of two lists stand side by side when no task of the second can join a run of the first. */
  lemma CutOfConcat<T>(accepts: (T, T) -> bool, x: seq<T>, y: seq<T>)
    requires forall s, t :: s in x && t in y ==> !accepts(s, t)
    ensures Cut(accepts, x + y) == Cut(accepts, x) + Cut(accepts, y)
  {
    CutIsGreedy(accepts, x);
    CutIsGreedy(accepts, y);
    var a, b := Cut(accepts, x), Cut(accepts, y);
    FlattenAppend(a, b);
    forall g, h | 0 <= g < h < |a + b| && h == g + 1
      ensures !accepts((a + b)[g][0], (a + b)[h][0])
    {
      if g < |a| <= h {
        HeadIsMember(accepts, x, a, g);
        HeadIsMember(accepts, y, b, h - |a|);
      }
    }
    GreedyIsCut(accepts, x + y, a + b);
  }

  lemma {:induction false} HeadIsMember<T>(accepts: (T, T) -> bool, tasks: seq<T>, groups: seq<seq<T>>, g: nat)
    requires Flatten(groups) == tasks && g < |groups| && groups[g] != []
    ensures groups[g][0] in tasks
    decreases |groups|
  {
    var front := groups[..|groups| - 1];
    if g < |front| {
      HeadIsMember(accepts, Flatten(front), front, g);
    }
  }
}
