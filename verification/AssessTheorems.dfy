/** What a run of the four assess steps promises. */
module AssessTheorems {
  import opened Common
  import opened Sorting
  import opened Batching
  import opened Totals
  import opened Upserts
  import opened Aggregation
  import opened CycleKeys
  import opened CycleTheorems
  import opened BayesianNorms
  import opened AssessTables

  // ---- Rows on a day ----------------------------------------------------------------------

  lemma OnMembers(tasks: seq<TaskRow>, d: int)
    ensures forall t :: t in On(tasks, d) <==> t in tasks && t.date == d
  {
    WhereMembers((t: TaskRow) => t.date == d, tasks);
    assert forall t :: t in On(tasks, d) <==> t in Where((t: TaskRow) => t.date == d, tasks);
  }

  lemma {:induction false} FindRowFinds(tasks: seq<TaskRow>, t: TaskRow)
    requires DistinctRows(tasks) && t in tasks
    ensures FindRow(tasks, t.id) == Some(t)
  {
    var front, last := tasks[..|tasks| - 1], tasks[|tasks| - 1];
    if last != t {
      assert t in front;
      var i :| 0 <= i < |front| && front[i] == t;
      assert tasks[i].id != last.id;
      FindRowFinds(front, t);
    }
  }

  lemma SameIdSameRow(tasks: seq<TaskRow>, s: TaskRow, t: TaskRow)
    requires DistinctRows(tasks) && s in tasks && t in tasks && s.id == t.id
    ensures s == t
  {
    FindRowFinds(tasks, s);
    FindRowFinds(tasks, t);
  }

  // ---- Scores -----------------------------------------------------------------------------

  lemma ScoringOrderMembers(tasks: seq<TaskRow>, d: int)
    ensures forall t :: t in SortBy(ScoringLe, On(tasks, d)) <==> t in tasks && t.date == d
  {
    OnMembers(tasks, d);
    var rows := SortBy(ScoringLe, On(tasks, d));
    assert forall t :: t in rows <==> t in multiset(rows);
    assert forall t :: t in On(tasks, d) <==> t in multiset(On(tasks, d));
  }

  lemma ScoresAreConsistent(formulas: Formulas, tasks: seq<TaskRow>, d: int)
    requires DistinctRows(tasks)
    ensures Consistent(ScoreRows(formulas, tasks, d))
  {
    var rows := SortBy(ScoringLe, On(tasks, d));
    var scores := ScoreRows(formulas, tasks, d);
    ScoringOrderMembers(tasks, d);
    forall i, j | 0 <= i < |scores| && 0 <= j < |scores| && scores[i].0 == scores[j].0
      ensures scores[i].1 == scores[j].1
    {
      SameIdSameRow(tasks, rows[i], rows[j]);
    }
  }

  /** Scoring a day writes a fresh row, without norm, for every task of the day. */
  lemma TaskIsScored(formulas: Formulas, tasks: seq<TaskRow>, table: map<int, Assessment>, d: int, t: TaskRow)
    requires DistinctRows(tasks) && t in tasks && t.date == d
    ensures t.id in Upsert(table, ScoreRows(formulas, tasks, d))
    ensures Upsert(table, ScoreRows(formulas, tasks, d))[t.id] == Scored(formulas, t)
  {
    ScoringOrderMembers(tasks, d);
    ScoresAreConsistent(formulas, tasks, d);
    var rows := SortBy(ScoringLe, On(tasks, d));
    var i :| 0 <= i < |rows| && rows[i] == t;
    UpsertHolds(table, ScoreRows(formulas, tasks, d), i);
  }

  // ---- Norm and delta -----------------------------------------------------------------------

  lemma {:induction false} CategoriesMembers(rows: seq<TaskRow>, c: string)
    ensures c in Categories(rows) <==> exists t :: t in rows && SqlCategory(t) == c
  {
    if rows != [] {
      var front, last := rows[..|rows| - 1], rows[|rows| - 1];
      CategoriesMembers(front, c);
      assert forall t :: t in rows <==> t in front || t == last;
      var inserted := Insert(StringLe, SqlCategory(last), Categories(front));
      assert c in inserted <==> c in multiset(inserted);
      assert c in Categories(front) <==> c in multiset(Categories(front));
    }
  }

  lemma {:induction false} ByCategoryKeys(stats: seq<Stat>, c: string)
    ensures c in ByCategory(stats) <==> exists i :: 0 <= i < |stats| && stats[i].category == c
  {
    if stats != [] {
      var front, last := stats[..|stats| - 1], stats[|stats| - 1];
      ByCategoryKeys(front, c);
      assert forall i :: 0 <= i < |front| ==> stats[i] == front[i];
    }
  }

  ghost predicate ObservedInWindow(tasks: seq<TaskRow>, d: int, c: string) {
    exists t :: t in tasks && d - 6 <= t.date <= d && t.duration.Some? && t.duration.value >= 0 && SqlCategory(t) == c
  }

  lemma WindowMembers(tasks: seq<TaskRow>, lo: int, hi: int)
    ensures forall t :: t in WindowRows(tasks, lo, hi) <==> t in tasks && Observed(t, lo, hi)
  {
    WhereMembers((t: TaskRow) => Observed(t, lo, hi), tasks);
    assert forall t :: t in WindowRows(tasks, lo, hi) <==> t in Where((t: TaskRow) => Observed(t, lo, hi), tasks);
  }

  /** The categories of the norm table: those with a prior and those observed in the last seven days. */
  lemma NormCategories(formulas: Formulas, tasks: seq<TaskRow>, d: int, c: string)
    ensures c in NormsFor(formulas, tasks, d) <==> c in BASELINE_PRIORS_MINUTES || ObservedInWindow(tasks, d, c)
  {
    StatCategories(formulas, tasks, d, c);
  }

  lemma StatCategories(formulas: Formulas, tasks: seq<TaskRow>, d: int, c: string)
    ensures c in ByCategory(WindowStats(formulas, tasks, d - 6, d)) <==> ObservedInWindow(tasks, d, c)
  {
    var rows, stats := WindowRows(tasks, d - 6, d), WindowStats(formulas, tasks, d - 6, d);
    WindowMembers(tasks, d - 6, d);
    CategoriesMembers(rows, c);
    ByCategoryKeys(stats, c);
    assert forall i :: 0 <= i < |stats| ==> stats[i].category == Categories(rows)[i];
    assert c in ByCategory(stats) <==> c in Categories(rows);
  }

  /**
   * After a run for day `d` every task of the day has an assessment. Its norm is the rounded norm of the task's
   * category, present exactly if the category was in the table before, has a prior, or was observed in the window;
   * a duration that normalization can produce is such an observation. Norm and delta add up to the duration.
   */
  lemma NormAndDeltaAddUp(formulas: Formulas, tasks: seq<TaskRow>, before: Tables, d: int, t: TaskRow)
    requires DistinctRows(tasks) && t in tasks && t.date == d
    ensures var after, c := Assessed(formulas, tasks, before, d), SqlCategory(t);
            && t.id in after.assessments
            && var a := after.assessments[t.id];
            && a.employee == t.employee && a.date == d
            && (a.norm.Some? <==> c in before.norms || c in BASELINE_PRIORS_MINUTES || ObservedInWindow(tasks, d, c))
            && (a.norm.Some? ==> c in after.norms && a.norm.value == RoundHalfAway(after.norms[c].norm))
            && (a.delta.Some? <==> a.norm.Some? && t.duration.Some?)
            && (a.delta.Some? ==> a.norm.value + a.delta.value == t.duration.value)
            && (t.duration.Some? && t.duration.value >= 0 ==> a.norm.Some?)
  {
    var c := SqlCategory(t);
    NormCategories(formulas, tasks, d, c);
    TaskIsScored(formulas, tasks, before.assessments, d, t);
    FindRowFinds(tasks, t);
  }

  // ---- Running again ------------------------------------------------------------------------

  /** The joined rows see the scores just written, whatever was in the table before. */
  lemma JoinSeesScores(formulas: Formulas, tasks: seq<TaskRow>, table: map<int, Assessment>,
                       table': map<int, Assessment>, d: int)
    requires DistinctRows(tasks)
    ensures JoinedOn(tasks, Upsert(table, ScoreRows(formulas, tasks, d)), d)
         == JoinedOn(tasks, Upsert(table', ScoreRows(formulas, tasks, d)), d)
  {
    var scores := ScoreRows(formulas, tasks, d);
    OnMembers(tasks, d);
    var r, r' := JoinedOn(tasks, Upsert(table, scores), d), JoinedOn(tasks, Upsert(table', scores), d);
    forall i | 0 <= i < |r|
      ensures r[i] == r'[i]
    {
      TaskIsScored(formulas, tasks, table, d, On(tasks, d)[i]);
      TaskIsScored(formulas, tasks, table', d, On(tasks, d)[i]);
    }
  }

  lemma RecomputeRowTwice(a: Assessment, id: int, tasks: seq<TaskRow>, norms: map<string, NormRow>, d: int)
    ensures RecomputedRow(RecomputedRow(a, id, tasks, norms, d), id, tasks, norms, d) == RecomputedRow(a, id, tasks, norms, d)
  {
  }

  /** Scoring and recomputing again gives the same assessments. */
  lemma RecomputeAgain(table: map<int, Assessment>, scores: seq<(int, Assessment)>, tasks: seq<TaskRow>,
                       norms: map<string, NormRow>, d: int)
    ensures var once := Recomputed(Upsert(table, scores), tasks, norms, d);
            Recomputed(Upsert(once, scores), tasks, norms, d) == once
  {
    var scored := Upsert(table, scores);
    var once := Recomputed(scored, tasks, norms, d);
    var again := Upsert(once, scores);
    UpsertAdds(table, scores);
    UpsertAdds(once, scores);
    assert again.Keys == once.Keys;
    forall id | id in once
      ensures RecomputedRow(again[id], id, tasks, norms, d) == once[id]
    {
      if id in Upsert(map[], scores) {
        assert again[id] == scored[id];
      } else {
        assert again[id] == once[id];
        RecomputeRowTwice(scored[id], id, tasks, norms, d);
      }
    }
  }

  lemma CyclesBelongToTasks(lib: Lib, tasks: seq<Task>, c: Cycle)
    requires c in Aggregate(lib, tasks)
    ensures exists t :: t in tasks && t.employee == c.employee && t.date == c.date
  {
    var sorted, groups := SortBy(TaskLe, tasks), Runs(lib, tasks);
    var g :| 0 <= g < |groups| && c == Aggregate(lib, tasks)[g];
    CyclesAreForcedRuns(lib, tasks);
    MemberOfFlatten(groups, g, groups[g][0]);
    assert groups[g][0] in multiset(Flatten(groups));
    assert groups[g][0] in tasks;
  }

  ghost predicate AllOn(tasks: seq<Task>, d: int) {
    forall t :: t in tasks ==> t.date == d
  }

  /** The keys a rebuild writes all belong to the employees and the day it cleared. */
  lemma RebuildKeys(lib: Lib, tasks: seq<Task>, d: int, k: (int, int, string))
    requires AllOn(tasks, d) && HasKey(CycleRows(Aggregate(lib, tasks)), k)
    ensures k.0 in EmployeesIn(tasks) && k.1 == d
  {
    var cycles := Aggregate(lib, tasks);
    var i :| 0 <= i < |CycleRows(cycles)| && CycleRows(cycles)[i].0 == k;
    CyclesBelongToTasks(lib, tasks, cycles[i]);
  }

  /** Clearing removes exactly what the rows added. */
  lemma ClearUndoes(cycles: map<(int, int, string), Cycle>, employees: set<int>, d: int,
                    rows: seq<((int, int, string), Cycle)>)
    requires forall k: (int, int, string) :: HasKey(rows, k) ==> k.0 in employees && k.1 == d
    ensures var kept := Without(cycles, employees, d);
            Without(Upsert(kept, rows), employees, d) == kept
  {
    UpsertAdds(Without(cycles, employees, d), rows);
  }

  lemma RebuildTwice(formulas: Formulas, cycles: map<(int, int, string), Cycle>, tasks: seq<Task>, d: int)
    requires AllOn(tasks, d)
    ensures Rebuilt(formulas, Rebuilt(formulas, cycles, tasks, d), tasks, d) == Rebuilt(formulas, cycles, tasks, d)
  {
    var rows := CycleRows(Aggregate(formulas.cycles, tasks));
    forall k: (int, int, string) | HasKey(rows, k)
      ensures k.0 in EmployeesIn(tasks) && k.1 == d
    {
      RebuildKeys(formulas.cycles, tasks, d, k);
    }
    ClearUndoes(cycles, EmployeesIn(tasks), d, rows);
  }

  /** With distinct places and a collision-free digest every cycle is stored under its own key. */
  lemma NoCycleIsLost(formulas: Formulas, cycles: map<(int, int, string), Cycle>, tasks: seq<Task>, d: int, i: nat)
    requires DistinctPlaces(multiset(tasks)) && CollisionFree(formulas.cycles.digest)
    requires forall s, t :: s in tasks && t in tasks ==> !NamesClash(s, t)
    requires i < |Aggregate(formulas.cycles, tasks)|
    ensures var row := CycleRows(Aggregate(formulas.cycles, tasks))[i];
            row.0 in Rebuilt(formulas, cycles, tasks, d) && Rebuilt(formulas, cycles, tasks, d)[row.0] == row.1
  {
    var found := Aggregate(formulas.cycles, tasks);
    KeysDiffer(formulas.cycles, tasks);
    assert forall j, k :: 0 <= j < |found| && 0 <= k < |found| && found[j].key == found[k].key ==> j == k;
    assert Consistent(CycleRows(found));
    UpsertHolds(Without(cycles, EmployeesIn(tasks), d), CycleRows(found), i);
  }

  lemma JoinedAllOn(tasks: seq<TaskRow>, assessments: map<int, Assessment>, d: int)
    ensures AllOn(JoinedOn(tasks, assessments, d), d)
  {
    OnMembers(tasks, d);
    var joined := JoinedOn(tasks, assessments, d);
    forall t | t in joined
      ensures t.date == d
    {
      var i :| 0 <= i < |joined| && joined[i] == t;
      assert On(tasks, d)[i] in On(tasks, d);
    }
  }

  /** The second run joins the same scores, so it rebuilds the same cycles. */
  lemma CyclesAgain(formulas: Formulas, tasks: seq<TaskRow>, table: map<int, Assessment>, table': map<int, Assessment>,
                    cycles: map<(int, int, string), Cycle>, d: int)
    requires DistinctRows(tasks)
    ensures var scores := ScoreRows(formulas, tasks, d);
            var once := Rebuilt(formulas, cycles, JoinedOn(tasks, Upsert(table, scores), d), d);
            Rebuilt(formulas, once, JoinedOn(tasks, Upsert(table', scores), d), d) == once
  {
    var joined := JoinedOn(tasks, Upsert(table, ScoreRows(formulas, tasks, d)), d);
    JoinSeesScores(formulas, tasks, table, table', d);
    JoinedAllOn(tasks, Upsert(table, ScoreRows(formulas, tasks, d)), d);
    RebuildTwice(formulas, cycles, joined, d);
  }

  /** Running the assessment of a day again on unchanged tasks changes none of the four tables. */
  lemma AssessTwice(formulas: Formulas, tasks: seq<TaskRow>, before: Tables, d: int)
    requires DistinctRows(tasks)
    ensures var once := Assessed(formulas, tasks, before, d);
            Assessed(formulas, tasks, once, d) == once
  {
    var once := Assessed(formulas, tasks, before, d);
    var twice := Assessed(formulas, tasks, once, d);
    UpsertTwice(before.ghostTime, GhostRows(formulas, tasks, d));
    assert twice.norms == once.norms;
    RecomputeAgain(before.assessments, ScoreRows(formulas, tasks, d), tasks, once.norms, d);
    CyclesAgain(formulas, tasks, before.assessments, once.assessments, before.cycles, d);
  }

  // ---- Other days ---------------------------------------------------------------------------

  /** A run for day `d` leaves the ghost time of other days alone. */
  lemma OtherGhostTimeUntouched(formulas: Formulas, tasks: seq<TaskRow>, before: Tables, d: int, k: (int, int))
    requires k.1 != d
    ensures var after := Assessed(formulas, tasks, before, d).ghostTime;
            (k in after <==> k in before.ghostTime) && (k in after ==> after[k] == before.ghostTime[k])
  {
    if HasKey(GhostRows(formulas, tasks, d), k) {
      GhostKeys(formulas, tasks, d, k);
    }
    UpsertKeepsOthers(before.ghostTime, GhostRows(formulas, tasks, d), k);
  }

  lemma GhostKeys(formulas: Formulas, tasks: seq<TaskRow>, d: int, k: (int, int))
    requires HasKey(GhostRows(formulas, tasks, d), k)
    ensures k.1 == d
  {
  }

  lemma RebuildKeepsOthers(formulas: Formulas, cycles: map<(int, int, string), Cycle>, tasks: seq<Task>, d: int,
                           k: (int, int, string))
    requires AllOn(tasks, d) && (k.1 != d || k.0 !in EmployeesIn(tasks))
    ensures var after := Rebuilt(formulas, cycles, tasks, d);
            (k in after <==> k in cycles) && (k in after ==> after[k] == cycles[k])
  {
    var rows := CycleRows(Aggregate(formulas.cycles, tasks));
    if HasKey(rows, k) {
      RebuildKeys(formulas.cycles, tasks, d, k);
    }
    UpsertKeepsOthers(Without(cycles, EmployeesIn(tasks), d), rows, k);
  }

  /** A run for day `d` leaves the cycles of other days alone. */
  lemma OtherCyclesUntouched(formulas: Formulas, tasks: seq<TaskRow>, before: Tables, d: int, k: (int, int, string))
    requires k.1 != d
    ensures var after := Assessed(formulas, tasks, before, d).cycles;
            (k in after <==> k in before.cycles) && (k in after ==> after[k] == before.cycles[k])
  {
    var scored := Upsert(before.assessments, ScoreRows(formulas, tasks, d));
    JoinedAllOn(tasks, scored, d);
    RebuildKeepsOthers(formulas, before.cycles, JoinedOn(tasks, scored, d), d, k);
  }

  /** An assessment of a task of another day changes only if it is itself dated `d`. */
  lemma OtherAssessmentsUntouched(formulas: Formulas, tasks: seq<TaskRow>, before: Tables, d: int, id: int)
    requires id in before.assessments && before.assessments[id].date != d
    requires forall t :: t in tasks && t.date == d ==> t.id != id
    ensures id in Assessed(formulas, tasks, before, d).assessments
    ensures Assessed(formulas, tasks, before, d).assessments[id] == before.assessments[id]
  {
    var scores := ScoreRows(formulas, tasks, d);
    UpsertAdds(before.assessments, scores);
    ScoringOrderMembers(tasks, d);
    assert forall i :: 0 <= i < |scores| ==> scores[i].0 == SortBy(ScoringLe, On(tasks, d))[i].id;
    assert !HasKey(scores, id);
  }
}
