/** `run_assess`: the four steps as they rewrite the tables (WorkAI/assess/runner.py). */
module AssessRun {
  import opened Common
  import opened Sorting
  import opened Batching
  import opened Upserts
  import opened Aggregation
  import opened CycleTheorems
  import opened BayesianNorms
  import opened AssessTables
  import opened AssessTheorems

  // ---- Grouping the aggregation input -------------------------------------------------------

  ghost predicate AllIn(keys: seq<int>, grouped: map<int, seq<Task>>) {
    forall i :: 0 <= i < |keys| ==> keys[i] in grouped
  }

  /** The groups in the order in which their keys were first seen. */
  ghost function Parts(keys: seq<int>, grouped: map<int, seq<Task>>): seq<seq<Task>>
    requires AllIn(keys, grouped)
  {
    seq(|keys|, i requires 0 <= i < |keys| => grouped[keys[i]])
  }

  ghost predicate Ordered(keys: seq<int>) {
    forall i, j :: 0 <= i < j < |keys| ==> keys[i] < keys[j]
  }

  ghost predicate ByEmployee(rows: seq<Task>) {
    forall i, j :: 0 <= i < j < |rows| ==> rows[i].employee <= rows[j].employee
  }

  /** `grouped` holds the rows by employee; its keys came in ascending order. */
  ghost predicate Grouped(keys: seq<int>, grouped: map<int, seq<Task>>, rows: seq<Task>) {
    && Ordered(keys) && AllIn(keys, grouped) && (forall e :: e in grouped ==> e in keys)
    && (forall e :: e in grouped ==> forall t :: t in grouped[e] ==> t.employee == e)
    && (forall e :: e in grouped ==> grouped[e] != [])
    && Flatten(Parts(keys, grouped)) == rows
  }

  lemma LastKey(keys: seq<int>, grouped: map<int, seq<Task>>, rows: seq<Task>)
    requires Grouped(keys, grouped, rows)
    ensures keys == [] <==> rows == []
    ensures keys != [] ==> keys[|keys| - 1] == rows[|rows| - 1].employee
  {
    if keys != [] {
      var e := keys[|keys| - 1];
      assert e in grouped && grouped[e] != [];
      var last := grouped[e];
      FrontAndLast(Parts(keys, grouped));
      assert last[|last| - 1] in last;
    }
  }

  lemma JoinsGroup(keys: seq<int>, grouped: map<int, seq<Task>>, rows: seq<Task>, t: Task)
    requires Grouped(keys, grouped, rows) && keys != [] && keys[|keys| - 1] == t.employee
    ensures t.employee in grouped && Grouped(keys, grouped[t.employee := grouped[t.employee] + [t]], rows + [t])
  {
    assert t.employee in keys;
    var grouped' := grouped[t.employee := grouped[t.employee] + [t]];
    var parts := Parts(keys, grouped);
    var front := parts[..|parts| - 1];
    assert Parts(keys, grouped')[..|parts| - 1] == front;
    assert Flatten(front) + (grouped[t.employee] + [t]) == Flatten(front) + grouped[t.employee] + [t];
  }

  lemma StartsGroup(keys: seq<int>, grouped: map<int, seq<Task>>, rows: seq<Task>, t: Task)
    requires Grouped(keys, grouped, rows) && (keys != [] ==> keys[|keys| - 1] < t.employee)
    ensures Grouped(keys + [t.employee], grouped[t.employee := [t]], rows + [t])
  {
    assert t.employee !in keys;
    assert Parts(keys + [t.employee], grouped[t.employee := [t]]) == Parts(keys, grouped) + [[t]];
    FlattenSnoc(Parts(keys, grouped), [t]);
    assert forall e :: e in keys + [t.employee] <==> e in keys || e == t.employee;
  }

  lemma KeyIsLast(keys: seq<int>, e: int)
    requires Ordered(keys) && (keys != [] ==> keys[|keys| - 1] <= e)
    ensures e in keys <==> keys != [] && keys[|keys| - 1] == e
  {
  }

  /** The `defaultdict` loop. All rows have the same date, so the employee identifies the group. */
  method GroupRows(rows: seq<Task>) returns (keys: seq<int>, grouped: map<int, seq<Task>>)
    requires ByEmployee(rows)
    ensures Grouped(keys, grouped, rows)
  {
    keys, grouped := [], map[];
    for i := 0 to |rows|
      invariant Grouped(keys, grouped, rows[..i])
    {
      var t := rows[i];
      LastKey(keys, grouped, rows[..i]);
      KeyIsLast(keys, t.employee);
      TakeSnoc(rows, i);
      if t.employee in grouped {
        JoinsGroup(keys, grouped, rows[..i], t);
        grouped := grouped[t.employee := grouped[t.employee] + [t]];
      } else {
        StartsGroup(keys, grouped, rows[..i], t);
        keys, grouped := keys + [t.employee], grouped[t.employee := [t]];
      }
    }
    assert rows[..|rows|] == rows;
  }

  // ---- Rebuilding the cycles employee by employee ----------------------------------------------

  lemma RowsAppend(cycles: seq<Cycle>, more: seq<Cycle>)
    ensures CycleRows(cycles + more) == CycleRows(cycles) + CycleRows(more)
  {
  }

  ghost function SetOf(keys: seq<int>): set<int> { set e | e in keys }

  ghost predicate RowsOf(rows: seq<((int, int, string), Cycle)>, employees: set<int>) {
    forall i :: 0 <= i < |rows| ==> rows[i].0.0 in employees
  }

  /** Clearing one more employee does not touch the rows already written for others. */
  lemma ClearThenWrite(cycles: map<(int, int, string), Cycle>, done: set<int>, rows: seq<((int, int, string), Cycle)>,
                       e: int, more: seq<((int, int, string), Cycle)>, d: int)
    requires RowsOf(rows, done) && e !in done
    ensures Upsert(Without(Upsert(Without(cycles, done, d), rows), {e}, d), more)
         == Upsert(Without(cycles, done + {e}, d), rows + more)
  {
    var kept := Without(cycles, done, d);
    UpsertAdds(kept, rows);
    UpsertAdds(Without(cycles, done + {e}, d), rows);
    forall k: (int, int, string) | HasKey(rows, k)
      ensures k.0 in done
    {
    }
    assert Without(Upsert(kept, rows), {e}, d) == Upsert(Without(cycles, done + {e}, d), rows);
    UpsertAppend(Without(cycles, done + {e}, d), rows, more);
  }

  /** The table after the first groups of a day: cleared for their employees, and their cycles written. */
  ghost function RebuiltSoFar(cycles: map<(int, int, string), Cycle>, keys: seq<int>, each: seq<seq<Cycle>>, d: int, i: nat)
    : map<(int, int, string), Cycle>
    requires i <= |keys| == |each|
  {
    Upsert(Without(cycles, SetOf(keys[..i]), d), CycleRows(Flatten(each[..i])))
  }

  lemma RebuildStep(cycles: map<(int, int, string), Cycle>, keys: seq<int>, each: seq<seq<Cycle>>, d: int, i: nat)
    requires i < |keys| == |each| && Ordered(keys)
    requires RowsOf(CycleRows(Flatten(each[..i])), SetOf(keys[..i])) && RowsOf(CycleRows(each[i]), {keys[i]})
    ensures Upsert(Without(RebuiltSoFar(cycles, keys, each, d, i), {keys[i]}, d), CycleRows(each[i]))
         == RebuiltSoFar(cycles, keys, each, d, i + 1)
    ensures RowsOf(CycleRows(Flatten(each[..i + 1])), SetOf(keys[..i + 1]))
  {
    FlattenStep(each, i);
    RowsAppend(Flatten(each[..i]), each[i]);
    TakeSnoc(keys, i);
    assert SetOf(keys[..i] + [keys[i]]) == SetOf(keys[..i]) + {keys[i]};
    ClearThenWrite(cycles, SetOf(keys[..i]), CycleRows(Flatten(each[..i])), keys[i], CycleRows(each[i]), d);
  }

  lemma EmployeeRows(lib: Lib, group: seq<Task>, e: int)
    requires forall t :: t in group ==> t.employee == e
    ensures RowsOf(CycleRows(Aggregate(lib, group)), {e})
  {
    var cycles := Aggregate(lib, group);
    forall i | 0 <= i < |cycles|
      ensures cycles[i].employee == e
    {
      CyclesBelongToTasks(lib, group, cycles[i]);
    }
  }

  lemma GroupsAscend(keys: seq<int>, grouped: map<int, seq<Task>>, rows: seq<Task>)
    requires Grouped(keys, grouped, rows)
    ensures Ascending(Parts(keys, grouped))
    ensures EmployeesIn(rows) == SetOf(keys)
  {
    var parts := Parts(keys, grouped);
    forall i, j | 0 <= i < j < |parts|
      ensures AllBefore(parts[i], parts[j])
    {
      assert keys[i] in grouped && keys[j] in grouped;
    }
    forall e
      ensures e in EmployeesIn(rows) <==> e in keys
    {
      if e in keys {
        var i :| 0 <= i < |keys| && keys[i] == e;
        MemberOfFlatten(parts, i, parts[i][0]);
      }
      if e in EmployeesIn(rows) {
        var t :| t in rows && t.employee == e;
        var i := MemberOfSome(parts, t);
        assert keys[i] in grouped;
      }
    }
  }

  lemma JoinedIds(tasks: seq<TaskRow>, assessments: map<int, Assessment>, d: int)
    requires DistinctRows(tasks)
    ensures DistinctIds(multiset(JoinedOn(tasks, assessments, d)))
  {
    var joined := JoinedOn(tasks, assessments, d);
    OnMembers(tasks, d);
    forall s: Task, t: Task | s in multiset(joined) && t in multiset(joined) && s.id == t.id
      ensures s == t
    {
      var i :| 0 <= i < |joined| && joined[i] == s;
      var j :| 0 <= j < |joined| && joined[j] == t;
      SameIdSameRow(tasks, On(tasks, d)[i], On(tasks, d)[j]);
    }
  }

  lemma SameEmployees(x: seq<Task>, y: seq<Task>)
    requires multiset(x) == multiset(y)
    ensures EmployeesIn(x) == EmployeesIn(y)
  {
    assert forall t :: t in x <==> t in multiset(x);
    assert forall t :: t in y <==> t in multiset(y);
  }

  // ---- Norm rows ------------------------------------------------------------------------------

  function Keyed(rows: seq<NormRow>): seq<(string, NormRow)> {
    seq(|rows|, i requires 0 <= i < |rows| => (rows[i].category, rows[i]))
  }

  lemma KeyedKeys(rows: seq<NormRow>, table: map<string, NormRow>, c: string)
    requires ListsTable(rows, table)
    ensures HasKey(Keyed(rows), c) <==> c in table
  {
    if c in table {
      var i :| 0 <= i < |rows| && rows[i].category == c;
      assert Keyed(rows)[i].0 == c;
    }
    if HasKey(Keyed(rows), c) {
      var i :| 0 <= i < |rows| && Keyed(rows)[i].0 == c;
      assert rows[i].category in table;
    }
  }

  lemma KeyedHolds(rows: seq<NormRow>, table: map<string, NormRow>, c: string)
    requires ListsTable(rows, table) && c in table
    ensures c in Upsert(map[], Keyed(rows)) && Upsert(map[], Keyed(rows))[c] == table[c]
  {
    var i :| 0 <= i < |rows| && rows[i].category == c;
    UpsertHolds(map[], Keyed(rows), i);
  }

  /** Upserting one row for every entry of a table overlays the table. */
  lemma UpsertTable(norms: map<string, NormRow>, rows: seq<NormRow>, table: map<string, NormRow>)
    requires ListsTable(rows, table)
    ensures Upsert(norms, Keyed(rows)) == norms + table
  {
    var written := Upsert(map[], Keyed(rows));
    UpsertAdds(norms, Keyed(rows));
    forall c
      ensures c in written <==> c in table
      ensures c in table ==> written[c] == table[c]
    {
      KeyedKeys(rows, table, c);
      if c in table {
        KeyedHolds(rows, table, c);
      }
    }
    assert written == table;
  }

  // ---- Building the batches --------------------------------------------------------------------

  method BuildGhostRows(formulas: Formulas, tasks: seq<TaskRow>, d: int) returns (rows: seq<((int, int), GhostRow)>)
    ensures rows == GhostRows(formulas, tasks, d)
  {
    var keys := Employees(On(tasks, d));
    rows := [];
    for i := 0 to |keys|
      invariant |rows| == i
      invariant forall k :: 0 <= k < i ==> rows[k] == GhostEntry(formulas, tasks, keys[k], d)
    {
      var metrics := Metrics(tasks, keys[i], d);
      rows := rows + [((keys[i], d), GhostOf(formulas, metrics))];
      assert rows[i] == GhostEntry(formulas, tasks, keys[i], d);
    }
  }

  method BuildScoreRows(formulas: Formulas, tasks: seq<TaskRow>, d: int) returns (rows: seq<(int, Assessment)>)
    ensures rows == ScoreRows(formulas, tasks, d)
  {
    var due := SortBy(ScoringLe, On(tasks, d));
    rows := [];
    for i := 0 to |due|
      invariant |rows| == i
      invariant forall k :: 0 <= k < i ==> rows[k] == (due[k].id, Scored(formulas, due[k]))
    {
      rows := rows + [(due[i].id, Scored(formulas, due[i]))];
    }
  }

  lemma StepsCompose(formulas: Formulas, tasks: seq<TaskRow>, before: Tables, scored: map<int, Assessment>,
                     ghostTime: map<(int, int), GhostRow>, assessments: map<int, Assessment>,
                     cycles: map<(int, int, string), Cycle>, norms: map<string, NormRow>, d: int)
    requires ghostTime == Upsert(before.ghostTime, GhostRows(formulas, tasks, d))
    requires scored == Upsert(before.assessments, ScoreRows(formulas, tasks, d))
    requires cycles == Rebuilt(formulas, before.cycles, JoinedOn(tasks, scored, d), d)
    requires norms == before.norms + NormsFor(formulas, tasks, d)
    requires assessments == Recomputed(scored, tasks, norms, d)
    ensures Tables(ghostTime, assessments, cycles, norms) == Assessed(formulas, tasks, before, d)
  {
  }

  // ---- The database -----------------------------------------------------------------------------

  class AssessDatabase {
    var tasks: seq<TaskRow>
    var ghostTime: map<(int, int), GhostRow>
    var assessments: map<int, Assessment>
    var cycles: map<(int, int, string), Cycle>
    var norms: map<string, NormRow>

    /** The primary key of tasks_normalized. */
    ghost predicate Valid()
      reads this
    {
      DistinctRows(tasks)
    }

    ghost function View(): Tables
      reads this
    {
      Tables(ghostTime, assessments, cycles, norms)
    }

    constructor (tasks: seq<TaskRow>)
      requires DistinctRows(tasks)
      ensures Valid() && this.tasks == tasks && View() == Tables(map[], map[], map[], map[])
    {
      this.tasks := tasks;
      ghostTime, assessments, cycles, norms := map[], map[], map[], map[];
    }

    /** `run_assess_ghost_time` */
    method RunGhostTime(formulas: Formulas, d: int)
      modifies this`ghostTime
      ensures ghostTime == Upsert(old(ghostTime), GhostRows(formulas, tasks, d))
    {
      var rows := BuildGhostRows(formulas, tasks, d);
      ghostTime := UpsertBatch(ghostTime, rows);
    }

    /** `run_assess_scoring` */
    method RunScoring(formulas: Formulas, d: int)
      modifies this`assessments
      ensures assessments == Upsert(old(assessments), ScoreRows(formulas, tasks, d))
    {
      var rows := BuildScoreRows(formulas, tasks, d);
      assessments := UpsertBatch(assessments, rows);
    }

    /** FETCH_AGGREGATION_INPUT_BY_DATE_SQL: by employee first; the collation of titles is the database's business. */
    method FetchAggregationInput(d: int) returns (rows: seq<Task>)
      ensures multiset(rows) == multiset(JoinedOn(tasks, assessments, d)) && ByEmployee(rows)
    {
      rows := SortBy(TaskLe, JoinedOn(tasks, assessments, d));
      TaskOrder();
      SortSorts(TaskLe, JoinedOn(tasks, assessments, d));
    }

    /** `run_assess_aggregation`: group by group, yet the outcome is that of aggregating the whole day at once. */
    method RunAggregation(formulas: Formulas, d: int)
      requires Valid()
      modifies this`cycles
      ensures cycles == Rebuilt(formulas, old(cycles), JoinedOn(tasks, assessments, d), d)
    {
      ghost var joined := JoinedOn(tasks, assessments, d);
      var rows := FetchAggregationInput(d);
      JoinedIds(tasks, assessments, d);
      var keys, grouped := GroupRows(rows);
      ghost var parts := Parts(keys, grouped);
      GroupsAscend(keys, grouped, rows);
      RebuildGroups(formulas, keys, grouped, rows, d);
      GroupsAggregateApart(formulas.cycles, parts);
      OrderDoesNotMatter(formulas.cycles, rows, joined);
      SameEmployees(rows, joined);
    }

    /** The loop over `grouped.items()`. */
    method RebuildGroups(formulas: Formulas, keys: seq<int>, grouped: map<int, seq<Task>>, ghost rows: seq<Task>, d: int)
      requires Grouped(keys, grouped, rows)
      modifies this`cycles
      ensures cycles == Upsert(Without(old(cycles), SetOf(keys), d),
                               CycleRows(Flatten(AggregateEach(formulas.cycles, Parts(keys, grouped)))))
    {
      ghost var each := AggregateEach(formulas.cycles, Parts(keys, grouped));
      assert Without(cycles, {}, d) == cycles;
      for i := 0 to |keys|
        invariant RowsOf(CycleRows(Flatten(each[..i])), SetOf(keys[..i]))
        invariant cycles == RebuiltSoFar(old(cycles), keys, each, d, i)
      {
        var e := keys[i];
        assert e in grouped;
        var found := AggregateOperationalCycles(formulas.cycles, grouped[e]);
        EmployeeRows(formulas.cycles, grouped[e], e);
        RebuildStep(old(cycles), keys, each, d, i);
        cycles := Without(cycles, {e}, d);
        cycles := UpsertBatch(cycles, CycleRows(found));
      }
      assert keys[..|keys|] == keys && each[..|keys|] == each;
    }

    /** `run_assess_bayesian_norms` for a target date and the seven days up to it. */
    method RunBayesianNorms(formulas: Formulas, d: int)
      modifies this`norms, this`assessments
      ensures norms == old(norms) + NormsFor(formulas, tasks, d)
      ensures assessments == Recomputed(old(assessments), tasks, norms, d)
    {
      var (lo, hi) := WindowBounds(d, 7);
      var stats := WindowStats(formulas, tasks, lo, hi);
      var rows := ComputeNormRows(stats, None, DEFAULT_PRIOR_WEIGHT);
      UpsertTable(norms, rows, NormsFor(formulas, tasks, d));
      norms := UpsertBatch(norms, Keyed(rows));
      assessments := Recomputed(assessments, tasks, norms, d);
    }

    /** `run_assess` */
    method RunAssess(formulas: Formulas, d: int)
      requires Valid()
      modifies this`ghostTime, this`assessments, this`cycles, this`norms
      ensures Valid() && View() == Assessed(formulas, tasks, old(View()), d)
    {
      ghost var before, rows := View(), tasks;
      RunGhostTime(formulas, d);
      RunScoring(formulas, d);
      ghost var scored := assessments;
      assert scored == Upsert(before.assessments, ScoreRows(formulas, rows, d));
      RunAggregation(formulas, d);
      assert cycles == Rebuilt(formulas, before.cycles, JoinedOn(rows, scored, d), d);
      RunBayesianNorms(formulas, d);
      StepsCompose(formulas, rows, before, scored, ghostTime, assessments, cycles, norms, d);
    }
  }
}
