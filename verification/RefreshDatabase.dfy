/**
 * The table refreshes as the runners carry them out: scoped deletes, batched inserts with constraint checks,
 * commit or rollback, and the advisory lock around a partition.
 */
module RefreshDatabase {
  import opened Common
  import opened Batching
  import opened RefreshTables
  import opened RefreshProtocol
  import opened RefreshRuns
  import opened NormalizePlan

  /**
   * `_normalize_sheet_rows`: emit what normalizes, count what is skipped or fails, and stop once the failures
   * exceed the limit.
   */
  method NormalizeSheetRows(rules: Rules, fetched: seq<Fetched>, maxErrors: nat)
    returns (rows: seq<NormTask>, skipped: nat, failed: nat, limitExceeded: bool)
    ensures limitExceeded <==> Failures(rules, fetched) > maxErrors
    ensures !limitExceeded ==> rows == EmittedRows(rules, fetched) && failed == Failures(rules, fetched)
    ensures !limitExceeded ==> |rows| + skipped + failed == |fetched|
  {
    rows, skipped, failed := [], 0, 0;
    for i := 0 to |fetched|
      invariant rows == EmittedRows(rules, fetched[..i])
      invariant failed == Failures(rules, fetched[..i]) <= maxErrors
      invariant |rows| + skipped + failed == i
    {
      assert fetched[..i + 1][..i] == fetched[..i];
      match Normalize(rules, fetched[i]) {
        case Skipped => skipped := skipped + 1;
        case Emitted(row) => rows := rows + [row];
        case Failed =>
          failed := failed + 1;
          if failed > maxErrors {
            FailuresGrow(rules, fetched, i + 1);
            return rows, skipped, failed, true;
          }
      }
    }
    assert fetched[..|fetched|] == fetched;
    limitExceeded := false;
  }

  lemma {:induction false} FailuresGrow(rules: Rules, fetched: seq<Fetched>, i: nat)
    requires i <= |fetched|
    ensures Failures(rules, fetched[..i]) <= Failures(rules, fetched)
    decreases |fetched| - i
  {
    if i == |fetched| {
      assert fetched[..i] == fetched;
    } else {
      assert fetched[..i + 1][..i] == fetched[..i];
      FailuresGrow(rules, fetched, i + 1);
    }
  }

  // ---- One insert at a time -----------------------------------------------------------

  lemma AfterNothing<T>(table: map<nat, T>, first: nat)
    ensures After(table, first, []) == table
  {
  }

  lemma AfterSnoc<T>(table: map<nat, T>, first: nat, rows: seq<T>, k: nat)
    requires k < |rows|
    ensures After(table, first, rows[..k + 1]) == After(table, first, rows[..k])[first + k := rows[k]]
  {
    assert rows[..k + 1][..k] == rows[..k];
  }

  lemma FreeAfter<T>(table: map<nat, T>, at: T -> Coord, first: nat, rows: seq<T>, place: Coord)
    requires forall i :: i in table ==> i < first
    ensures Free(After(table, first, rows), at, place) <==>
            Free(table, at, place) && forall j :: 0 <= j < |rows| ==> at(rows[j]) != place
  {
    var now := After(table, first, rows);
    assert forall j :: 0 <= j < |rows| ==> now[first + j] == rows[j];
    assert forall i :: i in table ==> now[i] == table[i];
  }

  /** The next row passes the check exactly when one more row fits; a row that fails rejects the whole list. */
  lemma FitsStep<T>(table: map<nat, T>, at: T -> Coord, first: nat, rows: seq<T>, k: nat)
    requires k < |rows| && Fits(table, at, rows[..k]) && forall i :: i in table ==> i < first
    ensures Fits(table, at, rows[..k + 1]) <==> Free(After(table, first, rows[..k]), at, at(rows[k]))
    ensures !Fits(table, at, rows[..k + 1]) ==> !Fits(table, at, rows)
  {
    FreeAfter(table, at, first, rows[..k], at(rows[k]));
    assert forall j :: 0 <= j < k ==> rows[..k][j] == rows[j];
    assert forall j :: 0 <= j <= k ==> rows[..k + 1][j] == rows[j];
  }

  /** `done` has been inserted row by row: it fits, and its rows stand under consecutive ids. */
  ghost predicate Inserted<T>(table: map<nat, T>, at: T -> Coord, first: nat, done: seq<T>, now: map<nat, T>, counter: nat) {
    Fits(table, at, done) && now == After(table, first, done) && counter == first + |done|
  }

  lemma InsertStep<T>(table: map<nat, T>, at: T -> Coord, first: nat, rows: seq<T>, k: nat, now: map<nat, T>, counter: nat)
    requires k < |rows| && Inserted(table, at, first, rows[..k], now, counter) && forall i :: i in table ==> i < first
    ensures Free(now, at, at(rows[k])) ==> Inserted(table, at, first, rows[..k + 1], now[counter := rows[k]], counter + 1)
    ensures !Free(now, at, at(rows[k])) ==> !Fits(table, at, rows)
  {
    FitsStep(table, at, first, rows, k);
    AfterSnoc(table, first, rows, k);
  }

  /** Inserting two lists in turn is inserting their concatenation. */
  lemma FitsAppend<T>(table: map<nat, T>, at: T -> Coord, first: nat, a: seq<T>, b: seq<T>)
    requires forall i :: i in table ==> i < first
    ensures Fits(table, at, a + b) <==> Fits(table, at, a) && Fits(After(table, first, a), at, b)
  {
    forall k | 0 <= k < |b|
      ensures Free(After(table, first, a), at, at(b[k])) <==>
              Free(table, at, at(b[k])) && forall j :: 0 <= j < |a| ==> at(a[j]) != at(b[k])
    {
      FreeAfter(table, at, first, a, at(b[k]));
    }
    var ab := a + b;
    assert forall j :: 0 <= j < |a| ==> ab[j] == a[j];
    assert forall k :: 0 <= k < |b| ==> ab[|a| + k] == b[k];
  }

  lemma AfterAppend<T>(table: map<nat, T>, first: nat, a: seq<T>, b: seq<T>, counter: nat)
    requires counter == first + |a|
    ensures After(After(table, first, a), counter, b) == After(table, first, a + b)
  {
  }

  /** One more batch. */
  lemma BatchStep<T>(table: map<nat, T>, at: T -> Coord, first: nat, batches: seq<seq<T>>, b: nat, counter: nat)
    requires b < |batches| && forall i :: i in table ==> i < first
    requires counter == first + |Flatten(batches[..b])|
    ensures var done, next := Flatten(batches[..b]), Flatten(batches[..b + 1]);
            && counter + |batches[b]| == first + |next|
            && After(After(table, first, done), counter, batches[b]) == After(table, first, next)
            && (Fits(table, at, next) <==> Fits(table, at, done) && Fits(After(table, first, done), at, batches[b]))
            && (Fits(table, at, Flatten(batches)) ==> Fits(table, at, next))
  {
    var done, next := Flatten(batches[..b]), Flatten(batches[..b + 1]);
    FlattenStep(batches, b);
    FlattenSplit(batches, b + 1);
    FitsAppend(table, at, first, done, batches[b]);
    FitsAppend(table, at, first, next, Flatten(batches[b + 1..]));
    AfterAppend(table, first, done, batches[b], counter);
  }

  datatype Outcome = LockTaken | Committed | Rejected

  class Database {
    var raw: map<nat, RawTask>
    var nextRaw: nat
    var norm: map<nat, NormTask>
    var nextNorm: nat
    var employees: map<string, nat>
    var nextEmployee: nat
    /** Advisory locks: lock hash to holding session. */
    var locks: map<int, nat>

    ghost function View(): Tables
      reads this
    {
      Tables(raw, nextRaw, norm, nextNorm, employees, nextEmployee)
    }

    ghost predicate Valid()
      reads this
    {
      IdsDrawn(View()) && forall e :: e in employees ==> employees[e] < nextEmployee
    }

    // ---- Parse ------------------------------------------------------------------------

    /** One insert into raw_tasks; false when the unique constraint rejects the row. The serial id is used up. */
    method InsertRaw(row: RawTask) returns (ok: bool)
      modifies this`raw, this`nextRaw
      ensures ok <==> Free(old(raw), RawAt, row.at)
      ensures raw == (if ok then old(raw)[old(nextRaw) := row] else old(raw)) && nextRaw == old(nextRaw) + 1
    {
      ok := forall i :: i in raw ==> raw[i].at != row.at;
      if ok {
        raw := raw[nextRaw := row];
      }
      nextRaw := nextRaw + 1;
    }

    /** `insert_raw_tasks_batch`: false when some row is rejected. */
    method InsertRawBatch(rows: seq<RawTask>) returns (ok: bool)
      requires forall i :: i in raw ==> i < nextRaw
      modifies this`raw, this`nextRaw
      ensures ok <==> Fits(old(raw), RawAt, rows)
      ensures ok ==> raw == After(old(raw), old(nextRaw), rows) && nextRaw == old(nextRaw) + |rows|
      ensures nextRaw >= old(nextRaw) && forall i :: i in raw ==> i < nextRaw
    {
      ghost var raw0, first := raw, nextRaw;
      AfterNothing(raw0, first);
      assert rows[..0] == [] && rows[..|rows|] == rows;
      for k := 0 to |rows|
        invariant Inserted(raw0, RawAt, first, rows[..k], raw, nextRaw)
      {
        InsertStep(raw0, RawAt, first, rows, k, raw, nextRaw);
        ok := InsertRaw(rows[k]);
        if !ok { return; }
      }
      ok := true;
    }

    /** The insert loop of the parse transaction, in batches of 1000. */
    method InsertRawRows(rows: seq<RawTask>) returns (ok: bool)
      requires forall i :: i in raw ==> i < nextRaw
      modifies this`raw, this`nextRaw
      ensures ok <==> Fits(old(raw), RawAt, rows)
      ensures ok ==> raw == After(old(raw), old(nextRaw), rows) && nextRaw == old(nextRaw) + |rows|
      ensures nextRaw >= old(nextRaw)
    {
      ghost var raw0, first := raw, nextRaw;
      AfterNothing(raw0, first);
      var cut := Chunked(rows, 1000);
      var batches := cut.value;
      for b := 0 to |batches|
        invariant forall i :: i in raw ==> i < nextRaw
        invariant Fits(raw0, RawAt, Flatten(batches[..b]))
        invariant raw == After(raw0, first, Flatten(batches[..b])) && nextRaw == first + |Flatten(batches[..b])|
      {
        BatchStep(raw0, RawAt, first, batches, b, nextRaw);
        ok := InsertRawBatch(batches[b]);
        if !ok { return; }
      }
      assert Flatten(batches[..|batches|]) == rows by { assert batches[..|batches|] == batches; }
      ok := true;
    }

    /** The parse transaction for one sheet. */
    method RefreshSheet(sheet: Sheet, rows: seq<RawTask>) returns (ok: bool)
      requires Valid()
      modifies this
      ensures Valid() && locks == old(locks)
      ensures ok <==> ParseCommits(old(View()), sheet, rows)
      ensures ok ==> View() == ParseResult(old(View()), sheet, rows)
      ensures !ok ==> RolledBack(old(View()), View())
    {
      var raw0, norm0 := raw, norm;
      var dates := RefreshDates(raw, sheet, rows);
      norm := DropNormDates(norm, sheet, dates);
      raw := DropRawDates(raw, sheet, dates);
      ok := References(norm, raw);
      if ok {
        raw := DropRawUndated(raw, sheet);
        ok := References(norm, raw);
      }
      if ok {
        ok := InsertRawRows(rows);
      }
      if !ok {
        raw, norm := raw0, norm0;
      }
    }

    // ---- Normalize --------------------------------------------------------------------

    /** `get_or_create_employee_id`: the upsert uses up a serial id whether or not the name is new. */
    method GetOrCreateEmployee(name: string) returns (id: nat)
      modifies this`employees, this`nextEmployee
      ensures employees == if name in old(employees) then old(employees) else old(employees)[name := old(nextEmployee)]
      ensures id == employees[name] && nextEmployee == old(nextEmployee) + 1
    {
      if name !in employees {
        employees := employees[name := nextEmployee];
      }
      nextEmployee := nextEmployee + 1;
      id := employees[name];
    }

    /** The employee loop of the guarded block. */
    method EnsureEmployees(names: set<string>)
      requires forall e :: e in employees ==> employees[e] < nextEmployee
      modifies this`employees, this`nextEmployee
      ensures EmployeesGrow(old(employees), old(nextEmployee), employees, nextEmployee, names)
      ensures forall e :: e in employees ==> employees[e] < nextEmployee
    {
      var todo := names;
      while todo != {}
        invariant todo <= names
        invariant EmployeesGrow(old(employees), old(nextEmployee), employees, nextEmployee, names - todo)
        invariant forall e :: e in employees ==> employees[e] < nextEmployee
        decreases todo
      {
        var name :| name in todo;
        var id := GetOrCreateEmployee(name);
        todo := todo - {name};
      }
      assert names - todo == names;
    }

    /** One insert into tasks_normalized; false when the foreign key or the unique constraint rejects the row. */
    method InsertNorm(row: NormTask) returns (ok: bool)
      modifies this`norm, this`nextNorm
      ensures ok <==> row.rawId in raw && Free(old(norm), NormAt, row.at)
      ensures norm == (if ok then old(norm)[old(nextNorm) := row] else old(norm)) && nextNorm == old(nextNorm) + 1
    {
      ok := row.rawId in raw && forall n :: n in norm ==> norm[n].at != row.at;
      if ok {
        norm := norm[nextNorm := row];
      }
      nextNorm := nextNorm + 1;
    }

    /** `insert_tasks_normalized_batch`: false when some row is rejected. */
    method InsertNormBatch(rows: seq<NormTask>) returns (ok: bool)
      requires forall n :: n in norm ==> n < nextNorm
      modifies this`norm, this`nextNorm
      ensures ok <==> (forall k :: 0 <= k < |rows| ==> rows[k].rawId in raw) && Fits(old(norm), NormAt, rows)
      ensures ok ==> norm == After(old(norm), old(nextNorm), rows) && nextNorm == old(nextNorm) + |rows|
      ensures nextNorm >= old(nextNorm) && forall n :: n in norm ==> n < nextNorm
    {
      ghost var norm0, first := norm, nextNorm;
      AfterNothing(norm0, first);
      assert rows[..0] == [] && rows[..|rows|] == rows;
      for k := 0 to |rows|
        invariant forall j :: 0 <= j < k ==> rows[j].rawId in raw
        invariant Inserted(norm0, NormAt, first, rows[..k], norm, nextNorm)
      {
        InsertStep(norm0, NormAt, first, rows, k, norm, nextNorm);
        ok := InsertNorm(rows[k]);
        if !ok { return; }
      }
      ok := true;
    }

    method InsertNormRows(rows: seq<NormTask>) returns (ok: bool)
      requires forall n :: n in norm ==> n < nextNorm
      modifies this`norm, this`nextNorm
      ensures ok <==> (forall k :: 0 <= k < |rows| ==> rows[k].rawId in raw) && Fits(old(norm), NormAt, rows)
      ensures ok ==> norm == After(old(norm), old(nextNorm), rows) && nextNorm == old(nextNorm) + |rows|
      ensures nextNorm >= old(nextNorm) && forall n :: n in norm ==> n < nextNorm
    {
      ghost var norm0, first := norm, nextNorm;
      AfterNothing(norm0, first);
      var cut := Chunked(rows, 1000);
      var batches: seq<seq<NormTask>> := cut.value;
      for b := 0 to |batches|
        invariant forall n :: n in norm ==> n < nextNorm
        invariant forall row :: row in Flatten(batches[..b]) ==> row.rawId in raw
        invariant Fits(norm0, NormAt, Flatten(batches[..b]))
        invariant norm == After(norm0, first, Flatten(batches[..b])) && nextNorm == first + |Flatten(batches[..b])|
      {
        BatchStep(norm0, NormAt, first, batches, b, nextNorm);
        FlattenStep(batches, b);
        FlattenSplit(batches, b + 1);
        ok := InsertNormBatch(batches[b]);
        if !ok {
          if k :| 0 <= k < |batches[b]| && batches[b][k].rawId !in raw {
            assert batches[b][k] in rows;
          }
          return;
        }
        assert forall row :: row in batches[b] ==> row.rawId in raw;
      }
      assert Flatten(batches[..|batches|]) == rows by { assert batches[..|batches|] == batches; }
      ok := true;
    }

    /** Scoped delete and inserts of one partition; nothing changes when some row is rejected. */
    method ReplaceRows(p: Partition, rows: seq<NormTask>) returns (ok: bool)
      requires forall n :: n in norm ==> n < nextNorm
      modifies this`norm, this`nextNorm
      ensures ok <==>
              (forall k :: 0 <= k < |rows| ==> rows[k].rawId in raw) && Fits(OutsidePartition(old(norm), p), NormAt, rows)
      ensures ok ==> norm == After(OutsidePartition(old(norm), p), old(nextNorm), rows) && nextNorm == old(nextNorm) + |rows|
      ensures !ok ==> norm == old(norm)
      ensures nextNorm >= old(nextNorm) && forall n :: n in norm ==> n < nextNorm
    {
      var norm0 := norm;
      norm := OutsidePartition(norm, p);
      ok := InsertNormRows(rows);
      if !ok {
        norm := norm0;
      }
    }

    /** Attach the employee ids, then replace the rows of the partition. */
    method ReplaceWithIds(p: Partition, rows: seq<NormTask>) returns (ok: bool)
      requires forall n :: n in norm ==> n < nextNorm
      modifies this`norm, this`nextNorm
      ensures ok <==>
              (forall k :: 0 <= k < |rows| ==> rows[k].rawId in raw) && Fits(OutsidePartition(old(norm), p), NormAt, rows)
      ensures ok ==> Replaced(old(norm), p, rows, old(nextNorm), employees, norm) && nextNorm == old(nextNorm) + |rows|
      ensures !ok ==> norm == old(norm)
      ensures nextNorm >= old(nextNorm) && forall n :: n in norm ==> n < nextNorm
    {
      var ids := employees;
      var rowsToInsert := seq(|rows|, k requires 0 <= k < |rows| => WithId(rows[k], ids));
      IdsDoNotMatter(raw, OutsidePartition(norm, p), rows, rowsToInsert);
      ok := ReplaceRows(p, rowsToInsert);
      if ok {
        InsertedIsReplaced(old(norm), p, rows, rowsToInsert, old(nextNorm), ids, norm);
      }
    }

    /**
     * The transaction inside the guarded block: employees, scoped delete, inserts, commit or rollback. `fault` is any
     * exception that is not a violated constraint.
     */
    method RewritePartition(p: Partition, rows: seq<NormTask>, fault: bool) returns (ok: bool)
      requires Valid()
      modifies this
      ensures Valid() && locks == old(locks)
      ensures ok <==> WriteCommits(old(View()), p, rows) && !fault
      ensures ok ==> WriteResult(old(View()), p, rows, View())
      ensures !ok ==> RolledBack(old(View()), View())
    {
      var employees0, norm0 := employees, norm;
      EnsureEmployees(Names(rows));
      ok := ReplaceWithIds(p, rows);
      ok := ok && !fault;
      if !ok {
        employees, norm := employees0, norm0;
      }
    }

    /** The guarded block: lock, rewrite the partition, unlock on every path. */
    method RefreshPartition(p: Partition, rows: seq<NormTask>, key: int, session: nat, fault: bool)
      returns (outcome: Outcome)
      requires Valid()
      modifies this
      ensures Valid() && locks == old(locks)
      ensures PartitionOutcome(old(View()), key in old(locks), p, rows, fault, outcome, View())
    {
      if key in locks { return LockTaken; }
      locks := locks[key := session];
      var ok := RewritePartition(p, rows, fault);
      outcome := if ok then Committed else Rejected;
      locks := locks - {key};
    }

    /**
     * The loop of `run_normalize` over the partitions of `plan` with their rows, uninterrupted by other writers. It stops
     * at the first partition that exceeds the error limit or meets a fault under its lock; `done` partitions come before.
     * Those of them whose lock was free end up exactly normalized, and nothing else changes. As steps of the process
     * `run` it is a segment of the interleavings of RefreshRuns.
     */
    method RunPartitions(cfg: Config, ghost snapshot: seq<Fetched>, plan: seq<Partition>, groups: seq<seq<Fetched>>, run: nat,
                         faults: nat -> bool, ghost s: System)
      returns (failed: bool, done: nat, ghost states: seq<System>, ghost steps: seq<Step>)
      requires Valid() && TablesOk(cfg.rules, View())
      requires IsSnapshot(cfg, View(), snapshot) && IsPlan(cfg, snapshot, plan)
      requires |groups| == |plan| && forall k :: 0 <= k < |plan| ==> groups[k] == Select(snapshot, plan[k])
      requires s.tables == View() && s.locks == locks && run !in s.runs
      modifies this
      ensures Valid() && raw == old(raw) && locks == old(locks)
      ensures done <= |plan| && (failed <==> done < |plan|)
      ensures failed ==> !Passes(cfg, snapshot, plan[done], locks, faults(done))
      ensures Worked(cfg, s, run, old(View()), snapshot, plan, done, locks, faults, View(), states, steps)
    {
      done := 0;
      ghost var t0, now, free := View(), View(), locks;
      states, steps := StartWork(cfg, s, run, now, snapshot, plan, free, faults);
      while done < |plan|
        invariant Valid() && done <= |plan| && raw == old(raw) && locks == free && now == View()
        invariant Worked(cfg, s, run, t0, snapshot, plan, done, free, faults, now, states, steps)
        invariant AtTodo(states, run, snapshot, plan[done..])
      {
        var passed;
        passed, now, states, steps := NormalizePartition(cfg, snapshot, plan, done, groups[done], run, faults, s, t0, now, states,
                                                         steps);
        if !passed {
          failed := true;
          return;
        }
        done := done + 1;
      }
      failed := false;
    }

    /** One turn of the loop of `run_normalize`; `t0` are the tables at the start of the run. */
    method NormalizePartition(cfg: Config, ghost snapshot: seq<Fetched>, plan: seq<Partition>, i: nat, fetched: seq<Fetched>,
                              run: nat, faults: nat -> bool, ghost s: System, ghost t0: Tables, ghost before: Tables,
                              ghost states0: seq<System>, ghost steps0: seq<Step>)
      returns (passed: bool, ghost now: Tables, ghost states: seq<System>, ghost steps: seq<Step>)
      requires Valid() && i < |plan| && IsPlan(cfg, snapshot, plan) && fetched == Select(snapshot, plan[i])
      requires before == View() && AtTodo(states0, run, snapshot, plan[i..])
      requires Worked(cfg, s, run, t0, snapshot, plan, i, locks, faults, before, states0, steps0)
      modifies this
      ensures Valid() && raw == old(raw) && locks == old(locks) && now == View()
      ensures passed <==> Passes(cfg, snapshot, plan[i], locks, faults(i))
      ensures passed ==> Worked(cfg, s, run, t0, snapshot, plan, i + 1, locks, faults, now, states, steps)
      ensures passed ==> AtTodo(states, run, snapshot, plan[i + 1..])
      ensures !passed ==> Worked(cfg, s, run, t0, snapshot, plan, i, locks, faults, now, states, steps)
    {
      var p := plan[i];
      var rows, skipped, failures, limitExceeded := NormalizeSheetRows(cfg.rules, fetched, cfg.maxErrorsPerSheet);
      if limitExceeded {
        states, steps := StopAtLimit(cfg, s, states0, steps0, run, snapshot, plan[i..]);
        return false, before, states, steps;
      }
      var outcome := RefreshPartition(p, rows, LockOf(cfg, p), run, faults(i));
      now := View();
      RunStep(cfg, t0, before, snapshot, plan, i, rows, faults(i), outcome, now, locks);
      states, steps := PartitionSegment(cfg, s, states0, steps0, run, snapshot, plan[i..], faults(i), outcome, now);
      assert plan[i..][1..] == plan[i + 1..];
      passed := outcome != Rejected;
    }

    /**
     * `run_normalize`, uninterrupted by other writers: it reads its snapshot, plans the partitions and works them off in
     * order. `faults` are the faults under the lock of partition 0, 1, ...
     */
    method RunNormalize(cfg: Config, run: nat, faults: nat -> bool, ghost s: System)
      returns (failed: bool, done: nat, ghost snapshot: seq<Fetched>, ghost plan: seq<Partition>, ghost states: seq<System>,
               ghost steps: seq<Step>)
      requires Valid() && TablesOk(cfg.rules, View())
      requires s.tables == View() && s.locks == locks && run !in s.runs
      modifies this
      ensures Valid() && TablesOk(cfg.rules, View())
      ensures raw == old(raw) && locks == old(locks)
      ensures IsSnapshot(cfg, old(View()), snapshot) && InFetchOrder(snapshot)
      ensures IsPlan(cfg, snapshot, plan) && PlanAscends(plan)
      ensures done <= |plan| && (failed <==> done < |plan|)
      ensures forall k :: 0 <= k < done ==> Passes(cfg, snapshot, plan[k], locks, faults(k))
      ensures failed ==> !Passes(cfg, snapshot, plan[done], locks, faults(done))
      ensures DoneIsExact(cfg, View(), plan[..done], locks)
      ensures OnlyWritten(cfg, old(View()), View(), plan[..done], locks)
      ensures IsSegment(cfg, s, states, steps, run) && EndsWith(states, View(), locks)
    {
      var fetched := FetchRawTasks(cfg, raw, View());
      var partitions, groups := PlanPartitions(cfg, fetched);
      snapshot, plan := fetched, partitions;
      failed, done, states, steps := RunPartitions(cfg, fetched, partitions, groups, run, faults, s);
    }
  }

  /** What the guarded block does to the tables, and how it ends. */
  ghost predicate PartitionOutcome(t: Tables, taken: bool, p: Partition, rows: seq<NormTask>, fault: bool,
                                   outcome: Outcome, t': Tables)
  {
    match outcome
    case LockTaken => taken && t' == t
    case Committed => !taken && WriteCommits(t, p, rows) && !fault && WriteResult(t, p, rows, t')
    case Rejected => !taken && (!WriteCommits(t, p, rows) || fault) && RolledBack(t, t')
  }

  /** The run gets past the partition: within the error limit, and no fault once its lock is taken. */
  predicate Passes(cfg: Config, snapshot: seq<Fetched>, p: Partition, locks: map<int, nat>, fault: bool) {
    Failures(cfg.rules, Select(snapshot, p)) <= cfg.maxErrorsPerSheet && (LockOf(cfg, p) in locks || !fault)
  }

  /** An undisturbed run that started at `t0` has written `done` and kept the rest. */
  ghost predicate Progress(cfg: Config, t0: Tables, t: Tables, snapshot: seq<Fetched>, done: seq<Partition>,
                           locks: map<int, nat>)
  {
    && TablesOk(cfg.rules, t) && IsSnapshot(cfg, t, snapshot)
    && DoneIsExact(cfg, t, done, locks) && OnlyWritten(cfg, t0, t, done, locks)
  }

  lemma NothingDone(cfg: Config, t: Tables, snapshot: seq<Fetched>, locks: map<int, nat>)
    requires TablesOk(cfg.rules, t) && IsSnapshot(cfg, t, snapshot)
    ensures Progress(cfg, t, t, snapshot, [], locks)
  {
  }

  /** The run gets past each of the first `done` partitions. */
  ghost predicate FirstPass(cfg: Config, snapshot: seq<Fetched>, plan: seq<Partition>, done: nat, locks: map<int, nat>,
                            faults: nat -> bool)
    requires done <= |plan|
  {
    forall k :: 0 <= k < done ==> Passes(cfg, snapshot, plan[k], locks, faults(k))
  }

  /** The first `done` partitions of the run are worked off, and the tables are `t`. */
  ghost predicate Worked(cfg: Config, s: System, run: nat, t0: Tables, snapshot: seq<Fetched>, plan: seq<Partition>, done: nat,
                         locks: map<int, nat>, faults: nat -> bool, t: Tables, states: seq<System>, steps: seq<Step>)
  {
    && done <= |plan| && FirstPass(cfg, snapshot, plan, done, locks, faults)
    && Progress(cfg, t0, t, snapshot, plan[..done], locks)
    && IsSegment(cfg, s, states, steps, run) && EndsWith(states, t, locks)
  }

  lemma StartWork(cfg: Config, s: System, run: nat, t: Tables, snapshot: seq<Fetched>, plan: seq<Partition>,
                  locks: map<int, nat>, faults: nat -> bool) returns (states: seq<System>, steps: seq<Step>)
    requires TablesOk(cfg.rules, t) && IsSnapshot(cfg, t, snapshot) && IsPlan(cfg, snapshot, plan)
    requires s.tables == t && s.locks == locks && run !in s.runs
    ensures Worked(cfg, s, run, t, snapshot, plan, 0, locks, faults, t, states, steps)
    ensures AtTodo(states, run, snapshot, plan[0..])
  {
    states, steps := BeginRun(cfg, s, run, snapshot, plan);
    assert plan[..0] == [] && plan[0..] == plan;
    NothingDone(cfg, t, snapshot, locks);
  }

  /** One partition of an undisturbed run: only a fault rejects the write, and what was exact stays exact. */
  lemma RunStep(cfg: Config, t0: Tables, t: Tables, snapshot: seq<Fetched>, plan: seq<Partition>, i: nat,
                rows: seq<NormTask>, fault: bool, outcome: Outcome, t': Tables, locks: map<int, nat>)
    requires i < |plan| && IsPlan(cfg, snapshot, plan) && Progress(cfg, t0, t, snapshot, plan[..i], locks)
    requires rows == EmittedRows(cfg.rules, Select(snapshot, plan[i]))
    requires PartitionOutcome(t, LockOf(cfg, plan[i]) in locks, plan[i], rows, fault, outcome, t')
    ensures outcome == Rejected <==> LockOf(cfg, plan[i]) !in locks && fault
    ensures Progress(cfg, t0, t', snapshot, if outcome == Rejected then plan[..i] else plan[..i + 1], locks)
  {
    ExactStep(cfg, t, snapshot, plan, i, rows, fault, outcome, t', locks);
    OneMoreWritten(cfg, t0, t, snapshot, plan[..i], plan[i], rows, fault, outcome, t', locks);
    TakeSnoc(plan, i);
  }

  lemma ExactStep(cfg: Config, t: Tables, snapshot: seq<Fetched>, plan: seq<Partition>, i: nat, rows: seq<NormTask>,
                  fault: bool, outcome: Outcome, t': Tables, locks: map<int, nat>)
    requires i < |plan| && TablesOk(cfg.rules, t) && IsSnapshot(cfg, t, snapshot) && IsPlan(cfg, snapshot, plan)
    requires DoneIsExact(cfg, t, plan[..i], locks)
    requires rows == EmittedRows(cfg.rules, Select(snapshot, plan[i]))
    requires PartitionOutcome(t, LockOf(cfg, plan[i]) in locks, plan[i], rows, fault, outcome, t')
    ensures outcome == Rejected <==> LockOf(cfg, plan[i]) !in locks && fault
    ensures t'.raw == t.raw && TablesOk(cfg.rules, t') && IsSnapshot(cfg, t', snapshot)
    ensures DoneIsExact(cfg, t', if outcome == Rejected then plan[..i] else plan[..i + 1], locks)
  {
    var p := plan[i];
    PlannedIsFresh(cfg, t, snapshot, plan, i);
    FreshWriteCommits(cfg.rules, t, p, Select(snapshot, p));
    TakeSnoc(plan, i);
    if outcome == Committed {
      OneMorePartition(cfg, t, snapshot, plan[..i], p, t', locks);
    } else if outcome == Rejected {
      RollbackKeepsTablesOk(cfg.rules, t, t');
      forall q | q in plan[..i] && LockOf(cfg, q) !in locks
        ensures Exact(cfg.rules, t', q)
      {
        RollbackKeepsExact(cfg.rules, t, t', q);
      }
    }
  }

  ghost predicate DoneIsExact(cfg: Config, t: Tables, done: seq<Partition>, locks: map<int, nat>) {
    forall p :: p in done && LockOf(cfg, p) !in locks ==> Exact(cfg.rules, t, p)
  }

  ghost predicate IsWritten(cfg: Config, done: seq<Partition>, locks: map<int, nat>, row: NormTask) {
    exists p :: p in done && LockOf(cfg, p) !in locks && NormIn(row, p)
  }

  /** Only rows of the partitions in `done` whose lock was free have changed; raw rows and employee ids are kept. */
  ghost predicate OnlyWritten(cfg: Config, t: Tables, t': Tables, done: seq<Partition>, locks: map<int, nat>) {
    && t'.raw == t.raw
    && (forall e :: e in t.employees ==> e in t'.employees && t'.employees[e] == t.employees[e])
    && (forall n :: n in t.norm && !IsWritten(cfg, done, locks, t.norm[n]) ==> n in t'.norm && t'.norm[n] == t.norm[n])
    && (forall n :: n in t'.norm && !IsWritten(cfg, done, locks, t'.norm[n]) ==> n in t.norm && t'.norm[n] == t.norm[n])
  }

  lemma OneMoreWritten(cfg: Config, t0: Tables, t: Tables, snapshot: seq<Fetched>, done: seq<Partition>, p: Partition,
                       rows: seq<NormTask>, fault: bool, outcome: Outcome, t': Tables, locks: map<int, nat>)
    requires OnlyWritten(cfg, t0, t, done, locks) && IdsDrawn(t)
    requires rows == EmittedRows(cfg.rules, Select(snapshot, p))
    requires PartitionOutcome(t, LockOf(cfg, p) in locks, p, rows, fault, outcome, t')
    ensures OnlyWritten(cfg, t0, t', if outcome == Rejected then done else done + [p], locks)
  {
    match outcome
    case LockTaken => MoreMayBeWritten(cfg, t0, t, done, p, locks);
    case Rejected =>
    case Committed =>
      MoreMayBeWritten(cfg, t0, t, done, p, locks);
      RowsStayInPartition(cfg.rules, snapshot, p);
      RowsOutsideKept(t, p, rows, t');
      WriteIsAllowed(cfg, t0, t, done + [p], p, t', locks);
  }

  lemma WrittenGrows(cfg: Config, done: seq<Partition>, p: Partition, locks: map<int, nat>, row: NormTask)
    requires IsWritten(cfg, done, locks, row)
    ensures IsWritten(cfg, done + [p], locks, row)
  {
    var q :| q in done && LockOf(cfg, q) !in locks && NormIn(row, q);
    assert q in done + [p];
  }

  lemma MoreMayBeWritten(cfg: Config, t0: Tables, t: Tables, done: seq<Partition>, p: Partition, locks: map<int, nat>)
    requires OnlyWritten(cfg, t0, t, done, locks)
    ensures OnlyWritten(cfg, t0, t, done + [p], locks)
  {
    forall row | IsWritten(cfg, done, locks, row)
      ensures IsWritten(cfg, done + [p], locks, row)
    {
      WrittenGrows(cfg, done, p, locks, row);
    }
  }

  /** A change confined to an unlocked partition of `done` is allowed. */
  lemma WriteIsAllowed(cfg: Config, t0: Tables, t: Tables, done: seq<Partition>, p: Partition, t': Tables,
                       locks: map<int, nat>)
    requires OnlyWritten(cfg, t0, t, done, locks) && p in done && LockOf(cfg, p) !in locks
    requires t'.raw == t.raw
    requires forall e :: e in t.employees ==> e in t'.employees && t'.employees[e] == t.employees[e]
    requires forall n :: n in t.norm && !NormIn(t.norm[n], p) ==> n in t'.norm && t'.norm[n] == t.norm[n]
    requires forall n :: n in t'.norm && !NormIn(t'.norm[n], p) ==> n in t.norm && t'.norm[n] == t.norm[n]
    ensures OnlyWritten(cfg, t0, t', done, locks)
  {
    assert forall row :: NormIn(row, p) ==> IsWritten(cfg, done, locks, row);
  }

  /** A committed write of `p` touches no row outside `p`. */
  lemma RowsOutsideKept(t: Tables, p: Partition, rows: seq<NormTask>, t': Tables)
    requires WriteResult(t, p, rows, t') && AllIn(rows, p) && IdsDrawn(t)
    ensures forall n :: n in t.norm && !NormIn(t.norm[n], p) ==> n in t'.norm && t'.norm[n] == t.norm[n]
    ensures forall n :: n in t'.norm && !NormIn(t'.norm[n], p) ==> n in t.norm && t'.norm[n] == t.norm[n]
  {
    forall n | n in t'.norm && n >= t.nextNorm
      ensures NormIn(t'.norm[n], p)
    {
      assert NormIn(rows[n - t.nextNorm], p);
    }
  }

  // ---- The run as a segment of the interleavings --------------------------------------------------

  /** A path of steps of process `run` from `s`. */
  ghost predicate IsSegment(cfg: Config, s: System, states: seq<System>, steps: seq<Step>, run: nat) {
    IsPath(cfg, states, steps) && states[0] == s && forall k :: 0 <= k < |steps| ==> StepOf(steps[k]) == Some(run)
  }

  ghost predicate EndsWith(states: seq<System>, t: Tables, locks: map<int, nat>) {
    states != [] && states[|states| - 1].tables == t && states[|states| - 1].locks == locks
  }

  /** The last state has the run between two partitions, with `todo` still ahead. */
  ghost predicate AtTodo(states: seq<System>, run: nat, snapshot: seq<Fetched>, todo: seq<Partition>) {
    && states != [] && run in states[|states| - 1].runs
    && var r := states[|states| - 1].runs[run];
    && r.snapshot == snapshot && r.todo == todo && r.phase == Planning
  }

  lemma Extend(cfg: Config, s: System, states: seq<System>, steps: seq<Step>, run: nat, next: System, step: Step)
    requires IsSegment(cfg, s, states, steps, run)
    requires Next(cfg, states[|states| - 1], next, step) && StepOf(step) == Some(run)
    ensures IsSegment(cfg, s, states + [next], steps + [step], run)
  {
    ExtendPath(cfg, states, steps, next, step);
  }

  lemma BeginRun(cfg: Config, s: System, run: nat, snapshot: seq<Fetched>, plan: seq<Partition>)
    returns (states: seq<System>, steps: seq<Step>)
    requires run !in s.runs && IsSnapshot(cfg, s.tables, snapshot) && IsPlan(cfg, snapshot, plan)
    ensures IsSegment(cfg, s, states, steps, run) && EndsWith(states, s.tables, s.locks)
    ensures AtTodo(states, run, snapshot, plan)
  {
    var begun := s.(runs := s.runs[run := Run(snapshot, s.parses, plan, Planning)]);
    Extend(cfg, s, [s], [], run, begun, Begin(run, snapshot, plan));
    states, steps := [s] + [begun], [] + [Begin(run, snapshot, plan)];
  }

  lemma StopAtLimit(cfg: Config, s: System, states: seq<System>, steps: seq<Step>, run: nat, snapshot: seq<Fetched>,
                    todo: seq<Partition>)
    returns (states': seq<System>, steps': seq<Step>)
    requires IsSegment(cfg, s, states, steps, run) && AtTodo(states, run, snapshot, todo) && todo != []
    requires Failures(cfg.rules, Select(snapshot, todo[0])) > cfg.maxErrorsPerSheet
    ensures IsSegment(cfg, s, states', steps', run)
    ensures EndsWith(states', states[|states| - 1].tables, states[|states| - 1].locks)
  {
    var u := states[|states| - 1];
    var v := u.(runs := u.runs[run := u.runs[run].(phase := Finished)]);
    Extend(cfg, s, states, steps, run, v, ErrorLimit(run));
    states', steps' := states + [v], steps + [ErrorLimit(run)];
  }

  /** The guarded block is the steps TryLock, Write and Unlock, or TryLock alone if the lock is taken. */
  lemma PartitionSegment(cfg: Config, s: System, states: seq<System>, steps: seq<Step>, run: nat, snapshot: seq<Fetched>,
                         todo: seq<Partition>, fault: bool, outcome: Outcome, t': Tables)
    returns (states': seq<System>, steps': seq<Step>)
    requires IsSegment(cfg, s, states, steps, run) && AtTodo(states, run, snapshot, todo) && todo != []
    requires Failures(cfg.rules, Select(snapshot, todo[0])) <= cfg.maxErrorsPerSheet
    requires var u := states[|states| - 1];
             PartitionOutcome(u.tables, LockOf(cfg, todo[0]) in u.locks, todo[0],
                              EmittedRows(cfg.rules, Select(snapshot, todo[0])), fault, outcome, t')
    ensures IsSegment(cfg, s, states', steps', run) && EndsWith(states', t', states[|states| - 1].locks)
    ensures outcome != Rejected ==> AtTodo(states', run, snapshot, todo[1..])
  {
    var u, r := states[|states| - 1], states[|states| - 1].runs[run];
    var key := LockOf(cfg, todo[0]);
    if outcome == LockTaken {
      var v := u.(runs := u.runs[run := r.(todo := todo[1..])]);
      Extend(cfg, s, states, steps, run, v, TryLock(run));
      states', steps' := states + [v], steps + [TryLock(run)];
    } else {
      var v := u.(runs := u.runs[run := r.(phase := Guarded)], locks := u.locks[key := run]);
      Extend(cfg, s, states, steps, run, v, TryLock(run));
      var w := v.(tables := t', runs := v.runs[run := r.(phase := Settled(outcome == Committed))]);
      Extend(cfg, s, states + [v], steps + [TryLock(run)], run, w, Write(run, fault));
      var last := if outcome == Committed then r.(todo := todo[1..], phase := Planning) else r.(phase := Finished);
      var x := w.(locks := w.locks - {key}, runs := w.runs[run := last]);
      Extend(cfg, s, states + [v] + [w], steps + [TryLock(run)] + [Write(run, fault)], run, x, Unlock(run));
      states' := states + [v] + [w] + [x];
      steps' := steps + [TryLock(run)] + [Write(run, fault)] + [Unlock(run)];
      assert x.locks == u.locks;
    }
  }

  /** A segment that starts where a history ends continues the history. */
  lemma SegmentContinuesHistory(cfg: Config, states: seq<System>, steps: seq<Step>, more: seq<System>, path: seq<Step>)
    requires IsHistory(cfg, states, steps) && IsPath(cfg, more, path) && more[0] == states[|states| - 1]
    ensures IsHistory(cfg, states + more[1..], steps + path)
  {
    var all, way := states + more[1..], steps + path;
    forall k | 0 <= k < |way|
      ensures Next(cfg, all[k], all[k + 1], way[k])
    {
      if k < |steps| {
        assert all[k] == states[k] && all[k + 1] == states[k + 1];
      } else {
        var m := k - |steps|;
        assert all[k] == more[m] && all[k + 1] == more[m + 1] && way[k] == path[m];
      }
    }
  }

  /** The parse transaction is the step Parse. */
  lemma ParseIsAStep(cfg: Config, s: System, sheet: Sheet, rows: seq<RawTask>, ok: bool, t': Tables) returns (s': System)
    requires forall k :: 0 <= k < |rows| ==> rows[k].at.sheet == sheet
    requires ok <==> ParseCommits(s.tables, sheet, rows)
    requires if ok then t' == ParseResult(s.tables, sheet, rows) else RolledBack(s.tables, t')
    ensures Next(cfg, s, s', Parse(sheet, rows, false)) && s'.tables == t' && s'.locks == s.locks && s'.runs == s.runs
  {
    s' := s.(tables := t', parses := if ok then s.parses[sheet := Version(s.parses, sheet) + 1] else s.parses);
  }

  /** Writing one more partition from a fresh snapshot makes it exact and leaves the earlier ones exact. */
  lemma OneMorePartition(cfg: Config, t: Tables, snapshot: seq<Fetched>, done: seq<Partition>, p: Partition,
                         t': Tables, locks: map<int, nat>)
    requires TablesOk(cfg.rules, t) && DoneIsExact(cfg, t, done, locks) && p !in done
    requires Fresh(t, p, Select(snapshot, p)) && SnapshotAgrees(t, Select(snapshot, p))
    requires WriteResult(t, p, EmittedRows(cfg.rules, Select(snapshot, p)), t')
    ensures TablesOk(cfg.rules, t') && DoneIsExact(cfg, t', done + [p], locks)
  {
    FreshWriteCommits(cfg.rules, t, p, Select(snapshot, p));
    WriteKeepsTablesOk(cfg.rules, t, p, Select(snapshot, p), t');
    FreshWriteIsExact(cfg.rules, t, p, Select(snapshot, p), t');
    forall q | q in done && LockOf(cfg, q) !in locks
      ensures Exact(cfg.rules, t', q)
    {
      OtherPartitionUntouched(cfg.rules, t, p, snapshot, t', q);
    }
  }

  lemma InsertedIsReplaced(norm: map<nat, NormTask>, p: Partition, rows: seq<NormTask>, withIds: seq<NormTask>,
                           first: nat, employees: map<string, nat>, norm': map<nat, NormTask>)
    requires forall n :: n in norm ==> n < first
    requires |withIds| == |rows| && forall k :: 0 <= k < |rows| ==> withIds[k] == WithId(rows[k], employees)
    requires norm' == After(OutsidePartition(norm, p), first, withIds)
    ensures Replaced(norm, p, rows, first, employees, norm')
  {
    AfterShape(OutsidePartition(norm, p), first, withIds, norm');
  }

  /** Attaching employee ids changes neither coordinates nor references. */
  lemma IdsDoNotMatter(raw: map<nat, RawTask>, norm: map<nat, NormTask>, rows: seq<NormTask>, withIds: seq<NormTask>)
    requires |withIds| == |rows|
    requires forall k :: 0 <= k < |rows| ==> withIds[k].at == rows[k].at && withIds[k].rawId == rows[k].rawId
    ensures (forall k :: 0 <= k < |rows| ==> rows[k].rawId in raw) && Fits(norm, NormAt, rows) <==>
            (forall k :: 0 <= k < |withIds| ==> withIds[k].rawId in raw) && Fits(norm, NormAt, withIds)
  {
  }

  lemma PlannedIsFresh(cfg: Config, t: Tables, snapshot: seq<Fetched>, plan: seq<Partition>, i: nat)
    requires IsSnapshot(cfg, t, snapshot) && IsPlan(cfg, snapshot, plan) && i < |plan|
    ensures Fresh(t, plan[i], Select(snapshot, plan[i])) && SnapshotAgrees(t, Select(snapshot, plan[i]))
    ensures plan[i] !in plan[..i]
  {
    var p := plan[i];
    assert p in plan;
    SelectMembers(snapshot, p);
    SelectKeepsDistinct(snapshot, p);
    var rows := Select(snapshot, p);
    forall k | 0 <= k < |rows|
      ensures RawIn(rows[k].task, p) && rows[k].id in t.raw && t.raw[rows[k].id] == rows[k].task
    {
      assert rows[k] in rows;
    }
  }
}
