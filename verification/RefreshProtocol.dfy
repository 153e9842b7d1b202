/**
 * Parse and normalize runs interleaved over the shared tables. A normalize run fetches a snapshot, then
 * refreshes one partition after the other, each under an advisory lock; a parse refresh is one transaction.
 */
module RefreshProtocol {
  import opened Common
  import opened RefreshTables

  // ---- The table invariant ---------------------------------------------------------------

  /** `row` is the normalization of the live raw row it points at, up to the user-editable flag. */
  ghost predicate Faithful(rules: Rules, t: Tables, row: NormTask) {
    && row.rawId in t.raw
    && row.facts.employeeNorm in t.employees
    && var verdict := Normalize(rules, Fetched(row.rawId, t.raw[row.rawId]));
    && verdict.Emitted?
    && row == verdict.row.(employeeId := t.employees[row.facts.employeeNorm], confirmed := row.confirmed)
  }

  ghost predicate AllFaithful(rules: Rules, t: Tables) {
    forall n :: n in t.norm ==> Faithful(rules, t, t.norm[n])
  }

  /** Serial ids were drawn from the counters. */
  ghost predicate IdsDrawn(t: Tables) {
    && (forall i :: i in t.raw ==> i < t.nextRaw)
    && (forall n :: n in t.norm ==> n < t.nextNorm)
  }

  /** No two employees share an id. */
  ghost predicate EmployeesOk(t: Tables) {
    && (forall e :: e in t.employees ==> t.employees[e] < t.nextEmployee)
    && (forall d, e :: d in t.employees && e in t.employees && t.employees[d] == t.employees[e] ==> d == e)
  }

  ghost predicate TablesOk(rules: Rules, t: Tables) {
    && IdsDrawn(t)
    && UniqueCoords(t.raw)
    && UniqueNormCoords(t.norm)
    && AllFaithful(rules, t)
    && EmployeesOk(t)
  }

  /** The raw row behind a normalized row has its coordinates and date. */
  lemma PointsAtItsRaw(rules: Rules, t: Tables, n: nat)
    requires AllFaithful(rules, t) && n in t.norm
    ensures var row := t.norm[n];
            row.rawId in t.raw && t.raw[row.rawId].at == row.at && t.raw[row.rawId].workDate == Some(row.workDate)
  {
    assert Faithful(rules, t, t.norm[n]);
  }

  /** Normalized rows stay faithful while their raw rows and employees stay. */
  lemma FaithfulCarries(rules: Rules, t: Tables, t': Tables)
    requires AllFaithful(rules, t)
    requires forall n :: n in t'.norm ==> n in t.norm && t'.norm[n] == t.norm[n].(confirmed := t'.norm[n].confirmed)
    requires forall n :: n in t'.norm ==>
               t.norm[n].rawId in t'.raw && t.norm[n].rawId in t.raw && t'.raw[t.norm[n].rawId] == t.raw[t.norm[n].rawId]
    requires forall e :: e in t.employees ==> e in t'.employees && t'.employees[e] == t.employees[e]
    ensures AllFaithful(rules, t')
  {
    forall n | n in t'.norm
      ensures Faithful(rules, t', t'.norm[n])
    {
      assert Faithful(rules, t, t.norm[n]);
    }
  }

  /** Every normalized row of `p` is the unedited normalization of its raw row. */
  ghost predicate NothingElse(rules: Rules, t: Tables, p: Partition) {
    forall n :: n in t.norm && NormIn(t.norm[n], p) ==>
      && Faithful(rules, t, t.norm[n])
      && t.norm[n].confirmed == Normalize(rules, Fetched(t.norm[n].rawId, t.raw[t.norm[n].rawId])).row.confirmed
  }

  /** Every raw row of `p` that normalizes has a normalized row. */
  ghost predicate NothingMissing(rules: Rules, t: Tables, p: Partition) {
    forall i :: i in t.raw && RawIn(t.raw[i], p) && Normalize(rules, Fetched(i, t.raw[i])).Emitted? ==>
      exists n :: n in t.norm && t.norm[n].rawId == i
  }

  /** `tasks_normalized` restricted to `p` is exactly the normalization of `raw_tasks` restricted to `p`. */
  ghost predicate Exact(rules: Rules, t: Tables, p: Partition) {
    NothingElse(rules, t, p) && NothingMissing(rules, t, p)
  }

  // ---- Parse refresh --------------------------------------------------------------------

  ghost predicate RowsOfSheet(sheet: Sheet, rows: seq<RawTask>) {
    && (forall k :: 0 <= k < |rows| ==> rows[k].at.sheet == sheet)
    && (forall i, j :: 0 <= i < j < |rows| ==> rows[i].at != rows[j].at)
  }

  function OtherSheetsRaw(raw: map<nat, RawTask>, sheet: Sheet): map<nat, RawTask> {
    map i | i in raw && raw[i].at.sheet != sheet :: raw[i]
  }

  function OtherSheetsNorm(norm: map<nat, NormTask>, sheet: Sheet): map<nat, NormTask> {
    map n | n in norm && norm[n].at.sheet != sheet :: norm[n]
  }

  lemma RawDeletesClearSheet(raw: map<nat, RawTask>, sheet: Sheet, dates: set<int>)
    requires forall i :: i in raw && raw[i].at.sheet == sheet && raw[i].workDate.Some? ==> raw[i].workDate.value in dates
    ensures DropRawUndated(DropRawDates(raw, sheet, dates), sheet) == OtherSheetsRaw(raw, sheet)
  {
    forall i | i in raw
      ensures i in DropRawUndated(DropRawDates(raw, sheet, dates), sheet) <==> raw[i].at.sheet != sheet
    {
    }
  }

  lemma NormDeletesClearSheet(norm: map<nat, NormTask>, sheet: Sheet, dates: set<int>)
    requires forall n :: n in norm && norm[n].at.sheet == sheet ==> norm[n].workDate in dates
    ensures DropNormDates(norm, sheet, dates) == OtherSheetsNorm(norm, sheet)
  {
    forall n | n in norm
      ensures n in DropNormDates(norm, sheet, dates) <==> norm[n].at.sheet != sheet
    {
    }
  }

  /** The date-scoped deletes clear the whole sheet, in both tables. */
  lemma DeletesClearSheet(rules: Rules, t: Tables, sheet: Sheet, rows: seq<RawTask>)
    requires TablesOk(rules, t)
    ensures AfterDeletes(t, sheet, rows) ==
            t.(norm := OtherSheetsNorm(t.norm, sheet), raw := OtherSheetsRaw(t.raw, sheet))
  {
    var dates := RefreshDates(t.raw, sheet, rows);
    forall n | n in t.norm && t.norm[n].at.sheet == sheet
      ensures t.norm[n].workDate in dates
    {
      PointsAtItsRaw(rules, t, n);
    }
    NormDeletesClearSheet(t.norm, sheet, dates);
    RawDeletesClearSheet(t.raw, sheet, dates);
  }

  /** The rows of the other sheets, under their ids. */
  ghost predicate OtherSheetsKept(t: Tables, t': Tables, sheet: Sheet) {
    && (forall i :: i in t.raw && t.raw[i].at.sheet != sheet ==> i in t'.raw && t'.raw[i] == t.raw[i])
    && (forall i :: i in t'.raw && t'.raw[i].at.sheet != sheet ==> i in t.raw && t'.raw[i] == t.raw[i])
    && (forall n :: n in t.norm && t.norm[n].at.sheet != sheet ==> n in t'.norm && t'.norm[n] == t.norm[n])
    && (forall n :: n in t'.norm && t'.norm[n].at.sheet != sheet ==> n in t.norm && t'.norm[n] == t.norm[n])
  }

  /** The sheet holds exactly `rows`, numbered from `first`, and nothing normalized. */
  ghost predicate SheetHolds(t: Tables, sheet: Sheet, rows: seq<RawTask>, first: nat) {
    && (forall i :: i in t.raw && t.raw[i].at.sheet == sheet <==> first <= i < first + |rows|)
    && (forall i :: first <= i < first + |rows| ==> i in t.raw && t.raw[i] == rows[i - first])
    && (forall n :: n in t.norm ==> t.norm[n].at.sheet != sheet)
  }

  /**
   * A parse refresh never trips the RESTRICT foreign key or the unique constraint. Afterwards the sheet's raw
   * rows are exactly the parsed ones under fresh ids, no normalized row of the sheet is left, and the other
   * sheets are untouched.
   */
  lemma ParseRefresh(rules: Rules, t: Tables, sheet: Sheet, rows: seq<RawTask>)
    requires TablesOk(rules, t) && RowsOfSheet(sheet, rows)
    ensures ParseCommits(t, sheet, rows)
    ensures OtherSheetsKept(t, ParseResult(t, sheet, rows), sheet)
    ensures SheetHolds(ParseResult(t, sheet, rows), sheet, rows, t.nextRaw)
  {
    NothingStopsParse(rules, t, sheet, rows);
    DeletesClearSheet(rules, t, sheet, rows);
    InsertParsed(t, sheet, rows, ParseResult(t, sheet, rows));
  }

  lemma NothingStopsParse(rules: Rules, t: Tables, sheet: Sheet, rows: seq<RawTask>)
    requires TablesOk(rules, t) && RowsOfSheet(sheet, rows)
    ensures ParseCommits(t, sheet, rows)
  {
    DeletesClearSheet(rules, t, sheet, rows);
    LeftRowsStillRefer(rules, t, sheet);
  }

  lemma LeftRowsStillRefer(rules: Rules, t: Tables, sheet: Sheet)
    requires AllFaithful(rules, t)
    ensures References(OtherSheetsNorm(t.norm, sheet), OtherSheetsRaw(t.raw, sheet))
  {
    forall n | n in t.norm { PointsAtItsRaw(rules, t, n); }
  }

  /** Inserting the parsed rows into what the deletes leave. */
  lemma InsertParsed(t: Tables, sheet: Sheet, rows: seq<RawTask>, t': Tables)
    requires forall i :: i in t.raw ==> i < t.nextRaw
    requires forall k :: 0 <= k < |rows| ==> rows[k].at.sheet == sheet
    requires t'.raw == After(OtherSheetsRaw(t.raw, sheet), t.nextRaw, rows) && t'.norm == OtherSheetsNorm(t.norm, sheet)
    ensures OtherSheetsKept(t, t', sheet) && SheetHolds(t', sheet, rows, t.nextRaw)
  {
    AfterShape(OtherSheetsRaw(t.raw, sheet), t.nextRaw, rows, t'.raw);
  }

  lemma ParseKeepsTablesOk(rules: Rules, t: Tables, sheet: Sheet, rows: seq<RawTask>)
    requires TablesOk(rules, t) && RowsOfSheet(sheet, rows)
    ensures TablesOk(rules, ParseResult(t, sheet, rows))
  {
    ParseRefresh(rules, t, sheet, rows);
    var t' := ParseResult(t, sheet, rows);
    forall n | n in t'.norm { PointsAtItsRaw(rules, t, n); }
    FaithfulCarries(rules, t, t');
    forall i, j | i in t'.raw && j in t'.raw && t'.raw[i].at == t'.raw[j].at
      ensures i == j
    {
      if t'.raw[i].at.sheet == sheet {
        assert t'.raw[i] == rows[i - t.nextRaw] && t'.raw[j] == rows[j - t.nextRaw];
      }
    }
  }

  lemma NormUnchanged(t: Tables, t': Tables, sheet: Sheet)
    requires OtherSheetsKept(t, t', sheet)
    requires forall n :: n in t.norm ==> t.norm[n].at.sheet != sheet
    requires forall n :: n in t'.norm ==> t'.norm[n].at.sheet != sheet
    ensures t'.norm == t.norm
  {
  }

  /** A second refresh with the same rows changes nothing but the surrogate ids. */
  lemma ReparseOnlyRenumbers(rules: Rules, t: Tables, sheet: Sheet, rows: seq<RawTask>)
    requires TablesOk(rules, t) && RowsOfSheet(sheet, rows)
    ensures var once := ParseResult(t, sheet, rows);
            var twice := ParseResult(once, sheet, rows);
            && ParseCommits(once, sheet, rows)
            && OtherSheetsKept(once, twice, sheet) && twice.norm == once.norm
            && SheetHolds(once, sheet, rows, t.nextRaw) && SheetHolds(twice, sheet, rows, once.nextRaw)
  {
    ParseRefresh(rules, t, sheet, rows);
    ParseKeepsTablesOk(rules, t, sheet, rows);
    var once := ParseResult(t, sheet, rows);
    ParseRefresh(rules, once, sheet, rows);
    NormUnchanged(once, ParseResult(once, sheet, rows), sheet);
  }

  // ---- Normalize refresh ----------------------------------------------------------------

  /** The snapshot rows of `p` are still the live raw rows of `p`. */
  ghost predicate Fresh(t: Tables, p: Partition, fetched: seq<Fetched>) {
    && (forall k :: 0 <= k < |fetched| ==>
          RawIn(fetched[k].task, p) && fetched[k].id in t.raw && t.raw[fetched[k].id] == fetched[k].task)
    && (forall i :: i in t.raw && RawIn(t.raw[i], p) ==> Fetched(i, t.raw[i]) in fetched)
    && (forall i, j :: 0 <= i < j < |fetched| ==> fetched[i].id != fetched[j].id)
  }

  /** A partition whose snapshot is fresh can always be written. */
  lemma FreshWriteCommits(rules: Rules, t: Tables, p: Partition, fetched: seq<Fetched>)
    requires TablesOk(rules, t) && Fresh(t, p, fetched)
    ensures WriteCommits(t, p, EmittedRows(rules, fetched))
  {
    forall i, j | 0 <= i < j < |fetched|
      ensures fetched[i].task.at != fetched[j].task.at
    {
      assert t.raw[fetched[i].id] == fetched[i].task && t.raw[fetched[j].id] == fetched[j].task;
    }
    EmittedCoordsDiffer(rules, fetched);
    var rows := EmittedRows(rules, fetched);
    forall k | 0 <= k < |rows|
      ensures rows[k].rawId in t.raw && t.raw[rows[k].rawId].at == rows[k].at && RawIn(t.raw[rows[k].rawId], p)
    {
      var f := EmittedComesFromFetch(rules, fetched, k);
    }
    forall n, k | n in OutsidePartition(t.norm, p) && 0 <= k < |rows|
      ensures t.norm[n].at != rows[k].at
    {
      PointsAtItsRaw(rules, t, n);
    }
  }

  /** Snapshot rows that are still there are unchanged, because ids are never reused. */
  ghost predicate SnapshotAgrees(t: Tables, fetched: seq<Fetched>) {
    forall k :: 0 <= k < |fetched| && fetched[k].id in t.raw ==> t.raw[fetched[k].id] == fetched[k].task
  }

  lemma WrittenAt(t: Tables, p: Partition, rows: seq<NormTask>, t': Tables, k: nat)
    requires k < |rows| && WriteResult(t, p, rows, t')
    ensures t.nextNorm + k in t'.norm && t'.norm[t.nextNorm + k] == WithId(rows[k], t'.employees)
    ensures rows[k].facts.employeeNorm in t'.employees
  {
    var n := t.nextNorm + k;
    assert n - t.nextNorm == k;
    assert rows[k].facts.employeeNorm in Names(rows);
  }

  /** The k-th committed row is the normalization of a live raw row of the snapshot. */
  lemma WrittenRow(rules: Rules, t: Tables, p: Partition, fetched: seq<Fetched>, t': Tables, n: nat) returns (f: nat)
    requires SnapshotAgrees(t, fetched)
    requires var rows := EmittedRows(rules, fetched);
             t.nextNorm <= n < t.nextNorm + |rows| && WriteCommits(t, p, rows) && WriteResult(t, p, rows, t')
    ensures n in t'.norm && Faithful(rules, t', t'.norm[n])
    ensures f < |fetched| && fetched[f] == Fetched(t'.norm[n].rawId, t'.raw[t'.norm[n].rawId])
    ensures t'.norm[n].confirmed == Normalize(rules, fetched[f]).row.confirmed
  {
    var rows := EmittedRows(rules, fetched);
    var k := n - t.nextNorm;
    WrittenAt(t, p, rows, t', k);
    f := EmittedComesFromFetch(rules, fetched, k);
    EmittedIsFaithful(rules, t', fetched[f], rows[k], t'.norm[n]);
  }

  /** What normalizes from a live raw row, with its employee id, is faithful. */
  lemma EmittedIsFaithful(rules: Rules, t: Tables, f: Fetched, row: NormTask, stored: NormTask)
    requires Normalize(rules, f) == Emitted(row) && row.rawId == f.id
    requires f.id in t.raw && t.raw[f.id] == f.task
    requires row.facts.employeeNorm in t.employees && stored == WithId(row, t.employees)
    ensures Faithful(rules, t, stored) && f == Fetched(stored.rawId, t.raw[stored.rawId])
    ensures stored.confirmed == Normalize(rules, f).row.confirmed
  {
  }

  /** Committed rows are normalizations of live raw rows. */
  lemma WrittenRowsAreFaithful(rules: Rules, t: Tables, p: Partition, fetched: seq<Fetched>, t': Tables)
    requires TablesOk(rules, t) && SnapshotAgrees(t, fetched)
    requires WriteCommits(t, p, EmittedRows(rules, fetched)) && WriteResult(t, p, EmittedRows(rules, fetched), t')
    ensures AllFaithful(rules, t')
  {
    forall n | n in t'.norm
      ensures Faithful(rules, t', t'.norm[n])
    {
      if n < t.nextNorm {
        assert Faithful(rules, t, t.norm[n]);
      } else {
        var f := WrittenRow(rules, t, p, fetched, t', n);
      }
    }
  }

  /** Where a row of the result comes from. */
  lemma RowAfterWrite(t: Tables, p: Partition, rows: seq<NormTask>, t': Tables, n: nat)
    requires IdsDrawn(t) && WriteResult(t, p, rows, t') && n in t'.norm
    ensures n < t.nextNorm ==> n in OutsidePartition(t.norm, p) && n in t.norm && t'.norm[n] == t.norm[n]
    ensures n >= t.nextNorm ==> n - t.nextNorm < |rows| && t'.norm[n].at == rows[n - t.nextNorm].at
  {
  }

  lemma NewRowStandsApart(t: Tables, p: Partition, rows: seq<NormTask>, t': Tables, i: nat, j: nat)
    requires IdsDrawn(t) && WriteCommits(t, p, rows) && WriteResult(t, p, rows, t')
    requires i in t'.norm && j in t'.norm && i < j && t.nextNorm <= j
    ensures t'.norm[i].at != t'.norm[j].at
  {
    RowAfterWrite(t, p, rows, t', i);
    RowAfterWrite(t, p, rows, t', j);
    assert NormAt(t'.norm[j]) == NormAt(rows[j - t.nextNorm]);
    if i < t.nextNorm {
      assert NormAt(OutsidePartition(t.norm, p)[i]) == t'.norm[i].at;
    } else {
      assert NormAt(rows[i - t.nextNorm]) == t'.norm[i].at;
    }
  }

  lemma WrittenCoordsDiffer(t: Tables, p: Partition, rows: seq<NormTask>, t': Tables)
    requires IdsDrawn(t) && UniqueNormCoords(t.norm) && WriteCommits(t, p, rows) && WriteResult(t, p, rows, t')
    ensures UniqueNormCoords(t'.norm)
  {
    forall i, j | i in t'.norm && j in t'.norm && i < j
      ensures t'.norm[i].at != t'.norm[j].at
    {
      if j < t.nextNorm {
        RowAfterWrite(t, p, rows, t', i);
        RowAfterWrite(t, p, rows, t', j);
      } else {
        NewRowStandsApart(t, p, rows, t', i, j);
      }
    }
  }

  lemma WriteKeepsTablesOk(rules: Rules, t: Tables, p: Partition, fetched: seq<Fetched>, t': Tables)
    requires TablesOk(rules, t) && SnapshotAgrees(t, fetched)
    requires WriteCommits(t, p, EmittedRows(rules, fetched)) && WriteResult(t, p, EmittedRows(rules, fetched), t')
    ensures TablesOk(rules, t')
  {
    WrittenRowsAreFaithful(rules, t, p, fetched, t');
    WrittenCoordsDiffer(t, p, EmittedRows(rules, fetched), t');
  }

  lemma WriteLeavesNothingElse(rules: Rules, t: Tables, p: Partition, fetched: seq<Fetched>, t': Tables)
    requires IdsDrawn(t) && SnapshotAgrees(t, fetched)
    requires WriteCommits(t, p, EmittedRows(rules, fetched)) && WriteResult(t, p, EmittedRows(rules, fetched), t')
    ensures NothingElse(rules, t', p)
  {
    forall n | n in t'.norm && NormIn(t'.norm[n], p)
      ensures Faithful(rules, t', t'.norm[n])
      ensures t'.norm[n].confirmed == Normalize(rules, Fetched(t'.norm[n].rawId, t'.raw[t'.norm[n].rawId])).row.confirmed
    {
      assert n >= t.nextNorm;
      var f := WrittenRow(rules, t, p, fetched, t', n);
    }
  }

  lemma WriteLeavesNothingMissing(rules: Rules, t: Tables, p: Partition, fetched: seq<Fetched>, t': Tables)
    requires forall i :: i in t.raw && RawIn(t.raw[i], p) ==> Fetched(i, t.raw[i]) in fetched
    requires WriteResult(t, p, EmittedRows(rules, fetched), t')
    ensures NothingMissing(rules, t', p)
  {
    var rows := EmittedRows(rules, fetched);
    forall i | i in t'.raw && RawIn(t'.raw[i], p) && Normalize(rules, Fetched(i, t'.raw[i])).Emitted?
      ensures exists n :: n in t'.norm && t'.norm[n].rawId == i
    {
      var k :| 0 <= k < |fetched| && fetched[k] == Fetched(i, t.raw[i]);
      FetchIsEmitted(rules, fetched, k);
      var j :| 0 <= j < |rows| && rows[j] == Normalize(rules, fetched[k]).row;
      WrittenAt(t, p, rows, t', j);
    }
  }

  /** A partition written from a fresh snapshot holds exactly the normalization of its raw rows. */
  lemma FreshWriteIsExact(rules: Rules, t: Tables, p: Partition, fetched: seq<Fetched>, t': Tables)
    requires TablesOk(rules, t) && Fresh(t, p, fetched)
    requires WriteResult(t, p, EmittedRows(rules, fetched), t')
    ensures Exact(rules, t', p)
  {
    FreshWriteCommits(rules, t, p, fetched);
    WriteLeavesNothingElse(rules, t, p, fetched, t');
    WriteLeavesNothingMissing(rules, t, p, fetched, t');
  }
}
