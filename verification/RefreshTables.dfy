/**
 * The tables `raw_tasks`, `tasks_normalized` and `employees`, their constraints, and the two transactions
 * that rewrite them: the parse refresh of one sheet and the normalize refresh of one sheet and date.
 */
module RefreshTables {
  import opened Common
  import opened Text

  datatype Sheet = Sheet(spreadsheet: string, title: string)

  datatype Coord = Coord(sheet: Sheet, row: int, col: int, line: int)

  datatype RawTask = RawTask(at: Coord, cellA1: string, ingestedAt: int, employee: Option<string>,
                             workDate: Option<int>, text: string)

  datatype TimeInfo = TimeInfo(start: Option<int>, end: Option<int>, duration: Option<int>)

  /** The columns of a normalized row that only restate or derive from its raw row. */
  datatype Facts = Facts(employeeRaw: string, employeeNorm: string, matchMethod: string, textRaw: string,
                         textNorm: string, time: Option<TimeInfo>, logged: bool, smart: bool, micro: bool,
                         waiting: bool, category: Option<string>, ingestedAt: int)

  datatype NormTask = NormTask(rawId: nat, at: Coord, workDate: int, employeeId: nat, confirmed: bool, facts: Facts)

  /** A sheet and a date: the unit that normalize refreshes. */
  datatype Partition = Partition(sheet: Sheet, date: int)

  datatype Fetched = Fetched(id: nat, task: RawTask)

  predicate RawIn(task: RawTask, p: Partition) {
    task.at.sheet == p.sheet && task.workDate == Some(p.date)
  }

  predicate NormIn(row: NormTask, p: Partition) {
    row.at.sheet == p.sheet && row.workDate == p.date
  }

  // ---- Normalizing one row ----------------------------------------------------------

  /** The text recognizers of the settings; None stands for a raised exception. */
  datatype Rules = Rules(resolve: string -> Option<(string, string)>,
                         extract: string -> Option<(Option<TimeInfo>, string)>,
                         categorize: string -> Option<string>,
                         isWaiting: string -> bool,
                         isPending: string -> bool)

  datatype Verdict = Skipped | Failed | Emitted(row: NormTask)

  function Normalize(rules: Rules, f: Fetched): Verdict {
    var raw := f.task;
    var employeeRaw := if raw.employee.Some? then Strip(raw.employee.value) else "";
    if raw.workDate.None? || employeeRaw == "" then Skipped
    else
      match (rules.resolve(employeeRaw), rules.extract(raw.text)) {
        case (Some((name, matchedBy)), Some((time, text))) =>
          var duration := if time.Some? then time.value.duration else None;
          var waiting := rules.isWaiting(text);
          var confirmed := duration.Some? || (Strip(text) != "" && !waiting && !rules.isPending(text));
          Emitted(NormTask(f.id, raw.at, raw.workDate.value, 0, confirmed, Facts(
            employeeRaw, name, matchedBy, raw.text, text, time, duration.Some?, |Strip(text)| >= 20,
            duration.Some? && duration.value <= 15, waiting, rules.categorize(text), raw.ingestedAt)))
        case _ => Failed
      }
  }

  /** The rows emitted for a partition, in fetch order. */
  function EmittedRows(rules: Rules, fetched: seq<Fetched>): seq<NormTask> {
    if fetched == [] then []
    else
      var last := Normalize(rules, fetched[|fetched| - 1]);
      EmittedRows(rules, fetched[..|fetched| - 1]) + if last.Emitted? then [last.row] else []
  }

  function Failures(rules: Rules, fetched: seq<Fetched>): nat {
    if fetched == [] then 0
    else Failures(rules, fetched[..|fetched| - 1]) + if Normalize(rules, fetched[|fetched| - 1]).Failed? then 1 else 0
  }

  lemma {:induction false} EmittedComesFromFetch(rules: Rules, fetched: seq<Fetched>, i: nat) returns (k: nat)
    requires i < |EmittedRows(rules, fetched)|
    ensures k < |fetched| && Normalize(rules, fetched[k]) == Emitted(EmittedRows(rules, fetched)[i])
    ensures EmittedRows(rules, fetched)[i].rawId == fetched[k].id && EmittedRows(rules, fetched)[i].at == fetched[k].task.at
  {
    var front := fetched[..|fetched| - 1];
    if i < |EmittedRows(rules, front)| {
      k := EmittedComesFromFetch(rules, front, i);
    } else {
      k := |fetched| - 1;
    }
  }

  lemma {:induction false} FetchIsEmitted(rules: Rules, fetched: seq<Fetched>, k: nat)
    requires k < |fetched| && Normalize(rules, fetched[k]).Emitted?
    ensures Normalize(rules, fetched[k]).row in EmittedRows(rules, fetched)
  {
    if k < |fetched| - 1 {
      FetchIsEmitted(rules, fetched[..|fetched| - 1], k);
    }
  }

  ghost predicate DistinctCoords(rows: seq<NormTask>) {
    forall i, j :: 0 <= i < j < |rows| ==> NormAt(rows[i]) != NormAt(rows[j])
  }

  lemma {:induction false} EmittedCoordsDiffer(rules: Rules, fetched: seq<Fetched>)
    requires forall i, j :: 0 <= i < j < |fetched| ==> fetched[i].task.at != fetched[j].task.at
    ensures DistinctCoords(EmittedRows(rules, fetched))
  {
    if fetched != [] {
      var front, last := fetched[..|fetched| - 1], fetched[|fetched| - 1];
      EmittedCoordsDiffer(rules, front);
      var before := EmittedRows(rules, front);
      forall i | 0 <= i < |before|
        ensures before[i].at != last.task.at
      {
        var k := EmittedComesFromFetch(rules, front, i);
        assert fetched[k].task.at != fetched[|fetched| - 1].task.at;
      }
    }
  }

  // ---- Tables -------------------------------------------------------------------------

  datatype Tables = Tables(raw: map<nat, RawTask>, nextRaw: nat,
                           norm: map<nat, NormTask>, nextNorm: nat,
                           employees: map<string, nat>, nextEmployee: nat)

  /** Inserted rows draw consecutive serial ids. */
  function Numbered<T>(rows: seq<T>, from: nat): (r: map<nat, T>)
    ensures forall i :: i in r <==> from <= i < from + |rows|
    ensures forall i :: i in r ==> r[i] == rows[i - from]
  {
    if rows == [] then map[]
    else Numbered(rows[..|rows| - 1], from)[from + |rows| - 1 := rows[|rows| - 1]]
  }

  /** The table after inserting `rows`. */
  function After<T>(table: map<nat, T>, first: nat, rows: seq<T>): map<nat, T> {
    table + Numbered(rows, first)
  }

  lemma AfterShape<T>(table: map<nat, T>, first: nat, rows: seq<T>, table': map<nat, T>)
    requires table' == After(table, first, rows) && forall i :: i in table ==> i < first
    ensures forall i :: i in table' <==> i in table || first <= i < first + |rows|
    ensures forall i :: i in table ==> table'[i] == table[i]
    ensures forall i :: first <= i < first + |rows| ==> table'[i] == rows[i - first]
  {
  }

  ghost predicate UniqueCoords(raw: map<nat, RawTask>) {
    forall i, j :: i in raw && j in raw && raw[i].at == raw[j].at ==> i == j
  }

  ghost predicate UniqueNormCoords(norm: map<nat, NormTask>) {
    forall i, j :: i in norm && j in norm && norm[i].at == norm[j].at ==> i == j
  }

  function RawAt(row: RawTask): Coord { row.at }

  function NormAt(row: NormTask): Coord { row.at }

  /** No row of `table` sits at `place`: what the unique constraint of either table asks of a new row. */
  predicate Free<T>(table: map<nat, T>, at: T -> Coord, place: Coord) {
    forall i :: i in table ==> at(table[i]) != place
  }

  /** All of `rows` can be inserted into `table`. */
  ghost predicate Fits<T>(table: map<nat, T>, at: T -> Coord, rows: seq<T>) {
    && (forall i, j :: 0 <= i < j < |rows| ==> at(rows[i]) != at(rows[j]))
    && (forall k :: 0 <= k < |rows| ==> Free(table, at, at(rows[k])))
  }

  /** `fk_tasks_normalized_raw_task_id` */
  predicate References(norm: map<nat, NormTask>, raw: map<nat, RawTask>) {
    forall n :: n in norm ==> norm[n].rawId in raw
  }

  /** A rolled-back transaction leaves the rows alone; serial counters may have moved on. */
  ghost predicate RolledBack(t: Tables, t': Tables) {
    && t'.raw == t.raw && t'.norm == t.norm && t'.employees == t.employees
    && t'.nextRaw >= t.nextRaw && t'.nextNorm >= t.nextNorm && t'.nextEmployee >= t.nextEmployee
  }

  // ---- Parse: refresh of one sheet ------------------------------------------------------

  function RefreshDates(raw: map<nat, RawTask>, sheet: Sheet, rows: seq<RawTask>): set<int> {
    (set i | i in raw && raw[i].at.sheet == sheet && raw[i].workDate.Some? :: raw[i].workDate.value)
    + (set k | 0 <= k < |rows| && rows[k].workDate.Some? :: rows[k].workDate.value)
  }

  function DropNormDates(norm: map<nat, NormTask>, sheet: Sheet, dates: set<int>): map<nat, NormTask> {
    map n | n in norm && !(norm[n].at.sheet == sheet && norm[n].workDate in dates) :: norm[n]
  }

  function DropRawDates(raw: map<nat, RawTask>, sheet: Sheet, dates: set<int>): map<nat, RawTask> {
    map i | i in raw && !(raw[i].at.sheet == sheet && raw[i].workDate.Some? && raw[i].workDate.value in dates) :: raw[i]
  }

  function DropRawUndated(raw: map<nat, RawTask>, sheet: Sheet): map<nat, RawTask> {
    map i | i in raw && !(raw[i].at.sheet == sheet && raw[i].workDate.None?) :: raw[i]
  }

  /** What the three scoped deletes leave. */
  function AfterDeletes(t: Tables, sheet: Sheet, rows: seq<RawTask>): Tables {
    var dates := RefreshDates(t.raw, sheet, rows);
    t.(norm := DropNormDates(t.norm, sheet, dates), raw := DropRawUndated(DropRawDates(t.raw, sheet, dates), sheet))
  }

  ghost predicate ParseCommits(t: Tables, sheet: Sheet, rows: seq<RawTask>) {
    var left := AfterDeletes(t, sheet, rows);
    && References(left.norm, left.raw)
    && Fits(left.raw, RawAt, rows)
  }

  ghost function ParseResult(t: Tables, sheet: Sheet, rows: seq<RawTask>): Tables {
    var left := AfterDeletes(t, sheet, rows);
    left.(raw := After(left.raw, t.nextRaw, rows), nextRaw := t.nextRaw + |rows|)
  }

  // ---- Normalize: refresh of one partition ---------------------------------------------

  function OutsidePartition(norm: map<nat, NormTask>, p: Partition): map<nat, NormTask> {
    map n | n in norm && !NormIn(norm[n], p) :: norm[n]
  }

  /** `get_or_create_employee_id` for all names of a partition: ids are kept or freshly drawn, never shared. */
  ghost predicate EmployeesGrow(ids: map<string, nat>, next: nat, ids': map<string, nat>, next': nat, names: set<string>) {
    && ids'.Keys == ids.Keys + names
    && next' >= next
    && (forall e :: e in ids ==> ids'[e] == ids[e])
    && (forall e :: e in ids' && e !in ids ==> next <= ids'[e] < next')
    && (forall d, e :: d in ids' && e in ids' && d !in ids && e !in ids && d != e ==> ids'[d] != ids'[e])
  }

  function Names(rows: seq<NormTask>): set<string> {
    set k | 0 <= k < |rows| :: rows[k].facts.employeeNorm
  }

  /** `_with_employee_id` */
  function WithId(row: NormTask, employees: map<string, nat>): NormTask {
    row.(employeeId := if row.facts.employeeNorm in employees then employees[row.facts.employeeNorm] else 0)
  }

  /** Foreign key and unique constraint let all rows in. */
  ghost predicate WriteCommits(t: Tables, p: Partition, rows: seq<NormTask>) {
    && (forall k :: 0 <= k < |rows| ==> rows[k].rawId in t.raw)
    && Fits(OutsidePartition(t.norm, p), NormAt, rows)
  }

  /** `norm'` is `norm` with the rows of `p` replaced by `rows`, numbered from `first`. */
  ghost predicate Replaced(norm: map<nat, NormTask>, p: Partition, rows: seq<NormTask>, first: nat,
                           employees: map<string, nat>, norm': map<nat, NormTask>) {
    && (forall n :: n in norm' <==> n in OutsidePartition(norm, p) || first <= n < first + |rows|)
    && (forall n :: n in norm' && n < first ==> norm'[n] == norm[n])
    && (forall n :: first <= n < first + |rows| ==> norm'[n] == WithId(rows[n - first], employees))
  }

  ghost predicate WriteResult(t: Tables, p: Partition, rows: seq<NormTask>, t': Tables) {
    && EmployeesGrow(t.employees, t.nextEmployee, t'.employees, t'.nextEmployee, Names(rows))
    && t'.raw == t.raw && t'.nextRaw == t.nextRaw
    && Replaced(t.norm, p, rows, t.nextNorm, t'.employees, t'.norm)
    && t'.nextNorm == t.nextNorm + |rows|
  }
}
