/** The tables of the assess layer and what its four steps write (WorkAI/assess/runner.py, WorkAI/assess/queries.py). */
module AssessTables {
  import opened Common
  import opened Sorting
  import opened Totals
  import opened Upserts
  import opened Aggregation
  import opened BayesianNorms

  /** A row of tasks_normalized, as far as the assess queries read it. */
  datatype TaskRow = TaskRow(id: int, employee: int, date: int, spreadsheet: string, title: string, row: int, col: int,
                             line: int, text: string, category: Option<string>, duration: Option<int>, micro: bool,
                             waiting: bool, smart: bool, confirmed: bool, timeSource: string)

  datatype GhostRow = GhostRow(workday: int, logged: int, unaccounted: int, trust: real)

  datatype Assessment = Assessment(employee: int, date: int, norm: Option<int>, delta: Option<int>,
                                   quality: Option<real>, smart: Option<real>)

  /** The four tables assess owns, without timestamps and serial ids. */
  datatype Tables = Tables(ghostTime: map<(int, int), GhostRow>, assessments: map<int, Assessment>,
                           cycles: map<(int, int, string), Cycle>, norms: map<string, NormRow>)

  /** The scoring formulas and STDDEV_SAMP. */
  datatype Formulas = Formulas(cycles: Lib, trust: (int, int, int) -> real, quality: TaskRow -> real,
                               smart: TaskRow -> real, stddev: seq<int> -> Option<real>)

  ghost predicate DistinctRows(tasks: seq<TaskRow>) {
    forall i, j :: 0 <= i < j < |tasks| ==> tasks[i].id != tasks[j].id
  }

  function On(tasks: seq<TaskRow>, d: int): seq<TaskRow> {
    Where((t: TaskRow) => t.date == d, tasks)
  }

  // ---- Step 1: ghost time -----------------------------------------------------------------

  predicate IntLe(a: int, b: int) { a <= b }

  /** SELECT DISTINCT employee_id ... ORDER BY employee_id */
  function Employees(rows: seq<TaskRow>): seq<int> {
    if rows == [] then []
    else
      var before, e := Employees(rows[..|rows| - 1]), rows[|rows| - 1].employee;
      if e in before then before else Insert(IntLe, e, before)
  }

  datatype DayMetrics = DayMetrics(logged: int, total: nat, none: int, unconfirmed: int)

  function Logged(t: TaskRow): int { if t.duration.Some? then t.duration.value else 0 }
  function NoSource(t: TaskRow): int { if t.timeSource == "none" then 1 else 0 }
  function Unconfirmed(t: TaskRow): int { if t.confirmed then 0 else 1 }

  /** FETCH_DAY_METRICS_SQL */
  function Metrics(tasks: seq<TaskRow>, employee: int, d: int): DayMetrics {
    var rows := Where((t: TaskRow) => t.date == d && t.employee == employee, tasks);
    DayMetrics(SumBy(Logged, rows), |rows|, SumBy(NoSource, rows), SumBy(Unconfirmed, rows))
  }

  function GhostOf(formulas: Formulas, m: DayMetrics): GhostRow {
    GhostRow(480, m.logged, if 480 - m.logged > 0 then 480 - m.logged else 0,
             formulas.trust(m.total, m.none, m.unconfirmed))
  }

  function GhostEntry(formulas: Formulas, tasks: seq<TaskRow>, employee: int, d: int): ((int, int), GhostRow) {
    ((employee, d), GhostOf(formulas, Metrics(tasks, employee, d)))
  }

  function GhostRows(formulas: Formulas, tasks: seq<TaskRow>, d: int): seq<((int, int), GhostRow)> {
    var keys := Employees(On(tasks, d));
    seq(|keys|, i requires 0 <= i < |keys| => GhostEntry(formulas, tasks, keys[i], d))
  }

  // ---- Step 2: scoring --------------------------------------------------------------------

  predicate ScoringLe(s: TaskRow, t: TaskRow) {
    s.employee < t.employee || (s.employee == t.employee && s.id <= t.id)
  }

  function Scored(formulas: Formulas, t: TaskRow): Assessment {
    Assessment(t.employee, t.date, None, None, Some(formulas.quality(t)), Some(formulas.smart(t)))
  }

  function ScoreRows(formulas: Formulas, tasks: seq<TaskRow>, d: int): seq<(int, Assessment)> {
    var rows := SortBy(ScoringLe, On(tasks, d));
    seq(|rows|, i requires 0 <= i < |rows| => (rows[i].id, Scored(formulas, rows[i])))
  }

  // ---- Step 3: cycles ---------------------------------------------------------------------

  /** One row of FETCH_AGGREGATION_INPUT_BY_DATE_SQL: the task left-joined with its scores. */
  function Joined(t: TaskRow, assessments: map<int, Assessment>): Task {
    Task(t.id, t.employee, t.date, t.spreadsheet, t.title, t.row, t.col, t.line, t.text, t.category, t.duration,
         t.micro, t.waiting,
         if t.id in assessments then assessments[t.id].quality else None,
         if t.id in assessments then assessments[t.id].smart else None)
  }

  function JoinedOn(tasks: seq<TaskRow>, assessments: map<int, Assessment>, d: int): (r: seq<Task>)
    ensures |r| == |On(tasks, d)| && forall i :: 0 <= i < |r| ==> r[i] == Joined(On(tasks, d)[i], assessments)
  {
    seq(|On(tasks, d)|, i requires 0 <= i < |On(tasks, d)| => Joined(On(tasks, d)[i], assessments))
  }

  function Quantize3(x: Option<real>): Option<real> {
    if x.None? then None else Some(RoundHalfAway(x.value * 1000.0) as real / 1000.0)
  }

  /** The upsert rows of some cycles: natural keys, averages to three places. */
  function CycleRows(cycles: seq<Cycle>): (r: seq<((int, int, string), Cycle)>)
    ensures |r| == |cycles|
  {
    seq(|cycles|, i requires 0 <= i < |cycles| =>
      ((cycles[i].employee, cycles[i].date, cycles[i].key),
       cycles[i].(quality := Quantize3(cycles[i].quality), smart := Quantize3(cycles[i].smart))))
  }

  /** DELETE_OPERATIONAL_CYCLES_FOR_EMPLOYEE_DAY_SQL, for several employees. */
  function Without(cycles: map<(int, int, string), Cycle>, employees: set<int>, d: int): map<(int, int, string), Cycle> {
    map k | k in cycles && !(k.0 in employees && k.1 == d) :: cycles[k]
  }

  function EmployeesIn(tasks: seq<Task>): set<int> { set t | t in tasks :: t.employee }

  /** The cycles of every employee in `tasks` are replaced, as if all tasks were aggregated at once. */
  function Rebuilt(formulas: Formulas, cycles: map<(int, int, string), Cycle>, tasks: seq<Task>, d: int)
    : map<(int, int, string), Cycle>
  {
    Upsert(Without(cycles, EmployeesIn(tasks), d), CycleRows(Aggregate(formulas.cycles, tasks)))
  }

  // ---- Step 4: norms ----------------------------------------------------------------------

  /** TRIM(text): blanks only. */
  function SqlTrim(s: string): string
    decreases |s|
  {
    if s != "" && s[0] == ' ' then SqlTrim(s[1..])
    else if s != "" && s[|s| - 1] == ' ' then SqlTrim(s[..|s| - 1])
    else s
  }

  /** COALESCE(NULLIF(TRIM(task_category), ''), 'uncategorized') */
  function SqlCategory(t: TaskRow): string {
    if t.category.None? || SqlTrim(t.category.value) == "" then "uncategorized" else SqlTrim(t.category.value)
  }

  predicate Observed(t: TaskRow, lo: int, hi: int) {
    lo <= t.date <= hi && t.duration.Some? && t.duration.value >= 0
  }

  function Categories(rows: seq<TaskRow>): seq<string> {
    if rows == [] then []
    else
      var before, c := Categories(rows[..|rows| - 1]), SqlCategory(rows[|rows| - 1]);
      if c in before then before else Insert(StringLe, c, before)
  }

  function Durations(rows: seq<TaskRow>): seq<int> {
    seq(|rows|, i requires 0 <= i < |rows| => Logged(rows[i]))
  }

  function StatOf(formulas: Formulas, rows: seq<TaskRow>, category: string): Stat {
    var mine := Where((t: TaskRow) => SqlCategory(t) == category, rows);
    Stat(category, |mine|, if mine == [] then None else Some(SumBy(Logged, mine) as real / |mine| as real),
         formulas.stddev(Durations(mine)))
  }

  function WindowRows(tasks: seq<TaskRow>, lo: int, hi: int): seq<TaskRow> {
    Where((t: TaskRow) => Observed(t, lo, hi), tasks)
  }

  /** FETCH_WINDOW_CATEGORY_STATS_SQL */
  function WindowStats(formulas: Formulas, tasks: seq<TaskRow>, lo: int, hi: int): seq<Stat> {
    var rows := WindowRows(tasks, lo, hi);
    seq(|Categories(rows)|, i requires 0 <= i < |Categories(rows)| => StatOf(formulas, rows, Categories(rows)[i]))
  }

  /** The norm rows a run for day `d` writes: the seven days up to `d`, the built-in priors. */
  function NormsFor(formulas: Formulas, tasks: seq<TaskRow>, d: int): map<string, NormRow> {
    var (lo, hi) := WindowBounds(d, 7);
    NormTable(ByCategory(WindowStats(formulas, tasks, lo, hi)), BASELINE_PRIORS_MINUTES, DEFAULT_PRIOR_WEIGHT)
  }

  function FindRow(tasks: seq<TaskRow>, id: int): Option<TaskRow> {
    if tasks == [] then None
    else if tasks[|tasks| - 1].id == id then Some(tasks[|tasks| - 1])
    else FindRow(tasks[..|tasks| - 1], id)
  }

  /** One row of RECOMPUTE_ASSESSMENT_NORMS_BY_DATE_SQL. */
  function RecomputedRow(a: Assessment, id: int, tasks: seq<TaskRow>, norms: map<string, NormRow>, d: int): Assessment {
    var t := FindRow(tasks, id);
    if a.date == d && t.Some? && SqlCategory(t.value) in norms then
      var norm := RoundHalfAway(norms[SqlCategory(t.value)].norm);
      a.(norm := Some(norm),
         delta := if t.value.duration.None? then None else Some(t.value.duration.value - norm))
    else a
  }

  function Recomputed(assessments: map<int, Assessment>, tasks: seq<TaskRow>, norms: map<string, NormRow>, d: int)
    : map<int, Assessment>
  {
    map id | id in assessments :: RecomputedRow(assessments[id], id, tasks, norms, d)
  }

  // ---- The whole run ----------------------------------------------------------------------

  /** The tables after `run_assess(d)`. */
  function Assessed(formulas: Formulas, tasks: seq<TaskRow>, before: Tables, d: int): Tables {
    var scored := Upsert(before.assessments, ScoreRows(formulas, tasks, d));
    var norms := before.norms + NormsFor(formulas, tasks, d);
    Tables(Upsert(before.ghostTime, GhostRows(formulas, tasks, d)),
           Recomputed(scored, tasks, norms, d),
           Rebuilt(formulas, before.cycles, JoinedOn(tasks, scored, d), d),
           norms)
  }
}
