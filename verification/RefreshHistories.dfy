/** A reachable history in which a stale normalize run erases what a newer run has written. */
module RefreshHistories {
  import opened RefreshTables
  import opened RefreshProtocol
  import opened RefreshRuns

  ghost predicate Normalizes(cfg: Config, row: RawTask) {
    Normalize(cfg.rules, Fetched(1, row)).Emitted?
  }

  /**
   * Two versions of one line, before and after an edit of the sheet: the first does not normalize, without exceeding
   * the error limit, the second does.
   */
  ghost predicate Overtakes(cfg: Config, was: RawTask, row: RawTask) {
    && row.at.sheet.spreadsheet == cfg.spreadsheet && cfg.maxRowsPerSheet >= 1
    && was.at.sheet == row.at.sheet && was.workDate == row.workDate
    && !Normalize(cfg.rules, Fetched(0, was)).Emitted?
    && (Normalize(cfg.rules, Fetched(0, was)).Failed? ==> cfg.maxErrorsPerSheet >= 1)
    && Normalizes(cfg, row)
  }

  function Place(row: RawTask): Partition
    requires row.workDate.Some?
  {
    Partition(row.at.sheet, row.workDate.value)
  }

  const NO_ROWS: Tables := Tables(map[], 0, map[], 0, map[], 0)

  function WasParsed(was: RawTask): Tables { NO_ROWS.(raw := map[0 := was], nextRaw := 1) }

  function FullParsed(row: RawTask): Tables { NO_ROWS.(raw := map[1 := row], nextRaw := 2) }

  function Written(cfg: Config, row: RawTask): Tables
    requires Normalizes(cfg, row)
  {
    var emitted := Normalize(cfg.rules, Fetched(1, row)).row;
    FullParsed(row).(norm := map[0 := emitted.(employeeId := 0)], nextNorm := 1,
                     employees := map[emitted.facts.employeeNorm := 0], nextEmployee := 1)
  }

  function Erased(cfg: Config, row: RawTask): Tables
    requires Normalizes(cfg, row)
  {
    Written(cfg, row).(norm := map[])
  }

  // ---- Single transactions ------------------------------------------------------------------------

  lemma ParseOne(t: Tables, row: RawTask, t': Tables)
    requires t.norm == map[] && forall i :: i in t.raw ==> t.raw[i].at.sheet == row.at.sheet && t.raw[i].workDate == row.workDate
    requires t' == t.(raw := map[t.nextRaw := row], nextRaw := t.nextRaw + 1)
    ensures ParseCommits(t, row.at.sheet, [row]) && ParseResult(t, row.at.sheet, [row]) == t'
  {
    var sheet, rows := row.at.sheet, [row];
    var left := AfterDeletes(t, sheet, rows);
    var dates := RefreshDates(t.raw, sheet, rows);
    forall i | i in t.raw
      ensures t.raw[i].workDate.Some? ==> t.raw[i].workDate.value in dates
    {
    }
    assert left.raw == map[] && left.norm == map[];
    assert rows[..0] == [];
    assert After(left.raw, t.nextRaw, rows) == map[t.nextRaw := row];
  }

  lemma SnapshotOfOne(cfg: Config, t: Tables, i: nat, row: RawTask)
    requires row.at.sheet.spreadsheet == cfg.spreadsheet && cfg.maxRowsPerSheet >= 1 && row.workDate.Some?
    requires t.raw == map[i := row]
    ensures IsSnapshot(cfg, t, [Fetched(i, row)]) && IsPlan(cfg, [Fetched(i, row)], [Place(row)])
    ensures Select([Fetched(i, row)], Place(row)) == [Fetched(i, row)]
  {
    var snapshot := [Fetched(i, row)];
    assert snapshot[..0] == [];
    forall p: Partition
      ensures Select(snapshot, p) != [] <==> p == Place(row)
    {
    }
    assert (set k | 0 <= k < |snapshot| && snapshot[k].task.at.sheet == row.at.sheet) == {0};
  }

  lemma EmitsOne(rules: Rules, f: Fetched)
    ensures EmittedRows(rules, [f]) == if Normalize(rules, f).Emitted? then [Normalize(rules, f).row] else []
    ensures Failures(rules, [f]) == if Normalize(rules, f).Failed? then 1 else 0
  {
    assert [f][..0] == [];
  }

  lemma FullWrite(cfg: Config, row: RawTask)
    requires Normalizes(cfg, row)
    ensures var rows := [Normalize(cfg.rules, Fetched(1, row)).row];
            WriteCommits(FullParsed(row), Place(row), rows) && WriteResult(FullParsed(row), Place(row), rows, Written(cfg, row))
  {
    var emitted := Normalize(cfg.rules, Fetched(1, row)).row;
    FirstWrite(FullParsed(row), Place(row), emitted);
  }

  /** The first row of an empty table, under the first employee id. */
  lemma FirstWrite(t: Tables, p: Partition, row: NormTask)
    requires t.norm == map[] && t.nextNorm == 0 && t.employees == map[] && t.nextEmployee == 0 && row.rawId in t.raw
    ensures WriteCommits(t, p, [row])
    ensures WriteResult(t, p, [row], t.(norm := map[0 := row.(employeeId := 0)], nextNorm := 1,
                                        employees := map[row.facts.employeeNorm := 0], nextEmployee := 1))
  {
    var name := row.facts.employeeNorm;
    assert [row][0] == row;
    assert Names([row]) == {name};
    assert OutsidePartition(t.norm, p) == map[];
  }

  lemma EmptyWrite(cfg: Config, row: RawTask)
    requires Normalizes(cfg, row)
    ensures WriteCommits(Written(cfg, row), Place(row), []) && WriteResult(Written(cfg, row), Place(row), [], Erased(cfg, row))
  {
    var t := Written(cfg, row);
    assert NormIn(t.norm[0], Place(row));
    assert OutsidePartition(t.norm, Place(row)) == map[];
  }

  lemma WrittenIsExact(cfg: Config, row: RawTask)
    requires Normalizes(cfg, row)
    ensures Exact(cfg.rules, Written(cfg, row), Place(row)) && !Exact(cfg.rules, Erased(cfg, row), Place(row))
  {
    var t, t' := Written(cfg, row), Erased(cfg, row);
    assert t.norm[0].rawId == 1;
    assert RawIn(t'.raw[1], Place(row)) && Normalize(cfg.rules, Fetched(1, t'.raw[1])).Emitted?;
  }

  // ---- The states of the history ------------------------------------------------------------------

  /** Run 0, begun on the first version; `phase` is how far it has come. */
  function Stale(was: RawTask, row: RawTask, phase: Phase): Run
    requires row.workDate.Some?
  {
    Run([Fetched(0, was)], map[row.at.sheet := 1], [Place(row)], phase)
  }

  /** Run 1, begun on the second version. */
  function Newer(row: RawTask, todo: seq<Partition>, phase: Phase): Run {
    Run([Fetched(1, row)], map[row.at.sheet := 2], todo, phase)
  }

  function TablesAt(cfg: Config, was: RawTask, row: RawTask, k: nat): Tables
    requires Overtakes(cfg, was, row)
  {
    if k == 0 then NO_ROWS
    else if k <= 2 then WasParsed(was)
    else if k <= 5 then FullParsed(row)
    else if k <= 8 then Written(cfg, row)
    else Erased(cfg, row)
  }

  function ParsesAt(row: RawTask, k: nat): map<Sheet, nat> {
    if k == 0 then map[] else if k <= 2 then map[row.at.sheet := 1] else map[row.at.sheet := 2]
  }

  function LocksAt(cfg: Config, was: RawTask, row: RawTask, k: nat): map<int, nat>
    requires row.workDate.Some?
  {
    if k == 5 || k == 6 then map[LockOf(cfg, Place(row)) := 1]
    else if k >= 8 then map[LockOf(cfg, Place(row)) := 0]
    else map[]
  }

  function StaleAt(was: RawTask, row: RawTask, k: nat): Run
    requires row.workDate.Some?
  {
    Stale(was, row, if k <= 7 then Planning else if k == 8 then Guarded else Settled(true))
  }

  function NewerAt(row: RawTask, k: nat): Run
    requires row.workDate.Some?
  {
    if k <= 4 then Newer(row, [Place(row)], Planning)
    else if k == 5 then Newer(row, [Place(row)], Guarded)
    else if k == 6 then Newer(row, [Place(row)], Settled(true))
    else Newer(row, [], Planning)
  }

  function RunsAt(was: RawTask, row: RawTask, k: nat): map<nat, Run>
    requires row.workDate.Some?
  {
    if k <= 1 then map[] else if k <= 3 then map[0 := StaleAt(was, row, k)] else map[0 := StaleAt(was, row, k), 1 := NewerAt(row, k)]
  }

  /** The states of the history, 0 to 9. */
  function StateAt(cfg: Config, was: RawTask, row: RawTask, k: nat): System
    requires Overtakes(cfg, was, row)
  {
    System(TablesAt(cfg, was, row, k), ParsesAt(row, k), LocksAt(cfg, was, row, k), RunsAt(was, row, k))
  }

  function StepAt(was: RawTask, row: RawTask, k: nat): Step
    requires row.workDate.Some? && k < 9
  {
    var sheet, p := row.at.sheet, Place(row);
    match k
    case 0 => Parse(sheet, [was], false)
    case 1 => Begin(0, [Fetched(0, was)], [p])
    case 2 => Parse(sheet, [row], false)
    case 3 => Begin(1, [Fetched(1, row)], [p])
    case 4 => TryLock(1)
    case 5 => Write(1, false)
    case 6 => Unlock(1)
    case 7 => TryLock(0)
    case 8 => Write(0, false)
  }

  lemma ParseStepsAre(was: RawTask, row: RawTask, k: nat)
    requires row.workDate.Some? && k < 9 && StepAt(was, row, k).Parse?
    ensures var step := StepAt(was, row, k);
            step.sheet == row.at.sheet && (step.rows == [was] || step.rows == [row])
  {
  }

  ghost predicate Steps(cfg: Config, was: RawTask, row: RawTask, k: nat)
    requires Overtakes(cfg, was, row) && k < 9
  {
    Next(cfg, StateAt(cfg, was, row, k), StateAt(cfg, was, row, k + 1), StepAt(was, row, k))
  }

  // ---- Its steps ----------------------------------------------------------------------------------

  lemma ParseStepOne(cfg: Config, s: System, row: RawTask, s': System)
    requires s.tables.norm == map[]
    requires forall i :: i in s.tables.raw ==>
               s.tables.raw[i].at.sheet == row.at.sheet && s.tables.raw[i].workDate == row.workDate
    requires s'.tables == s.tables.(raw := map[s.tables.nextRaw := row], nextRaw := s.tables.nextRaw + 1)
    requires s'.parses == s.parses[row.at.sheet := Version(s.parses, row.at.sheet) + 1]
    requires s'.locks == s.locks && s'.runs == s.runs
    ensures Next(cfg, s, s', Parse(row.at.sheet, [row], false))
  {
    ParseOne(s.tables, row, s'.tables);
  }

  lemma BeginOne(cfg: Config, s: System, run: nat, i: nat, row: RawTask, s': System)
    requires row.at.sheet.spreadsheet == cfg.spreadsheet && cfg.maxRowsPerSheet >= 1 && row.workDate.Some?
    requires s.tables.raw == map[i := row] && run !in s.runs
    requires s' == s.(runs := s.runs[run := Run([Fetched(i, row)], s.parses, [Place(row)], Planning)])
    ensures Next(cfg, s, s', Begin(run, [Fetched(i, row)], [Place(row)]))
  {
    SnapshotOfOne(cfg, s.tables, i, row);
  }

  /** A run over one line within the error limit takes the free lock. */
  lemma LockOne(cfg: Config, s: System, run: nat, i: nat, row: RawTask, s': System)
    requires row.workDate.Some? && (Normalize(cfg.rules, Fetched(i, row)).Failed? ==> cfg.maxErrorsPerSheet >= 1)
    requires run in s.runs && LockOf(cfg, Place(row)) !in s.locks
    requires s.runs[run].snapshot == [Fetched(i, row)] && s.runs[run].todo == [Place(row)] && s.runs[run].phase == Planning
    requires s' == s.(locks := s.locks[LockOf(cfg, Place(row)) := run], runs := s.runs[run := s.runs[run].(phase := Guarded)])
    ensures Next(cfg, s, s', TryLock(run))
  {
    SelectOne(i, row);
    EmitsOne(cfg.rules, Fetched(i, row));
  }

  lemma WriteOne(cfg: Config, s: System, run: nat, i: nat, row: RawTask, s': System)
    requires row.workDate.Some? && run in s.runs
    requires s.runs[run].snapshot == [Fetched(i, row)] && s.runs[run].todo == [Place(row)] && s.runs[run].phase == Guarded
    requires var v := Normalize(cfg.rules, Fetched(i, row));
             var rows := if v.Emitted? then [v.row] else [];
             WriteCommits(s.tables, Place(row), rows) && WriteResult(s.tables, Place(row), rows, s'.tables)
    requires s' == s.(tables := s'.tables, runs := s.runs[run := s.runs[run].(phase := Settled(true))])
    ensures Next(cfg, s, s', Write(run, false))
  {
    SelectOne(i, row);
    EmitsOne(cfg.rules, Fetched(i, row));
  }

  /** A run that has committed its last partition gives the lock back. */
  lemma UnlockOne(cfg: Config, s: System, run: nat, p: Partition, s': System)
    requires run in s.runs && s.runs[run].todo == [p] && s.runs[run].phase == Settled(true)
    requires s' == s.(locks := s.locks - {LockOf(cfg, p)}, runs := s.runs[run := s.runs[run].(todo := [], phase := Planning)])
    ensures Next(cfg, s, s', Unlock(run))
  {
    assert [p][1..] == [];
  }

  /** A run over the first version emits nothing, so its write erases. */
  lemma EraseOne(cfg: Config, was: RawTask, row: RawTask, s: System, s': System)
    requires Overtakes(cfg, was, row) && 0 in s.runs && s.runs[0] == Stale(was, row, Guarded) && s.tables == Written(cfg, row)
    requires s' == s.(tables := Erased(cfg, row), runs := s.runs[0 := Stale(was, row, Settled(true))])
    ensures Next(cfg, s, s', Write(0, false))
  {
    EmptyWrite(cfg, row);
    WriteOne(cfg, s, 0, 0, was, s');
  }

  lemma LockFirst(cfg: Config, was: RawTask, row: RawTask, s: System, s': System)
    requires Overtakes(cfg, was, row) && 0 in s.runs && s.runs[0] == Stale(was, row, Planning)
    requires LockOf(cfg, Place(row)) !in s.locks
    requires s' == s.(locks := s.locks[LockOf(cfg, Place(row)) := 0], runs := s.runs[0 := Stale(was, row, Guarded)])
    ensures Next(cfg, s, s', TryLock(0))
  {
    LockOne(cfg, s, 0, 0, was, s');
  }

  lemma SelectOne(i: nat, row: RawTask)
    requires row.workDate.Some?
    ensures Select([Fetched(i, row)], Place(row)) == [Fetched(i, row)]
  {
    assert [Fetched(i, row)][..0] == [];
  }

  lemma PairMoves(stale: Run, newer: Run, stale': Run, newer': Run)
    ensures map[0 := stale, 1 := newer][0 := stale'] == map[0 := stale', 1 := newer]
    ensures map[0 := stale, 1 := newer][1 := newer'] == map[0 := stale, 1 := newer']
  {
  }

  lemma FirstParse(cfg: Config, was: RawTask, row: RawTask)
    requires Overtakes(cfg, was, row)
    ensures Steps(cfg, was, row, 0)
  {
    var s, s' := StateAt(cfg, was, row, 0), StateAt(cfg, was, row, 1);
    assert s.parses[row.at.sheet := 1] == s'.parses;
    ParseStepOne(cfg, s, was, s');
  }

  lemma StaleBegins(cfg: Config, was: RawTask, row: RawTask)
    requires Overtakes(cfg, was, row)
    ensures Steps(cfg, was, row, 1)
  {
    var s, s' := StateAt(cfg, was, row, 1), StateAt(cfg, was, row, 2);
    assert s.runs[0 := Stale(was, row, Planning)] == s'.runs;
    BeginOne(cfg, s, 0, 0, was, s');
  }

  lemma SecondParse(cfg: Config, was: RawTask, row: RawTask)
    requires Overtakes(cfg, was, row)
    ensures Steps(cfg, was, row, 2)
  {
    var s, s' := StateAt(cfg, was, row, 2), StateAt(cfg, was, row, 3);
    assert s.parses[row.at.sheet := 2] == s'.parses;
    ParseStepOne(cfg, s, row, s');
  }

  lemma NewerBegins(cfg: Config, was: RawTask, row: RawTask)
    requires Overtakes(cfg, was, row)
    ensures Steps(cfg, was, row, 3)
  {
    var s, s' := StateAt(cfg, was, row, 3), StateAt(cfg, was, row, 4);
    assert s.runs[1 := Newer(row, [Place(row)], Planning)] == s'.runs;
    BeginOne(cfg, s, 1, 1, row, s');
  }

  lemma NewerLocks(cfg: Config, was: RawTask, row: RawTask)
    requires Overtakes(cfg, was, row)
    ensures Steps(cfg, was, row, 4)
  {
    var s, s' := StateAt(cfg, was, row, 4), StateAt(cfg, was, row, 5);
    PairMoves(s.runs[0], s.runs[1], s'.runs[0], s'.runs[1]);
    assert s.locks[LockOf(cfg, Place(row)) := 1] == s'.locks;
    LockOne(cfg, s, 1, 1, row, s');
  }

  lemma NewerWrites(cfg: Config, was: RawTask, row: RawTask)
    requires Overtakes(cfg, was, row)
    ensures Steps(cfg, was, row, 5)
  {
    var s, s' := StateAt(cfg, was, row, 5), StateAt(cfg, was, row, 6);
    PairMoves(s.runs[0], s.runs[1], s'.runs[0], s'.runs[1]);
    FullWrite(cfg, row);
    WriteOne(cfg, s, 1, 1, row, s');
  }

  lemma NewerUnlocks(cfg: Config, was: RawTask, row: RawTask)
    requires Overtakes(cfg, was, row)
    ensures Steps(cfg, was, row, 6)
  {
    var s, s' := StateAt(cfg, was, row, 6), StateAt(cfg, was, row, 7);
    PairMoves(s.runs[0], s.runs[1], s'.runs[0], s'.runs[1]);
    assert s.locks - {LockOf(cfg, Place(row))} == s'.locks;
    UnlockOne(cfg, s, 1, Place(row), s');
  }

  lemma StaleLocks(cfg: Config, was: RawTask, row: RawTask)
    requires Overtakes(cfg, was, row)
    ensures Steps(cfg, was, row, 7)
  {
    var s, s' := StateAt(cfg, was, row, 7), StateAt(cfg, was, row, 8);
    PairMoves(s.runs[0], s.runs[1], s'.runs[0], s'.runs[1]);
    assert s.locks[LockOf(cfg, Place(row)) := 0] == s'.locks;
    LockFirst(cfg, was, row, s, s');
  }

  lemma StaleWrites(cfg: Config, was: RawTask, row: RawTask)
    requires Overtakes(cfg, was, row)
    ensures Steps(cfg, was, row, 8)
  {
    var s, s' := StateAt(cfg, was, row, 8), StateAt(cfg, was, row, 9);
    PairMoves(s.runs[0], s.runs[1], s'.runs[0], s'.runs[1]);
    EraseOne(cfg, was, row, s, s');
  }

  lemma EveryStep(cfg: Config, was: RawTask, row: RawTask, k: nat)
    requires Overtakes(cfg, was, row) && k < 9
    ensures Steps(cfg, was, row, k)
  {
    match k
    case 0 => FirstParse(cfg, was, row);
    case 1 => StaleBegins(cfg, was, row);
    case 2 => SecondParse(cfg, was, row);
    case 3 => NewerBegins(cfg, was, row);
    case 4 => NewerLocks(cfg, was, row);
    case 5 => NewerWrites(cfg, was, row);
    case 6 => NewerUnlocks(cfg, was, row);
    case 7 => StaleLocks(cfg, was, row);
    case 8 => StaleWrites(cfg, was, row);
  }

  lemma StepsInOrder(cfg: Config, was: RawTask, row: RawTask, states: seq<System>, steps: seq<Step>)
    requires Overtakes(cfg, was, row) && |states| == 10 && |steps| == 9
    requires forall k :: 0 <= k < 10 ==> states[k] == StateAt(cfg, was, row, k)
    requires forall k :: 0 <= k < 9 ==> steps[k] == StepAt(was, row, k)
    ensures IsPath(cfg, states, steps)
  {
    forall k | 0 <= k < 9
      ensures Next(cfg, states[k], states[k + 1], steps[k])
    {
      EveryStep(cfg, was, row, k);
    }
  }

  lemma History(cfg: Config, was: RawTask, row: RawTask) returns (states: seq<System>, steps: seq<Step>)
    requires Overtakes(cfg, was, row)
    ensures IsPath(cfg, states, steps) && |steps| == 9
    ensures forall k :: 0 <= k < 10 ==> states[k] == StateAt(cfg, was, row, k)
    ensures forall k :: 0 <= k < 9 ==> steps[k] == StepAt(was, row, k)
  {
    states := seq(10, k requires 0 <= k < 10 => StateAt(cfg, was, row, k));
    steps := seq(9, k requires 0 <= k < 9 => StepAt(was, row, k));
    StepsInOrder(cfg, was, row, states, steps);
  }

  lemma StartsEmpty(cfg: Config, was: RawTask, row: RawTask)
    requires Overtakes(cfg, was, row)
    ensures Init(StateAt(cfg, was, row, 0))
  {
  }

  lemma EndsErased(cfg: Config, was: RawTask, row: RawTask)
    requires Overtakes(cfg, was, row)
    ensures StateAt(cfg, was, row, 8).tables == Written(cfg, row) && StateAt(cfg, was, row, 9).tables == Erased(cfg, row)
  {
  }

  /**
   * Whenever a line of a sheet is edited from a version that does not normalize to one that does, there is a history in
   * which a run is begun on the first version, the sheet is parsed again, a newer run writes the partition exactly, and
   * the older run then commits a write that makes it inexact.
   */
  lemma StaleRunErases(cfg: Config, was: RawTask, row: RawTask) returns (states: seq<System>, steps: seq<Step>)
    requires Overtakes(cfg, was, row)
    ensures IsHistory(cfg, states, steps) && |steps| == 9
    ensures forall k :: 0 <= k < 9 ==> steps[k] == StepAt(was, row, k)
    ensures Exact(cfg.rules, states[8].tables, Place(row)) && !Exact(cfg.rules, states[9].tables, Place(row))
  {
    states, steps := History(cfg, was, row);
    StartsEmpty(cfg, was, row);
    EndsErased(cfg, was, row);
    WrittenIsExact(cfg, row);
  }
}
