/**
 * Any interleaving of normalize runs, parse refreshes, user edits and crashes. A normalize run fetches its
 * snapshot in one transaction and rewrites its partitions in later ones, so a parse may come in between.
 */
module RefreshRuns {
  import opened Common
  import opened RefreshTables
  import opened RefreshProtocol

  datatype Config = Config(spreadsheet: string, rules: Rules, maxRowsPerSheet: nat, maxErrorsPerSheet: nat,
                           isoDate: int -> string, lockHash: string -> int)

  /** `hashtextextended` of the lock key; nothing is assumed about collisions. */
  function LockOf(cfg: Config, p: Partition): int {
    cfg.lockHash("normalize|" + p.sheet.spreadsheet + ":" + p.sheet.title + "|" + cfg.isoDate(p.date))
  }

  /** Planning: between partitions. Guarded: lock held, not yet written. Settled: committed or rolled back. */
  datatype Phase = Planning | Guarded | Settled(committed: bool) | Finished

  datatype Run = Run(snapshot: seq<Fetched>, seen: map<Sheet, nat>, todo: seq<Partition>, phase: Phase)

  /** `parses` counts the committed parse refreshes of each sheet. */
  datatype System = System(tables: Tables, parses: map<Sheet, nat>, locks: map<int, nat>, runs: map<nat, Run>)

  function Version(parses: map<Sheet, nat>, sheet: Sheet): nat {
    if sheet in parses then parses[sheet] else 0
  }

  /** The snapshot rows of one partition, in fetch order (`by_sheet` and `by_date`). */
  function Select(snapshot: seq<Fetched>, p: Partition): seq<Fetched> {
    if snapshot == [] then []
    else
      var last := snapshot[|snapshot| - 1];
      Select(snapshot[..|snapshot| - 1], p) + if RawIn(last.task, p) then [last] else []
  }

  lemma {:induction false} SelectMembers(snapshot: seq<Fetched>, p: Partition)
    ensures forall f :: f in Select(snapshot, p) <==> f in snapshot && RawIn(f.task, p)
  {
    if snapshot != [] {
      var front, last := snapshot[..|snapshot| - 1], snapshot[|snapshot| - 1];
      SelectMembers(front, p);
      assert snapshot == front + [last];
    }
  }

  ghost predicate DistinctIds(fetched: seq<Fetched>) {
    forall i, j :: 0 <= i < j < |fetched| ==> fetched[i].id != fetched[j].id
  }

  lemma {:induction false} SelectKeepsDistinct(snapshot: seq<Fetched>, p: Partition)
    requires DistinctIds(snapshot)
    ensures DistinctIds(Select(snapshot, p))
  {
    if snapshot != [] {
      var front, last := snapshot[..|snapshot| - 1], snapshot[|snapshot| - 1];
      SelectKeepsDistinct(front, p);
      SelectMembers(front, p);
      forall f | f in front
        ensures f.id != last.id
      {
        var i :| 0 <= i < |front| && front[i] == f;
        assert snapshot[i].id != snapshot[|snapshot| - 1].id;
      }
    }
  }

  function SheetSize(snapshot: seq<Fetched>, sheet: Sheet): nat {
    |set k | 0 <= k < |snapshot| && snapshot[k].task.at.sheet == sheet|
  }

  // ---- Steps ------------------------------------------------------------------------------

  /** The snapshot query returns each raw row of the spreadsheet once. */
  ghost predicate IsSnapshot(cfg: Config, t: Tables, snapshot: seq<Fetched>) {
    && DistinctIds(snapshot)
    && (forall f :: f in snapshot ==>
          f.id in t.raw && t.raw[f.id] == f.task && f.task.at.sheet.spreadsheet == cfg.spreadsheet)
    && (forall i :: i in t.raw && t.raw[i].at.sheet.spreadsheet == cfg.spreadsheet ==> Fetched(i, t.raw[i]) in snapshot)
  }

  /** The partitions to write: every sheet and date of the snapshot, except sheets that are too large. */
  ghost predicate IsPlan(cfg: Config, snapshot: seq<Fetched>, todo: seq<Partition>) {
    && (forall p :: p in todo <==>
          && p.sheet.spreadsheet == cfg.spreadsheet && Select(snapshot, p) != []
          && SheetSize(snapshot, p.sheet) <= cfg.maxRowsPerSheet)
    && (forall i, j :: 0 <= i < j < |todo| ==> todo[i] != todo[j])
  }

  datatype Step =
    | Begin(run: nat, snapshot: seq<Fetched>, todo: seq<Partition>)
    | ErrorLimit(run: nat)
    | TryLock(run: nat)
    | Write(run: nat, fault: bool)
    | Unlock(run: nat)
    | Crash(run: nat)
    | Parse(sheet: Sheet, rows: seq<RawTask>, fault: bool)
    | Confirm(id: nat, confirmed: bool)

  ghost predicate BeginStep(cfg: Config, s: System, s': System, run: nat, snapshot: seq<Fetched>, todo: seq<Partition>) {
    && run !in s.runs && IsSnapshot(cfg, s.tables, snapshot) && IsPlan(cfg, snapshot, todo)
    && s' == s.(runs := s.runs[run := Run(snapshot, s.parses, todo, Planning)])
  }

  ghost predicate AtPartition(s: System, run: nat) {
    run in s.runs && s.runs[run].todo != []
  }

  /** What `_normalize_sheet_rows` reads for the current partition. */
  ghost function CurrentRows(s: System, run: nat): seq<Fetched>
    requires AtPartition(s, run)
  {
    Select(s.runs[run].snapshot, s.runs[run].todo[0])
  }

  ghost predicate ErrorLimitStep(cfg: Config, s: System, s': System, run: nat) {
    && AtPartition(s, run) && s.runs[run].phase == Planning
    && Failures(cfg.rules, CurrentRows(s, run)) > cfg.maxErrorsPerSheet
    && s' == s.(runs := s.runs[run := s.runs[run].(phase := Finished)])
  }

  ghost predicate TryLockStep(cfg: Config, s: System, s': System, run: nat) {
    && AtPartition(s, run) && s.runs[run].phase == Planning
    && Failures(cfg.rules, CurrentRows(s, run)) <= cfg.maxErrorsPerSheet
    && var r := s.runs[run];
    && var key := LockOf(cfg, r.todo[0]);
    && s' == if key in s.locks
             then s.(runs := s.runs[run := r.(todo := r.todo[1..])])
             else s.(runs := s.runs[run := r.(phase := Guarded)], locks := s.locks[key := run])
  }

  /** The guarded transaction commits when no constraint is violated and nothing else goes wrong. */
  ghost predicate WriteStep(cfg: Config, s: System, s': System, run: nat, fault: bool) {
    && AtPartition(s, run) && s.runs[run].phase == Guarded
    && var r := s.runs[run];
    && var rows := EmittedRows(cfg.rules, CurrentRows(s, run));
    && var commits := WriteCommits(s.tables, r.todo[0], rows) && !fault;
    && (if commits then WriteResult(s.tables, r.todo[0], rows, s'.tables) else RolledBack(s.tables, s'.tables))
    && s' == s.(tables := s'.tables, runs := s.runs[run := r.(phase := Settled(commits))])
  }

  ghost predicate UnlockStep(cfg: Config, s: System, s': System, run: nat) {
    && AtPartition(s, run) && s.runs[run].phase.Settled?
    && var r := s.runs[run];
    && var next := if r.phase.committed then r.(todo := r.todo[1..], phase := Planning) else r.(phase := Finished);
    && s' == s.(locks := s.locks - {LockOf(cfg, r.todo[0])}, runs := s.runs[run := next])
  }

  /** A lost session: PostgreSQL rolls back and drops its locks. */
  ghost predicate CrashStep(s: System, s': System, run: nat) {
    && run in s.runs
    && s' == s.(locks := map k | k in s.locks && s.locks[k] != run :: s.locks[k],
                runs := s.runs[run := s.runs[run].(phase := Finished)])
  }

  ghost predicate ParseStep(s: System, s': System, sheet: Sheet, rows: seq<RawTask>, fault: bool) {
    && (forall k :: 0 <= k < |rows| ==> rows[k].at.sheet == sheet)
    && if ParseCommits(s.tables, sheet, rows) && !fault
       then s' == s.(tables := ParseResult(s.tables, sheet, rows), parses := s.parses[sheet := Version(s.parses, sheet) + 1])
       else RolledBack(s.tables, s'.tables) && s' == s.(tables := s'.tables)
  }

  function Edited(t: Tables, id: nat, confirmed: bool): Tables
    requires id in t.norm
  {
    t.(norm := t.norm[id := t.norm[id].(confirmed := confirmed)])
  }

  /** The API lets a user flip the confirmed flag of one normalized row. */
  ghost predicate ConfirmStep(s: System, s': System, id: nat, confirmed: bool) {
    && id in s.tables.norm
    && s' == s.(tables := Edited(s.tables, id, confirmed))
  }

  ghost predicate Next(cfg: Config, s: System, s': System, step: Step) {
    match step
    case Begin(run, snapshot, todo) => BeginStep(cfg, s, s', run, snapshot, todo)
    case ErrorLimit(run) => ErrorLimitStep(cfg, s, s', run)
    case TryLock(run) => TryLockStep(cfg, s, s', run)
    case Write(run, fault) => WriteStep(cfg, s, s', run, fault)
    case Unlock(run) => UnlockStep(cfg, s, s', run)
    case Crash(run) => CrashStep(s, s', run)
    case Parse(sheet, rows, fault) => ParseStep(s, s', sheet, rows, fault)
    case Confirm(id, confirmed) => ConfirmStep(s, s', id, confirmed)
  }

  /** Empty tables, no locks, no runs. */
  ghost predicate Init(s: System) {
    && s.tables == Tables(map[], 0, map[], 0, map[], 0) && s.parses == map[] && s.locks == map[] && s.runs == map[]
  }

  ghost predicate IsPath(cfg: Config, states: seq<System>, steps: seq<Step>) {
    |states| == |steps| + 1 && forall k :: 0 <= k < |steps| ==> Next(cfg, states[k], states[k + 1], steps[k])
  }

  ghost predicate IsHistory(cfg: Config, states: seq<System>, steps: seq<Step>) {
    IsPath(cfg, states, steps) && Init(states[0])
  }

  lemma ExtendPath(cfg: Config, states: seq<System>, steps: seq<Step>, next: System, step: Step)
    requires IsPath(cfg, states, steps) && Next(cfg, states[|states| - 1], next, step)
    ensures IsPath(cfg, states + [next], steps + [step])
  {
    var longer, path := states + [next], steps + [step];
    forall k | 0 <= k < |path|
      ensures Next(cfg, longer[k], longer[k + 1], path[k])
    {
      if k < |steps| {
        assert longer[k] == states[k] && longer[k + 1] == states[k + 1] && path[k] == steps[k];
      }
    }
  }

  /** The normalize run that takes the step, if it is one of a run. */
  function StepOf(step: Step): Option<nat> {
    match step
    case Begin(run, _, _) => Some(run)
    case ErrorLimit(run) => Some(run)
    case TryLock(run) => Some(run)
    case Write(run, _) => Some(run)
    case Unlock(run) => Some(run)
    case Crash(run) => Some(run)
    case Parse(_, _, _) => None
    case Confirm(_, _) => None
  }

  // ---- The invariant ------------------------------------------------------------------------

  /** No parse of the sheet has committed since the snapshot. */
  ghost predicate UpToDate(s: System, r: Run, sheet: Sheet) {
    Version(r.seen, sheet) == Version(s.parses, sheet)
  }

  /** Fresh snapshot rows are live; rows of a sheet parsed since then are gone for good. */
  ghost predicate SnapshotOk(cfg: Config, s: System, r: Run) {
    && DistinctIds(r.snapshot)
    && (forall f :: f in r.snapshot ==>
          && f.id < s.tables.nextRaw
          && if UpToDate(s, r, f.task.at.sheet) then f.id in s.tables.raw && s.tables.raw[f.id] == f.task
             else f.id !in s.tables.raw)
    && (forall i :: i in s.tables.raw && s.tables.raw[i].at.sheet.spreadsheet == cfg.spreadsheet
                    && UpToDate(s, r, s.tables.raw[i].at.sheet) ==>
          Fetched(i, s.tables.raw[i]) in r.snapshot)
    && (forall sheet :: Version(r.seen, sheet) <= Version(s.parses, sheet))
  }

  ghost predicate Holding(r: Run) {
    r.todo != [] && (r.phase == Guarded || r.phase.Settled?)
  }

  ghost predicate RunOk(cfg: Config, s: System, run: nat)
    requires run in s.runs
  {
    var r := s.runs[run];
    && SnapshotOk(cfg, s, r)
    && (forall p :: p in r.todo ==> p.sheet.spreadsheet == cfg.spreadsheet && Select(r.snapshot, p) != [])
    && (r.phase == Guarded || r.phase.Settled? ==> r.todo != [])
  }

  ghost predicate RunsOk(cfg: Config, s: System) {
    forall run :: run in s.runs ==> RunOk(cfg, s, run)
  }

  /** The lock table records exactly the runs inside the guarded block. */
  ghost predicate LocksOk(cfg: Config, s: System) {
    && (forall run :: run in s.runs && Holding(s.runs[run]) ==>
          LockOf(cfg, s.runs[run].todo[0]) in s.locks && s.locks[LockOf(cfg, s.runs[run].todo[0])] == run)
    && (forall k :: k in s.locks ==>
          s.locks[k] in s.runs && Holding(s.runs[s.locks[k]]) && LockOf(cfg, s.runs[s.locks[k]].todo[0]) == k)
  }

  ghost predicate Inv(cfg: Config, s: System) {
    && TablesOk(cfg.rules, s.tables)
    && RunsOk(cfg, s)
    && LocksOk(cfg, s)
  }

  // ---- Preservation -----------------------------------------------------------------------

  /** Steps that change neither raw rows nor parse counters keep every run's snapshot facts. */
  lemma SnapshotsUnaffected(cfg: Config, s: System, s': System, r: Run)
    requires SnapshotOk(cfg, s, r)
    requires s'.tables.raw == s.tables.raw && s'.tables.nextRaw >= s.tables.nextRaw && s'.parses == s.parses
    ensures SnapshotOk(cfg, s', r)
  {
  }

  /** The same run, possibly one partition further on or in another phase. */
  ghost predicate SameRun(r: Run, r': Run) {
    && r'.snapshot == r.snapshot && r'.seen == r.seen
    && (r'.todo == r.todo || (r.todo != [] && r'.todo == r.todo[1..]))
    && (r'.phase == Guarded || r'.phase.Settled? ==> r'.todo != [])
  }

  lemma RunUnaffected(cfg: Config, s: System, s': System, run: nat)
    requires run in s.runs && run in s'.runs && RunOk(cfg, s, run) && SameRun(s.runs[run], s'.runs[run])
    requires s'.tables.raw == s.tables.raw && s'.tables.nextRaw >= s.tables.nextRaw && s'.parses == s.parses
    ensures RunOk(cfg, s', run)
  {
    assert forall p :: p in s'.runs[run].todo ==> p in s.runs[run].todo;
    SnapshotsUnaffected(cfg, s, s', s.runs[run]);
  }

  lemma RunsUnaffected(cfg: Config, s: System, s': System)
    requires RunsOk(cfg, s)
    requires s'.tables.raw == s.tables.raw && s'.tables.nextRaw >= s.tables.nextRaw && s'.parses == s.parses
    requires s'.runs.Keys == s.runs.Keys
    requires forall run :: run in s.runs ==> SameRun(s.runs[run], s'.runs[run])
    ensures RunsOk(cfg, s')
  {
    forall run | run in s'.runs
      ensures RunOk(cfg, s', run)
    {
      assert RunOk(cfg, s, run) && SameRun(s.runs[run], s'.runs[run]);
      RunUnaffected(cfg, s, s', run);
    }
  }

  lemma NoRunMoves(cfg: Config, s: System, s': System)
    requires RunsOk(cfg, s) && s'.runs == s.runs
    requires s'.tables.raw == s.tables.raw && s'.tables.nextRaw >= s.tables.nextRaw && s'.parses == s.parses
    ensures RunsOk(cfg, s')
  {
    forall run | run in s.runs
      ensures SameRun(s.runs[run], s'.runs[run])
    {
      assert RunOk(cfg, s, run);
    }
    RunsUnaffected(cfg, s, s');
  }

  /** A step that replaces one run by the same run further on keeps all runs' facts. */
  lemma OneRunMoves(cfg: Config, s: System, s': System, run: nat)
    requires RunsOk(cfg, s) && run in s.runs && run in s'.runs
    requires s'.tables.raw == s.tables.raw && s'.tables.nextRaw >= s.tables.nextRaw && s'.parses == s.parses
    requires s'.runs == s.runs[run := s'.runs[run]] && SameRun(s.runs[run], s'.runs[run])
    ensures RunsOk(cfg, s')
  {
    forall other | other in s.runs
      ensures SameRun(s.runs[other], s'.runs[other])
    {
      assert RunOk(cfg, s, other);
    }
    RunsUnaffected(cfg, s, s');
  }

  lemma BeginKeepsRuns(cfg: Config, s: System, s': System, run: nat, snapshot: seq<Fetched>, todo: seq<Partition>)
    requires RunsOk(cfg, s) && BeginStep(cfg, s, s', run, snapshot, todo)
    requires forall i :: i in s.tables.raw ==> i < s.tables.nextRaw
    ensures RunsOk(cfg, s')
  {
    forall other | other in s'.runs
      ensures RunOk(cfg, s', other)
    {
      if other != run {
        assert RunOk(cfg, s, other);
        SnapshotsUnaffected(cfg, s, s', s.runs[other]);
      }
    }
  }

  lemma TryLockKeepsLocks(cfg: Config, s: System, s': System, run: nat)
    requires LocksOk(cfg, s) && TryLockStep(cfg, s, s', run)
    ensures LocksOk(cfg, s')
  {
  }

  lemma UnlockKeepsLocks(cfg: Config, s: System, s': System, run: nat)
    requires LocksOk(cfg, s) && UnlockStep(cfg, s, s', run)
    ensures LocksOk(cfg, s')
  {
  }

  lemma CrashKeepsLocks(cfg: Config, s: System, s': System, run: nat)
    requires LocksOk(cfg, s) && CrashStep(s, s', run)
    ensures LocksOk(cfg, s')
  {
  }

  lemma WriteKeepsLocks(cfg: Config, s: System, s': System, run: nat, fault: bool)
    requires LocksOk(cfg, s) && WriteStep(cfg, s, s', run, fault)
    ensures LocksOk(cfg, s')
  {
  }

  lemma SnapshotRowsAgree(cfg: Config, s: System, run: nat)
    requires run in s.runs && RunOk(cfg, s, run) && AtPartition(s, run)
    ensures SnapshotAgrees(s.tables, CurrentRows(s, run))
  {
    SelectMembers(s.runs[run].snapshot, s.runs[run].todo[0]);
    var rows := CurrentRows(s, run);
    forall k | 0 <= k < |rows| && rows[k].id in s.tables.raw
      ensures s.tables.raw[rows[k].id] == rows[k].task
    {
      assert rows[k] in s.runs[run].snapshot;
    }
  }

  lemma WriteKeepsTables(cfg: Config, s: System, s': System, run: nat, fault: bool)
    requires TablesOk(cfg.rules, s.tables) && run in s.runs && RunOk(cfg, s, run)
    requires WriteStep(cfg, s, s', run, fault)
    ensures TablesOk(cfg.rules, s'.tables)
  {
    SnapshotRowsAgree(cfg, s, run);
    if s'.runs[run].phase.committed {
      WriteKeepsTablesOk(cfg.rules, s.tables, s.runs[run].todo[0], CurrentRows(s, run), s'.tables);
    } else {
      RollbackKeepsTablesOk(cfg.rules, s.tables, s'.tables);
    }
  }

  lemma RollbackKeepsTablesOk(rules: Rules, t: Tables, t': Tables)
    requires TablesOk(rules, t) && RolledBack(t, t')
    ensures TablesOk(rules, t')
  {
    forall n | n in t'.norm { PointsAtItsRaw(rules, t, n); }
    FaithfulCarries(rules, t, t');
  }

  /** A parse makes the snapshots of its sheet stale and leaves those of other sheets alone. */
  lemma ParseAgesSnapshots(cfg: Config, s: System, s': System, sheet: Sheet, rows: seq<RawTask>, r: Run)
    requires SnapshotOk(cfg, s, r)
    requires OtherSheetsKept(s.tables, s'.tables, sheet) && SheetHolds(s'.tables, sheet, rows, s.tables.nextRaw)
    requires s'.tables.nextRaw >= s.tables.nextRaw
    requires s'.parses == s.parses[sheet := Version(s.parses, sheet) + 1]
    ensures SnapshotOk(cfg, s', r)
  {
    forall f | f in r.snapshot
      ensures if UpToDate(s', r, f.task.at.sheet) then f.id in s'.tables.raw && s'.tables.raw[f.id] == f.task
              else f.id !in s'.tables.raw
    {
      if f.task.at.sheet == sheet {
        assert !UpToDate(s', r, sheet);
      } else {
        assert UpToDate(s', r, f.task.at.sheet) == UpToDate(s, r, f.task.at.sheet);
      }
    }
    forall i | i in s'.tables.raw && s'.tables.raw[i].at.sheet.spreadsheet == cfg.spreadsheet
               && UpToDate(s', r, s'.tables.raw[i].at.sheet)
      ensures Fetched(i, s'.tables.raw[i]) in r.snapshot
    {
      assert s'.tables.raw[i].at.sheet != sheet;
      assert UpToDate(s, r, s.tables.raw[i].at.sheet);
    }
  }

  lemma ParseKeepsInv(cfg: Config, s: System, s': System, sheet: Sheet, rows: seq<RawTask>, fault: bool)
    requires Inv(cfg, s) && ParseStep(s, s', sheet, rows, fault)
    ensures Inv(cfg, s')
  {
    if ParseCommits(s.tables, sheet, rows) && !fault {
      ParseKeepsTablesOk(cfg.rules, s.tables, sheet, rows);
      ParseRefresh(cfg.rules, s.tables, sheet, rows);
      forall run | run in s'.runs
        ensures RunOk(cfg, s', run)
      {
        assert RunOk(cfg, s, run);
        ParseAgesSnapshots(cfg, s, s', sheet, rows, s.runs[run]);
      }
    } else {
      RollbackKeepsTablesOk(cfg.rules, s.tables, s'.tables);
      NoRunMoves(cfg, s, s');
    }
  }

  lemma ConfirmKeepsTables(rules: Rules, t: Tables, id: nat, confirmed: bool)
    requires TablesOk(rules, t) && id in t.norm
    ensures TablesOk(rules, Edited(t, id, confirmed))
  {
    ConfirmKeepsFaithful(rules, t, id, confirmed);
    EditKeepsCoords(t.norm, id, t.norm[id].(confirmed := confirmed));
    EditKeepsIds(t, id, confirmed);
  }

  lemma EditKeepsIds(t: Tables, id: nat, confirmed: bool)
    requires IdsDrawn(t) && EmployeesOk(t) && id in t.norm
    ensures IdsDrawn(Edited(t, id, confirmed)) && EmployeesOk(Edited(t, id, confirmed))
  {
  }

  lemma ConfirmKeepsFaithful(rules: Rules, t: Tables, id: nat, confirmed: bool)
    requires AllFaithful(rules, t) && id in t.norm
    ensures AllFaithful(rules, Edited(t, id, confirmed))
  {
    var t' := Edited(t, id, confirmed);
    forall n | n in t'.norm { PointsAtItsRaw(rules, t, n); }
    FaithfulCarries(rules, t, t');
  }

  lemma EditKeepsCoords(norm: map<nat, NormTask>, id: nat, row: NormTask)
    requires UniqueNormCoords(norm) && id in norm && row.at == norm[id].at
    ensures UniqueNormCoords(norm[id := row])
  {
  }

  lemma WriteKeepsInv(cfg: Config, s: System, s': System, run: nat, fault: bool)
    requires Inv(cfg, s) && WriteStep(cfg, s, s', run, fault)
    ensures Inv(cfg, s')
  {
    assert RunOk(cfg, s, run);
    WriteKeepsTables(cfg, s, s', run, fault);
    OneRunMoves(cfg, s, s', run);
    WriteKeepsLocks(cfg, s, s', run, fault);
  }

  lemma TryLockKeepsInv(cfg: Config, s: System, s': System, run: nat)
    requires Inv(cfg, s) && TryLockStep(cfg, s, s', run)
    ensures Inv(cfg, s')
  {
    OneRunMoves(cfg, s, s', run);
    TryLockKeepsLocks(cfg, s, s', run);
  }

  lemma UnlockKeepsInv(cfg: Config, s: System, s': System, run: nat)
    requires Inv(cfg, s) && UnlockStep(cfg, s, s', run)
    ensures Inv(cfg, s')
  {
    OneRunMoves(cfg, s, s', run);
    UnlockKeepsLocks(cfg, s, s', run);
  }

  lemma CrashKeepsInv(cfg: Config, s: System, s': System, run: nat)
    requires Inv(cfg, s) && CrashStep(s, s', run)
    ensures Inv(cfg, s')
  {
    OneRunMoves(cfg, s, s', run);
    CrashKeepsLocks(cfg, s, s', run);
  }

  lemma ConfirmKeepsInv(cfg: Config, s: System, s': System, id: nat, confirmed: bool)
    requires Inv(cfg, s) && ConfirmStep(s, s', id, confirmed)
    ensures Inv(cfg, s')
  {
    ConfirmKeepsTables(cfg.rules, s.tables, id, confirmed);
    NoRunMoves(cfg, s, s');
  }

  lemma BeginKeepsInv(cfg: Config, s: System, s': System, run: nat, snapshot: seq<Fetched>, todo: seq<Partition>)
    requires Inv(cfg, s) && BeginStep(cfg, s, s', run, snapshot, todo)
    ensures Inv(cfg, s')
  {
    BeginKeepsRuns(cfg, s, s', run, snapshot, todo);
  }

  lemma ErrorLimitKeepsInv(cfg: Config, s: System, s': System, run: nat)
    requires Inv(cfg, s) && ErrorLimitStep(cfg, s, s', run)
    ensures Inv(cfg, s')
  {
    OneRunMoves(cfg, s, s', run);
  }

  lemma NextKeepsInv(cfg: Config, s: System, s': System, step: Step)
    requires Inv(cfg, s) && Next(cfg, s, s', step)
    ensures Inv(cfg, s')
  {
    match step
    case Begin(run, snapshot, todo) => BeginKeepsInv(cfg, s, s', run, snapshot, todo);
    case ErrorLimit(run) => ErrorLimitKeepsInv(cfg, s, s', run);
    case TryLock(run) => TryLockKeepsInv(cfg, s, s', run);
    case Write(run, fault) => WriteKeepsInv(cfg, s, s', run, fault);
    case Unlock(run) => UnlockKeepsInv(cfg, s, s', run);
    case Crash(run) => CrashKeepsInv(cfg, s, s', run);
    case Parse(sheet, rows, fault) => ParseKeepsInv(cfg, s, s', sheet, rows, fault);
    case Confirm(id, confirmed) => ConfirmKeepsInv(cfg, s, s', id, confirmed);
  }

  lemma {:induction false} ReachableInv(cfg: Config, states: seq<System>, steps: seq<Step>, k: nat)
    requires IsHistory(cfg, states, steps) && k < |states|
    ensures Inv(cfg, states[k])
  {
    if k > 0 {
      ReachableInv(cfg, states, steps, k - 1);
      NextKeepsInv(cfg, states[k - 1], states[k], steps[k - 1]);
    }
  }

  // ---- What holds in every reachable state --------------------------------------------------

  /** Every normalized row is the normalization of the live raw row it points at. */
  lemma NormalizedRowsAreFaithful(cfg: Config, states: seq<System>, steps: seq<Step>, k: nat)
    requires IsHistory(cfg, states, steps) && k < |states|
    ensures forall n :: n in states[k].tables.norm ==> Faithful(cfg.rules, states[k].tables, states[k].tables.norm[n])
  {
    ReachableInv(cfg, states, steps, k);
  }

  /** A parse refresh commits exactly when its rows have distinct coordinates; no foreign key ever stops it. */
  lemma ParseIsNeverBlocked(cfg: Config, states: seq<System>, steps: seq<Step>, k: nat, sheet: Sheet, rows: seq<RawTask>)
    requires IsHistory(cfg, states, steps) && k < |states|
    requires forall i :: 0 <= i < |rows| ==> rows[i].at.sheet == sheet
    ensures ParseCommits(states[k].tables, sheet, rows) <==>
            forall i, j :: 0 <= i < j < |rows| ==> rows[i].at != rows[j].at
  {
    ReachableInv(cfg, states, steps, k);
    if RowsOfSheet(sheet, rows) {
      ParseRefresh(cfg.rules, states[k].tables, sheet, rows);
    }
  }

  lemma CurrentSnapshotIsFresh(cfg: Config, s: System, run: nat)
    requires run in s.runs && RunOk(cfg, s, run) && AtPartition(s, run)
    requires UpToDate(s, s.runs[run], s.runs[run].todo[0].sheet)
    ensures Fresh(s.tables, s.runs[run].todo[0], CurrentRows(s, run))
  {
    var r, p, rows := s.runs[run], s.runs[run].todo[0], CurrentRows(s, run);
    SelectMembers(r.snapshot, p);
    SelectKeepsDistinct(r.snapshot, p);
    forall k | 0 <= k < |rows|
      ensures RawIn(rows[k].task, p) && rows[k].id in s.tables.raw && s.tables.raw[rows[k].id] == rows[k].task
    {
      assert rows[k] in rows;
    }
    assert p in r.todo;
  }

  /**
   * A write commits exactly when no parse of its sheet has committed since the snapshot, or the partition
   * normalizes to no row at all. So a stale snapshot can never commit a row.
   */
  lemma WriteCommitsIff(cfg: Config, s: System, s': System, run: nat)
    requires Inv(cfg, s) && WriteStep(cfg, s, s', run, false)
    ensures s'.runs[run].phase == Settled(
              || UpToDate(s, s.runs[run], s.runs[run].todo[0].sheet)
              || EmittedRows(cfg.rules, CurrentRows(s, run)) == [])
  {
    assert RunOk(cfg, s, run);
    var r, p, fetched := s.runs[run], s.runs[run].todo[0], CurrentRows(s, run);
    var rows := EmittedRows(cfg.rules, fetched);
    if UpToDate(s, r, p.sheet) {
      CurrentSnapshotIsFresh(cfg, s, run);
      FreshWriteCommits(cfg.rules, s.tables, p, fetched);
    } else if rows != [] {
      StaleRowIsGone(cfg, s, run);
    }
  }

  /** The first row a stale run wants to write points at a raw row that no longer exists. */
  lemma StaleRowIsGone(cfg: Config, s: System, run: nat)
    requires run in s.runs && RunOk(cfg, s, run) && AtPartition(s, run)
    requires !UpToDate(s, s.runs[run], s.runs[run].todo[0].sheet) && EmittedRows(cfg.rules, CurrentRows(s, run)) != []
    ensures EmittedRows(cfg.rules, CurrentRows(s, run))[0].rawId !in s.tables.raw
  {
    var fetched := CurrentRows(s, run);
    var k := EmittedComesFromFetch(cfg.rules, fetched, 0);
    SelectMembers(s.runs[run].snapshot, s.runs[run].todo[0]);
    assert fetched[k] in fetched;
  }

  /** Some live raw row of `p` normalizes to a row. */
  ghost predicate HasNormalizable(rules: Rules, t: Tables, p: Partition) {
    exists i :: i in t.raw && RawIn(t.raw[i], p) && Normalize(rules, Fetched(i, t.raw[i])).Emitted?
  }

  /**
   * After a committed write the partition is exactly the normalization of its raw rows if and only if the
   * snapshot was up to date or there is nothing to normalize: a stale run whose partition was empty at
   * snapshot time still deletes the rows that a newer run has written.
   */
  lemma CommittedWriteIsExactIff(cfg: Config, s: System, s': System, run: nat)
    requires Inv(cfg, s) && WriteStep(cfg, s, s', run, false) && s'.runs[run].phase.committed
    ensures Exact(cfg.rules, s'.tables, s.runs[run].todo[0]) <==>
            || UpToDate(s, s.runs[run], s.runs[run].todo[0].sheet)
            || !HasNormalizable(cfg.rules, s.tables, s.runs[run].todo[0])
  {
    assert RunOk(cfg, s, run);
    var r, p, fetched := s.runs[run], s.runs[run].todo[0], CurrentRows(s, run);
    if UpToDate(s, r, p.sheet) {
      CurrentSnapshotIsFresh(cfg, s, run);
      FreshWriteIsExact(cfg.rules, s.tables, p, fetched, s'.tables);
    } else {
      WriteCommitsIff(cfg, s, s', run);
      WriteKeepsTables(cfg, s, s', run, false);
      EmptyWriteErases(s.tables, p, s'.tables);
      ErasedIsExactIff(cfg.rules, s'.tables, p);
    }
  }

  lemma EmptyWriteErases(t: Tables, p: Partition, t': Tables)
    requires IdsDrawn(t) && WriteResult(t, p, [], t')
    ensures t'.raw == t.raw
    ensures forall n :: n in t'.norm ==> !NormIn(t'.norm[n], p)
  {
  }

  /** An erased partition is exact only when nothing in it normalizes. */
  lemma ErasedIsExactIff(rules: Rules, t: Tables, p: Partition)
    requires AllFaithful(rules, t) && forall n :: n in t.norm ==> !NormIn(t.norm[n], p)
    ensures Exact(rules, t, p) <==> !HasNormalizable(rules, t, p)
  {
    forall n | n in t.norm
      ensures t.norm[n].rawId in t.raw && !RawIn(t.raw[t.norm[n].rawId], p)
    {
      PointsAtItsRaw(rules, t, n);
    }
    assert NothingElse(rules, t, p);
  }

  /** At most one run is inside the guarded block of a partition, whatever the lock hash collides on. */
  lemma SingleFlight(cfg: Config, states: seq<System>, steps: seq<Step>, k: nat, a: nat, b: nat)
    requires IsHistory(cfg, states, steps) && k < |states|
    requires a in states[k].runs && b in states[k].runs
    requires Holding(states[k].runs[a]) && Holding(states[k].runs[b])
    requires states[k].runs[a].todo[0] == states[k].runs[b].todo[0]
    ensures a == b
  {
    ReachableInv(cfg, states, steps, k);
  }

  lemma LocksStay(cfg: Config, s: System, s': System, step: Step)
    requires Next(cfg, s, s', step) && !step.Crash? && !step.Unlock?
    ensures forall key :: key in s.locks ==> key in s'.locks && s'.locks[key] == s.locks[key]
  {
  }

  /** A lock leaves its holder only after commit or rollback, or with the holder's session. */
  lemma LockReleasedAfterSettling(cfg: Config, s: System, s': System, step: Step, key: int)
    requires LocksOk(cfg, s) && Next(cfg, s, s', step)
    requires key in s.locks && (key !in s'.locks || s'.locks[key] != s.locks[key])
    ensures var run := s.locks[key];
            step == Crash(run) || (step == Unlock(run) && s.runs[run].phase.Settled? && key == LockOf(cfg, s.runs[run].todo[0]))
  {
    match step
    case Unlock(run) => assert UnlockStep(cfg, s, s', run);
    case Crash(run) => assert CrashStep(s, s', run);
    case _ => LocksStay(cfg, s, s', step);
  }

  /** A run that is not inside the guarded block owns no lock. */
  lemma NoLockOutsideGuard(cfg: Config, states: seq<System>, steps: seq<Step>, k: nat, key: int)
    requires IsHistory(cfg, states, steps) && k < |states| && key in states[k].locks
    ensures states[k].locks[key] in states[k].runs
    ensures var r := states[k].runs[states[k].locks[key]];
            (r.phase == Guarded || r.phase.Settled?) && r.todo != [] && LockOf(cfg, r.todo[0]) == key
  {
    ReachableInv(cfg, states, steps, k);
  }

  // ---- How long a partition stays exact -----------------------------------------------------

  ghost predicate AllIn(rows: seq<NormTask>, p: Partition) {
    forall k :: 0 <= k < |rows| ==> NormIn(rows[k], p)
  }

  lemma RowsStayInPartition(rules: Rules, snapshot: seq<Fetched>, p: Partition)
    ensures AllIn(EmittedRows(rules, Select(snapshot, p)), p)
  {
    var fetched := Select(snapshot, p);
    SelectMembers(snapshot, p);
    var rows := EmittedRows(rules, fetched);
    forall k | 0 <= k < |rows|
      ensures NormIn(rows[k], p)
    {
      var f := EmittedComesFromFetch(rules, fetched, k);
      assert fetched[f] in fetched;
    }
  }

  /** A committed write of `p` neither adds nor removes rows of another partition. */
  lemma OtherRowsKept(t: Tables, p: Partition, rows: seq<NormTask>, t': Tables, q: Partition)
    requires WriteResult(t, p, rows, t') && q != p
    requires forall n :: n in t.norm ==> n < t.nextNorm
    requires AllIn(rows, p)
    ensures forall n :: n in t'.norm && NormIn(t'.norm[n], q) ==> n in t.norm && t'.norm[n] == t.norm[n]
    ensures forall n :: n in t.norm && NormIn(t.norm[n], q) ==> n in t'.norm && t'.norm[n] == t.norm[n]
  {
    forall n | n in t'.norm && n >= t.nextNorm
      ensures NormIn(t'.norm[n], p)
    {
      assert NormIn(rows[n - t.nextNorm], p);
    }
  }

  /** Being faithful and exact only looks at the rows of the partition and the raw rows they point at. */
  lemma ExactCarries(rules: Rules, t: Tables, t': Tables, q: Partition)
    requires Exact(rules, t, q)
    requires AllFaithful(rules, t)
    requires forall i :: i in t.raw && RawIn(t.raw[i], q) ==> i in t'.raw && t'.raw[i] == t.raw[i]
    requires forall i :: i in t'.raw && RawIn(t'.raw[i], q) ==> i in t.raw && t'.raw[i] == t.raw[i]
    requires forall e :: e in t.employees ==> e in t'.employees && t'.employees[e] == t.employees[e]
    requires forall n :: n in t'.norm && NormIn(t'.norm[n], q) ==> n in t.norm && t'.norm[n] == t.norm[n]
    requires forall n :: n in t.norm && NormIn(t.norm[n], q) ==> n in t'.norm && t'.norm[n] == t.norm[n]
    ensures Exact(rules, t', q)
  {
    forall n | n in t'.norm && NormIn(t'.norm[n], q)
      ensures Faithful(rules, t', t'.norm[n])
      ensures t'.norm[n].confirmed == Normalize(rules, Fetched(t'.norm[n].rawId, t'.raw[t'.norm[n].rawId])).row.confirmed
    {
      assert Faithful(rules, t, t.norm[n]);
      assert RawIn(t.raw[t.norm[n].rawId], q);
    }
    forall i | i in t'.raw && RawIn(t'.raw[i], q) && Normalize(rules, Fetched(i, t'.raw[i])).Emitted?
      ensures exists n :: n in t'.norm && t'.norm[n].rawId == i
    {
      var n :| n in t.norm && t.norm[n].rawId == i;
      assert Faithful(rules, t, t.norm[n]);
      assert NormIn(t.norm[n], q) && t'.norm[n].rawId == i;
    }
  }

  lemma OtherPartitionUntouched(rules: Rules, t: Tables, p: Partition, snapshot: seq<Fetched>, t': Tables, q: Partition)
    requires TablesOk(rules, t) && Exact(rules, t, q) && q != p
    requires WriteResult(t, p, EmittedRows(rules, Select(snapshot, p)), t')
    ensures Exact(rules, t', q)
  {
    RowsStayInPartition(rules, snapshot, p);
    OtherRowsKept(t, p, EmittedRows(rules, Select(snapshot, p)), t', q);
    ExactCarries(rules, t, t', q);
  }

  lemma OtherSheetStaysExact(rules: Rules, t: Tables, sheet: Sheet, rows: seq<RawTask>, q: Partition)
    requires TablesOk(rules, t) && Exact(rules, t, q) && RowsOfSheet(sheet, rows) && q.sheet != sheet
    ensures Exact(rules, ParseResult(t, sheet, rows), q)
  {
    ParseRefresh(rules, t, sheet, rows);
    ExactCarries(rules, t, ParseResult(t, sheet, rows), q);
  }

  /** Only these steps can undo that a partition is exact. */
  ghost predicate Disturbs(s: System, step: Step, q: Partition) {
    match step
    case Parse(sheet, _, _) => sheet == q.sheet
    case Write(run, _) =>
      AtPartition(s, run) && s.runs[run].todo[0] == q && !UpToDate(s, s.runs[run], q.sheet)
    case Confirm(id, _) => id in s.tables.norm && NormIn(s.tables.norm[id], q)
    case _ => false
  }

  lemma WriteKeepsExact(cfg: Config, s: System, s': System, run: nat, fault: bool, q: Partition)
    requires Inv(cfg, s) && WriteStep(cfg, s, s', run, fault) && Exact(cfg.rules, s.tables, q)
    requires !Disturbs(s, Write(run, fault), q)
    ensures Exact(cfg.rules, s'.tables, q)
  {
    assert RunOk(cfg, s, run);
    var r, p := s.runs[run], s.runs[run].todo[0];
    if !s'.runs[run].phase.committed {
      RollbackKeepsExact(cfg.rules, s.tables, s'.tables, q);
    } else if p == q {
      CurrentSnapshotIsFresh(cfg, s, run);
      FreshWriteIsExact(cfg.rules, s.tables, p, CurrentRows(s, run), s'.tables);
    } else {
      OtherPartitionUntouched(cfg.rules, s.tables, p, r.snapshot, s'.tables, q);
    }
  }

  lemma RollbackKeepsExact(rules: Rules, t: Tables, t': Tables, q: Partition)
    requires Exact(rules, t, q) && RolledBack(t, t')
    ensures Exact(rules, t', q)
  {
  }

  lemma ConfirmKeepsExact(cfg: Config, s: System, s': System, id: nat, confirmed: bool, q: Partition)
    requires ConfirmStep(s, s', id, confirmed) && Exact(cfg.rules, s.tables, q) && !NormIn(s.tables.norm[id], q)
    ensures Exact(cfg.rules, s'.tables, q)
  {
    var t, t' := s.tables, s'.tables;
    forall i | i in t'.raw && RawIn(t'.raw[i], q) && Normalize(cfg.rules, Fetched(i, t'.raw[i])).Emitted?
      ensures exists n :: n in t'.norm && t'.norm[n].rawId == i
    {
      var n :| n in t.norm && t.norm[n].rawId == i;
      assert t'.norm[n].rawId == i;
    }
  }

  /**
   * Once exact, a partition stays exact under every step except a parse of its sheet, a user edit of one of its
   * rows, and a write of it from a stale snapshot.
   */
  lemma ExactIsStable(cfg: Config, s: System, s': System, step: Step, q: Partition)
    requires Inv(cfg, s) && Next(cfg, s, s', step)
    requires Exact(cfg.rules, s.tables, q) && !Disturbs(s, step, q)
    ensures Exact(cfg.rules, s'.tables, q)
  {
    match step
    case Write(run, fault) => WriteKeepsExact(cfg, s, s', run, fault, q);
    case Parse(sheet, rows, fault) =>
      if ParseCommits(s.tables, sheet, rows) && !fault {
        OtherSheetStaysExact(cfg.rules, s.tables, sheet, rows, q);
      } else {
        RollbackKeepsExact(cfg.rules, s.tables, s'.tables, q);
      }
    case Confirm(id, confirmed) => ConfirmKeepsExact(cfg, s, s', id, confirmed, q);
    case _ =>
  }
}
