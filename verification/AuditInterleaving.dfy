/**
 * Concurrent `run_audit` calls and sweeps over one ledger. Every step is one committed transaction; between
 * the steps of a call anything may happen, and a call may die at any point.
 */
module AuditInterleaving {
  import opened Common
  import opened AuditLedger

  /** Opening: before the first transaction. Trying: attempt number `attempt` (from 1) is running. */
  datatype Phase = Opening | Trying(row: nat, attempt: nat) | Failing(row: nat) | Over

  datatype Call = Call(employee: int, date: int, force: bool, maxAttempts: nat, phase: Phase)

  /** `owner` records which call inserted each row. */
  datatype System = System(rows: map<nat, AuditRun>, clock: int, calls: map<nat, Call>, owner: map<nat, nat>)

  datatype Step =
    | Start(call: nat, employee: int, date: int, force: bool, maxAttempts: nat)
    | Hit(call: nat, src: nat, id: nat)
    | Miss(call: nat, id: nat)
    | AttemptFails(call: nat)
    | AttemptSucceeds(call: nat, report: string)
    | PersistFailure(call: nat, error: string)
    /** Any exit without a further write: no pool, a failed re-initialisation, a killed process. */
    | Abandon(call: nat)
    | Sweep(threshold: int)
    | Tick(now: int)

  ghost predicate StartStep(s: System, s': System, call: nat, employee: int, date: int, force: bool, maxAttempts: nat) {
    && call !in s.calls && maxAttempts > 0
    && s' == s.(calls := s.calls[call := Call(employee, date, force, maxAttempts, Opening)])
  }

  /** The opening transaction finds a completed run with a report and copies it. */
  ghost predicate HitStep(s: System, s': System, call: nat, src: nat, id: nat) {
    && call in s.calls && s.calls[call].phase == Opening && id !in s.rows
    && var c := s.calls[call];
    && !c.force && IsLatestCompleted(s.rows, c.employee, c.date, src) && s.rows[src].report.Some?
    && s' == s.(rows := s.rows[id := AuditRun(c.employee, c.date, CompletedCached, s.clock, false, s.rows[src].report, None, false)],
                calls := s.calls[call := c.(phase := Over)], owner := s.owner[id := call])
  }

  /** The opening transaction inserts a processing row. */
  ghost predicate MissStep(s: System, s': System, call: nat, id: nat) {
    && call in s.calls && s.calls[call].phase == Opening && id !in s.rows
    && var c := s.calls[call];
    && (c.force || forall src :: IsLatestCompleted(s.rows, c.employee, c.date, src) ==> s.rows[src].report.None?)
    && s' == s.(rows := s.rows[id := Started(c.employee, c.date, s.clock, c.force)],
                calls := s.calls[call := c.(phase := Trying(id, 1))], owner := s.owner[id := call])
  }

  ghost predicate AttemptFailsStep(s: System, s': System, call: nat) {
    && call in s.calls && s.calls[call].phase.Trying?
    && var c := s.calls[call];
    && var next := if c.phase.attempt < c.maxAttempts then Trying(c.phase.row, c.phase.attempt + 1) else Failing(c.phase.row);
    && s' == s.(calls := s.calls[call := c.(phase := next)])
  }

  /** `mark_run_completed`: the update is keyed by id alone, whatever the row's status has become. */
  ghost predicate AttemptSucceedsStep(s: System, s': System, call: nat, report: string) {
    && call in s.calls && s.calls[call].phase.Trying? && s.calls[call].phase.row in s.rows
    && var c := s.calls[call];
    && s' == s.(rows := s.rows[c.phase.row := MarkedCompleted(s.rows[c.phase.row], report)],
                calls := s.calls[call := c.(phase := Over)])
  }

  ghost predicate PersistFailureStep(s: System, s': System, call: nat, error: string) {
    && call in s.calls && s.calls[call].phase.Failing? && s.calls[call].phase.row in s.rows
    && var c := s.calls[call];
    && s' == s.(rows := s.rows[c.phase.row := MarkedFailed(s.rows[c.phase.row], error)],
                calls := s.calls[call := c.(phase := Over)])
  }

  ghost predicate Next(s: System, s': System, step: Step) {
    match step
    case Start(call, employee, date, force, maxAttempts) => StartStep(s, s', call, employee, date, force, maxAttempts)
    case Hit(call, src, id) => HitStep(s, s', call, src, id)
    case Miss(call, id) => MissStep(s, s', call, id)
    case AttemptFails(call) => AttemptFailsStep(s, s', call)
    case AttemptSucceeds(call, report) => AttemptSucceedsStep(s, s', call, report)
    case PersistFailure(call, error) => PersistFailureStep(s, s', call, error)
    case Abandon(call) => call in s.calls && s' == s.(calls := s.calls[call := s.calls[call].(phase := Over)])
    case Sweep(threshold) => s' == s.(rows := Swept(s.rows, s.clock, threshold))
    case Tick(now) => now >= s.clock && s' == s.(clock := now)
  }

  ghost predicate Init(s: System) {
    s.rows == map[] && s.calls == map[] && s.owner == map[]
  }

  ghost predicate IsPath(states: seq<System>, steps: seq<Step>) {
    |states| == |steps| + 1 && forall k :: 0 <= k < |steps| ==> Next(states[k], states[k + 1], steps[k])
  }

  ghost predicate IsHistory(states: seq<System>, steps: seq<Step>) {
    IsPath(states, steps) && Init(states[0])
  }

  lemma ExtendPath(states: seq<System>, steps: seq<Step>, next: System, step: Step)
    requires IsPath(states, steps) && Next(states[|states| - 1], next, step)
    ensures IsPath(states + [next], steps + [step])
  {
    var longer, path := states + [next], steps + [step];
    forall k | 0 <= k < |path|
      ensures Next(longer[k], longer[k + 1], path[k])
    {
      if k < |steps| {
        assert longer[k] == states[k] && longer[k + 1] == states[k + 1] && path[k] == steps[k];
      }
    }
  }

  // ---- Invariant -----------------------------------------------------------------------

  ghost predicate Working(c: Call) {
    c.phase.Trying? || c.phase.Failing?
  }

  /** A working call has its own row, not yet finished by it. */
  ghost predicate CallOk(s: System, call: nat)
    requires call in s.calls
  {
    var c := s.calls[call];
    && c.maxAttempts > 0
    && (c.phase.Trying? ==> 1 <= c.phase.attempt <= c.maxAttempts)
    && (c.phase == Opening ==> forall id :: id in s.owner ==> s.owner[id] != call)
    && (Working(c) ==>
          && c.phase.row in s.rows && c.phase.row in s.owner && s.owner[c.phase.row] == call
          && s.rows[c.phase.row].employee == c.employee && s.rows[c.phase.row].date == c.date
          && s.rows[c.phase.row].forced == c.force
          && (s.rows[c.phase.row].status == Processing || s.rows[c.phase.row].status == Stale))
  }

  ghost predicate HasReport(run: AuditRun) {
    run.report.Some? <==> run.status == Completed || run.status == CompletedCached
  }

  /** Some completed run of the same employee and date carries the same report. */
  ghost predicate Sourced(rows: map<nat, AuditRun>, run: AuditRun) {
    exists src :: src in rows && IsCompletedFor(rows[src], run.employee, run.date) && rows[src].report == run.report
  }

  ghost predicate RowsOk(rows: map<nat, AuditRun>) {
    && (forall id :: id in rows ==> HasReport(rows[id]))
    && (forall id :: id in rows && rows[id].status == CompletedCached ==> Sourced(rows, rows[id]))
  }

  ghost predicate OwnersOk(s: System) {
    && s.owner.Keys == s.rows.Keys
    && (forall id :: id in s.owner ==> s.owner[id] in s.calls)
    && (forall i, j :: i in s.owner && j in s.owner && s.owner[i] == s.owner[j] ==> i == j)
  }

  ghost predicate Inv(s: System) {
    && RowsOk(s.rows)
    && OwnersOk(s)
    && (forall call :: call in s.calls ==> CallOk(s, call))
  }

  /** Completed runs are never lost, so cached rows keep their source. */
  lemma SourcesStay(rows: map<nat, AuditRun>, rows': map<nat, AuditRun>)
    requires RowsOk(rows)
    requires forall id :: id in rows && rows[id].status == Completed ==> id in rows' && rows'[id] == rows[id]
    requires forall id :: id in rows' ==> HasReport(rows'[id])
    requires forall id :: id in rows' && rows'[id].status == CompletedCached ==>
               (id in rows && rows'[id] == rows[id]) || Sourced(rows, rows'[id])
    ensures RowsOk(rows')
  {
    forall id | id in rows' && rows'[id].status == CompletedCached
      ensures Sourced(rows', rows'[id])
    {
      assert Sourced(rows, rows'[id]);
      var src :| src in rows && IsCompletedFor(rows[src], rows'[id].employee, rows'[id].date) && rows[src].report == rows'[id].report;
      assert rows'[src] == rows[src];
    }
  }

  lemma InsertKeepsInv(s: System, s': System, call: nat, id: nat)
    requires Inv(s) && call in s.calls && s.calls[call].phase == Opening && id !in s.rows
    requires s'.rows.Keys == s.rows.Keys + {id} && s'.owner == s.owner[id := call]
    requires forall i :: i in s.rows ==> s'.rows[i] == s.rows[i]
    requires RowsOk(s'.rows) && call in s'.calls && s'.calls == s.calls[call := s'.calls[call]] && CallOk(s', call)
    ensures Inv(s')
  {
    assert CallOk(s, call);
    forall other | other in s'.calls
      ensures CallOk(s', other)
    {
      if other != call {
        assert CallOk(s, other);
      }
    }
  }

  lemma OwnWriteKeepsInv(s: System, s': System, call: nat, run: AuditRun)
    requires Inv(s) && call in s.calls && Working(s.calls[call])
    requires var row := s.calls[call].phase.row;
             && row in s.rows && s'.rows == s.rows[row := run] && HasReport(run)
             && (run.status == Completed || run.status == Failed)
    requires s'.owner == s.owner && s'.calls == s.calls[call := s.calls[call].(phase := Over)]
    ensures Inv(s')
  {
    assert CallOk(s, call);
    var row := s.calls[call].phase.row;
    SourcesStay(s.rows, s'.rows);
    forall other | other in s'.calls
      ensures CallOk(s', other)
    {
      assert CallOk(s, other);
      if other != call && Working(s.calls[other]) {
        assert s.calls[other].phase.row != row;
      }
    }
  }

  lemma SweepKeepsInv(s: System, threshold: int)
    requires Inv(s)
    ensures Inv(s.(rows := Swept(s.rows, s.clock, threshold)))
  {
    var s' := s.(rows := Swept(s.rows, s.clock, threshold));
    forall id | id in s'.rows
      ensures HasReport(s'.rows[id])
    {
      assert HasReport(s.rows[id]);
    }
    SourcesStay(s.rows, s'.rows);
    forall call | call in s'.calls
      ensures CallOk(s', call)
    {
      SweepKeepsCall(s, threshold, call);
    }
  }

  lemma SweepKeepsCall(s: System, threshold: int, call: nat)
    requires call in s.calls && CallOk(s, call)
    ensures CallOk(s.(rows := Swept(s.rows, s.clock, threshold)), call)
  {
  }

  lemma CallMoveKeepsInv(s: System, s': System, call: nat)
    requires Inv(s) && s'.rows == s.rows && s'.owner == s.owner
    requires call in s'.calls && s'.calls == s.calls[call := s'.calls[call]] && CallOk(s', call)
    ensures Inv(s')
  {
    forall other | other in s'.calls
      ensures CallOk(s', other)
    {
      if other != call {
        assert CallOk(s, other);
      }
    }
  }

  lemma HitKeepsInv(s: System, s': System, call: nat, src: nat, id: nat)
    requires Inv(s) && HitStep(s, s', call, src, id)
    ensures Inv(s')
  {
    assert CallOk(s, call);
    assert Sourced(s.rows, s'.rows[id]);
    SourcesStay(s.rows, s'.rows);
    InsertKeepsInv(s, s', call, id);
  }

  lemma MissKeepsInv(s: System, s': System, call: nat, id: nat)
    requires Inv(s) && MissStep(s, s', call, id)
    ensures Inv(s')
  {
    assert CallOk(s, call);
    SourcesStay(s.rows, s'.rows);
    InsertKeepsInv(s, s', call, id);
  }

  lemma NextKeepsInv(s: System, s': System, step: Step)
    requires Inv(s) && Next(s, s', step)
    ensures Inv(s')
  {
    match step
    case Start(call, _, _, _, _) =>
      CallMoveKeepsInv(s, s', call);
    case Hit(call, src, id) =>
      HitKeepsInv(s, s', call, src, id);
    case Miss(call, id) =>
      MissKeepsInv(s, s', call, id);
    case AttemptFails(call) =>
      assert CallOk(s, call);
      CallMoveKeepsInv(s, s', call);
    case AttemptSucceeds(call, report) =>
      OwnWriteKeepsInv(s, s', call, MarkedCompleted(s.rows[s.calls[call].phase.row], report));
    case PersistFailure(call, error) =>
      assert CallOk(s, call);
      OwnWriteKeepsInv(s, s', call, MarkedFailed(s.rows[s.calls[call].phase.row], error));
    case Abandon(call) =>
      assert CallOk(s, call);
      CallMoveKeepsInv(s, s', call);
    case Sweep(threshold) =>
      SweepKeepsInv(s, threshold);
    case Tick(_) =>
      forall call | call in s'.calls ensures CallOk(s', call) { assert CallOk(s, call); }
  }

  lemma {:induction false} ReachableInv(states: seq<System>, steps: seq<Step>, k: nat)
    requires IsHistory(states, steps) && k < |states|
    ensures Inv(states[k])
  {
    if k > 0 {
      ReachableInv(states, steps, k - 1);
      NextKeepsInv(states[k - 1], states[k], steps[k - 1]);
    }
  }

  // ---- Theorems ------------------------------------------------------------------------

  ghost predicate IsFinal(run: AuditRun) {
    run.status == Completed || run.status == CompletedCached || run.status == Failed
  }

  /** The columns fixed when the row is inserted. */
  ghost predicate SameRun(a: AuditRun, b: AuditRun) {
    a.employee == b.employee && a.date == b.date && a.startedAt == b.startedAt && a.forced == b.forced
  }

  /**
   * One step changes an existing row only in two ways: its own working call finishes it, or a sweep turns a
   * processing row stale. A final row does not change at all.
   */
  lemma RowChanges(s: System, s': System, step: Step, id: nat)
    requires Inv(s) && Next(s, s', step) && id in s.rows
    ensures id in s'.rows && SameRun(s.rows[id], s'.rows[id])
    ensures IsFinal(s.rows[id]) ==> s'.rows[id] == s.rows[id]
    ensures s'.rows[id] != s.rows[id] ==>
              || (step.Sweep? && s.rows[id].status == Processing && s'.rows[id] == MarkedStale(s.rows[id]))
              || (step == AttemptSucceeds(s.owner[id], if step.AttemptSucceeds? then step.report else "")
                  && s'.rows[id].status == Completed)
              || (step == PersistFailure(s.owner[id], if step.PersistFailure? then step.error else "")
                  && s'.rows[id].status == Failed)
  {
    match step
    case AttemptSucceeds(call, _) => assert CallOk(s, call);
    case PersistFailure(call, _) => assert CallOk(s, call);
    case _ =>
  }

  /** From `s` to `t` the row stays, with its identity and its owner, and unchanged if it was final. */
  ghost predicate Kept(s: System, t: System, id: nat) {
    && id in s.rows && id in t.rows && SameRun(s.rows[id], t.rows[id])
    && id in s.owner && id in t.owner && t.owner[id] == s.owner[id]
    && (IsFinal(s.rows[id]) ==> t.rows[id] == s.rows[id])
  }

  lemma StepKeeps(s: System, s': System, step: Step, id: nat)
    requires Inv(s) && Next(s, s', step) && id in s.rows
    ensures Kept(s, s', id)
  {
    RowChanges(s, s', step, id);
  }

  lemma KeptTransitive(s: System, t: System, u: System, id: nat)
    requires Kept(s, t, id) && Kept(t, u, id)
    ensures Kept(s, u, id)
  {
  }

  /** Over a whole history: no row disappears, its identity is fixed, and once final it never changes again. */
  lemma {:induction false} FinalRowsNeverChange(states: seq<System>, steps: seq<Step>, i: nat, j: nat, id: nat)
    requires IsHistory(states, steps) && i <= j < |states| && id in states[i].rows
    ensures Kept(states[i], states[j], id)
    decreases j
  {
    if i == j {
      ReachableInv(states, steps, j);
      KeptAtOnce(states[j], id);
    } else {
      FinalRowsNeverChange(states, steps, i, j - 1, id);
      HistoryStep(states, steps, j - 1);
      StepKeeps(states[j - 1], states[j], steps[j - 1], id);
      KeptTransitive(states[i], states[j - 1], states[j], id);
    }
  }

  lemma KeptAtOnce(s: System, id: nat)
    requires Inv(s) && id in s.rows
    ensures Kept(s, s, id)
  {
  }

  lemma HistoryStep(states: seq<System>, steps: seq<Step>, k: nat)
    requires IsHistory(states, steps) && k < |steps|
    ensures Inv(states[k]) && Next(states[k], states[k + 1], steps[k])
  {
    ReachableInv(states, steps, k);
  }

  /** In every reachable ledger, completed rows have a report and cached rows copy that of a completed run. */
  lemma ReportsHaveSources(states: seq<System>, steps: seq<Step>, k: nat)
    requires IsHistory(states, steps) && k < |states|
    ensures forall id :: id in states[k].rows ==> HasReport(states[k].rows[id])
    ensures forall id :: id in states[k].rows && states[k].rows[id].status == CompletedCached ==>
              Sourced(states[k].rows, states[k].rows[id])
  {
    ReachableInv(states, steps, k);
  }

  function WithoutCached(rows: map<nat, AuditRun>): map<nat, AuditRun> {
    map id | id in rows && rows[id].status != CompletedCached :: rows[id]
  }

  /** Cached rows never serve as the source of a hit: dropping them changes no lookup. */
  lemma CachedRowsAreNoSource(rows: map<nat, AuditRun>, employee: int, date: int, id: nat)
    ensures IsLatestCompleted(rows, employee, date, id) <==> IsLatestCompleted(WithoutCached(rows), employee, date, id)
  {
    var kept := WithoutCached(rows);
    if IsLatestCompleted(kept, employee, date, id) {
      forall j | j in rows && IsCompletedFor(rows[j], employee, date)
        ensures rows[j].startedAt <= rows[id].startedAt
      {
        assert j in kept;
      }
    }
  }

  /** In a reachable state a call that is not forced opens with a hit exactly when a completed run exists. */
  lemma OpeningHitsIff(states: seq<System>, steps: seq<Step>, k: nat)
    requires IsHistory(states, steps) && k < |steps| && (steps[k].Hit? || steps[k].Miss?)
    ensures steps[k].call in states[k].calls
    ensures var c := states[k].calls[steps[k].call];
            steps[k].Hit? <==> !c.force && HasCompleted(states[k].rows, c.employee, c.date)
  {
    ReachableInv(states, steps, k);
    assert Next(states[k], states[k + 1], steps[k]);
    var s, c := states[k], states[k].calls[steps[k].call];
    if HasCompleted(s.rows, c.employee, c.date) {
      var first :| first in s.rows && IsCompletedFor(s.rows[first], c.employee, c.date);
      var latest := LatestExists(s.rows, s.rows.Keys, c.employee, c.date, first);
      assert HasReport(s.rows[latest]);
    }
  }

  lemma {:induction false} LatestExists(rows: map<nat, AuditRun>, ids: set<nat>, employee: int, date: int, first: nat)
    returns (id: nat)
    requires ids <= rows.Keys && first in rows && IsCompletedFor(rows[first], employee, date)
    ensures id in rows && IsCompletedFor(rows[id], employee, date) && rows[first].startedAt <= rows[id].startedAt
    ensures forall j :: j in ids && IsCompletedFor(rows[j], employee, date) ==> rows[j].startedAt <= rows[id].startedAt
    decreases ids
  {
    if ids == {} {
      id := first;
    } else {
      var next :| next in ids;
      id := LatestExists(rows, ids - {next}, employee, date, first);
      if IsCompletedFor(rows[next], employee, date) && rows[id].startedAt < rows[next].startedAt {
        id := next;
      }
    }
  }

  /** A swept row whose call is still working can yet be completed by it: the update has no status guard. */
  lemma SweptRowMayStillComplete(s: System, call: nat, report: string) returns (s': System)
    requires Inv(s) && call in s.calls && s.calls[call].phase.Trying?
    requires s.rows[s.calls[call].phase.row].status == Stale
    ensures Next(s, s', AttemptSucceeds(call, report))
    ensures var row := s.calls[call].phase.row; s'.rows[row].status == Completed && s'.rows[row].report == Some(report)
  {
    assert CallOk(s, call);
    var c := s.calls[call];
    s' := s.(rows := s.rows[c.phase.row := MarkedCompleted(s.rows[c.phase.row], report)],
             calls := s.calls[call := c.(phase := Over)]);
  }

  ghost predicate CanChange(s: System, id: nat)
    requires id in s.rows
  {
    exists s', step :: Next(s, s', step) && (id in s'.rows ==> s'.rows[id] != s.rows[id])
  }

  /** In a reachable ledger a swept row is settled for good exactly when the call that inserted it no longer works. */
  lemma SweptRowIsSettledIff(states: seq<System>, steps: seq<Step>, k: nat, id: nat)
    requires IsHistory(states, steps) && k < |states|
    requires id in states[k].rows && states[k].rows[id].status == Stale
    ensures id in states[k].owner && states[k].owner[id] in states[k].calls
    ensures CanChange(states[k], id) <==>
              var c := states[k].calls[states[k].owner[id]];
              Working(c) && c.phase.row == id
  {
    ReachableInv(states, steps, k);
    var s, call := states[k], states[k].owner[id];
    assert CallOk(s, call);
    if CanChange(s, id) {
      var s', step :| Next(s, s', step) && (id in s'.rows ==> s'.rows[id] != s.rows[id]);
      RowChanges(s, s', step, id);
    }
    if s.calls[call].phase.Trying? && s.calls[call].phase.row == id {
      var s' := SweptRowMayStillComplete(s, call, "");
    } else if s.calls[call].phase == Failing(id) {
      var s' := s.(rows := s.rows[id := MarkedFailed(s.rows[id], "")], calls := s.calls[call := s.calls[call].(phase := Over)]);
      assert Next(s, s', PersistFailure(call, ""));
    }
  }

  /** A call makes at most its bound of attempts. */
  lemma AttemptsAreBounded(states: seq<System>, steps: seq<Step>, k: nat, call: nat)
    requires IsHistory(states, steps) && k < |states| && call in states[k].calls
    ensures states[k].calls[call].phase.Trying? ==>
              1 <= states[k].calls[call].phase.attempt <= states[k].calls[call].maxAttempts
  {
    ReachableInv(states, steps, k);
    assert CallOk(states[k], call);
  }
}
