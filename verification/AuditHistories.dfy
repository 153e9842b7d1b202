/** One `run_audit` call as a path of ledger steps, and the histories of a call whose row is swept under its feet. */
module AuditHistories {
  import opened Common
  import opened AuditLedger
  import opened AuditInterleaving

  function CallOf(step: Step): Option<nat> {
    match step
    case Start(call, _, _, _, _) => Some(call)
    case Hit(call, _, _) => Some(call)
    case Miss(call, _) => Some(call)
    case AttemptFails(call) => Some(call)
    case AttemptSucceeds(call, _) => Some(call)
    case PersistFailure(call, _) => Some(call)
    case Abandon(call) => Some(call)
    case Sweep(_) => None
    case Tick(_) => None
  }

  /** A path from `s` to `t` on which only `call` moves. */
  ghost predicate Alone(s: System, t: System, states: seq<System>, steps: seq<Step>, call: nat) {
    && IsPath(states, steps) && states[0] == s && states[|steps|] == t
    && forall k :: 0 <= k < |steps| ==> CallOf(steps[k]) == Some(call)
  }

  lemma Move(s: System, t: System, states: seq<System>, steps: seq<Step>, call: nat, next: System, step: Step)
    returns (longer: seq<System>, path: seq<Step>)
    requires Alone(s, t, states, steps, call) && Next(t, next, step) && CallOf(step) == Some(call)
    ensures Alone(s, next, longer, path, call)
  {
    ExtendPath(states, steps, next, step);
    longer, path := states + [next], steps + [step];
  }

  // ---- A whole call ----------------------------------------------------------------------------

  /** `s` with the call in the given phase and its row as given. */
  function During(s: System, call: nat, c: Call, id: nat, row: AuditRun): System {
    s.(rows := s.rows[id := row], calls := s.calls[call := c], owner := s.owner[id := call])
  }

  lemma Opened(s: System, call: nat, c: Call, id: nat) returns (states: seq<System>, steps: seq<Step>)
    requires call !in s.calls && id !in s.rows && c.maxAttempts > 0 && c.phase == Trying(id, 1)
    requires c.force || !HasCompleted(s.rows, c.employee, c.date)
    ensures Alone(s, During(s, call, c, id, Started(c.employee, c.date, s.clock, c.force)), states, steps, call)
  {
    var opening := s.(calls := s.calls[call := c.(phase := Opening)]);
    states, steps := Move(s, s, [s], [], call, opening, Start(call, c.employee, c.date, c.force, c.maxAttempts));
    var t := During(s, call, c, id, Started(c.employee, c.date, s.clock, c.force));
    assert opening.calls[call := c] == t.calls;
    states, steps := Move(s, opening, states, steps, call, t, Miss(call, id));
  }

  /** `n` attempts fail, none of them the last one. */
  lemma {:induction false} SomeFail(s: System, call: nat, c: Call, id: nat, row: AuditRun, n: nat)
    returns (states: seq<System>, steps: seq<Step>)
    requires call !in s.calls && id !in s.rows && c.phase == Trying(id, 1) && n < c.maxAttempts
    requires c.force || !HasCompleted(s.rows, c.employee, c.date)
    requires row == Started(c.employee, c.date, s.clock, c.force)
    ensures Alone(s, During(s, call, c.(phase := Trying(id, n + 1)), id, row), states, steps, call)
  {
    if n == 0 {
      states, steps := Opened(s, call, c, id);
      assert c.(phase := Trying(id, 1)) == c;
    } else {
      states, steps := SomeFail(s, call, c, id, row, n - 1);
      states, steps := Fail(s, call, c.(phase := Trying(id, n)), id, row, states, steps, Trying(id, n + 1));
    }
  }

  lemma Fail(s: System, call: nat, c: Call, id: nat, row: AuditRun, states: seq<System>, steps: seq<Step>, phase: Phase)
    returns (longer: seq<System>, path: seq<Step>)
    requires Alone(s, During(s, call, c, id, row), states, steps, call) && c.phase.Trying?
    requires phase == if c.phase.attempt < c.maxAttempts then Trying(c.phase.row, c.phase.attempt + 1) else Failing(c.phase.row)
    ensures Alone(s, During(s, call, c.(phase := phase), id, row), longer, path, call)
  {
    var t, next := During(s, call, c, id, row), During(s, call, c.(phase := phase), id, row);
    assert t.calls[call := c.(phase := phase)] == next.calls;
    longer, path := Move(s, t, states, steps, call, next, AttemptFails(call));
  }

  /** The last step of a call, which may rewrite its row. */
  lemma Finish(s: System, call: nat, c: Call, id: nat, row: AuditRun, states: seq<System>, steps: seq<Step>,
               row': AuditRun, step: Step) returns (longer: seq<System>, path: seq<Step>)
    requires Alone(s, During(s, call, c, id, row), states, steps, call)
    requires
      || (c.phase.Trying? && c.phase.row == id && step == AttemptSucceeds(call, if row'.report.Some? then row'.report.value else "")
          && row'.report.Some? && row' == MarkedCompleted(row, row'.report.value))
      || (c.phase == Failing(id) && step.PersistFailure? && step.call == call && row' == MarkedFailed(row, step.error))
      || (step == Abandon(call) && row' == row)
    ensures Alone(s, During(s, call, c.(phase := Over), id, row'), longer, path, call)
  {
    var t, next := During(s, call, c, id, row), During(s, call, c.(phase := Over), id, row');
    assert t.calls[call := c.(phase := Over)] == next.calls;
    assert t.rows[id := row'] == next.rows;
    longer, path := Move(s, t, states, steps, call, next, step);
  }

  /**
   * Every outcome that a call without a cache hit can have is reached by steps of that call alone, from any ledger
   * in which the call has not started.
   */
  lemma MissIsAPath(s: System, call: nat, c: Call, id: nat, script: nat -> Attempt, reopens: bool, fault: Option<string>,
                    r: Returned, attempts: nat, rows': map<nat, AuditRun>)
    returns (t: System, states: seq<System>, steps: seq<Step>)
    requires call !in s.calls && id !in s.rows && c.phase == Trying(id, 1) && 0 < attempts <= c.maxAttempts
    requires c.force || !HasCompleted(s.rows, c.employee, c.date)
    requires AuditEnds(s.rows, id, Started(c.employee, c.date, s.clock, c.force), c.maxAttempts, script, reopens, fault, r,
                       attempts, rows')
    ensures Alone(s, t, states, steps, call)
    ensures t.rows == rows' && t.calls == s.calls[call := c.(phase := Over)] && t.clock == s.clock
  {
    var row := Started(c.employee, c.date, s.clock, c.force);
    var trying := c.(phase := Trying(id, attempts));
    states, steps := SomeFail(s, call, c, id, row, attempts - 1);
    match AttemptResult(script, attempts - 1) {
      case Ok(report) =>
        states, steps := Finish(s, call, trying, id, row, states, steps, MarkedCompleted(row, report), AttemptSucceeds(call, report));
        t := During(s, call, trying.(phase := Over), id, MarkedCompleted(row, report));
      case Err(error) =>
        states, steps := Fail(s, call, trying, id, row, states, steps, Failing(id));
        var failing := trying.(phase := Failing(id));
        if PersistError(PoolBefore(script, attempts), reopens, fault).None? {
          states, steps := Finish(s, call, failing, id, row, states, steps, MarkedFailed(row, error), PersistFailure(call, error));
          t := During(s, call, failing.(phase := Over), id, MarkedFailed(row, error));
        } else {
          states, steps := Finish(s, call, failing, id, row, states, steps, row, Abandon(call));
          t := During(s, call, failing.(phase := Over), id, row);
        }
    }
  }

  lemma HitIsAPath(s: System, call: nat, c: Call, id: nat, r: Returned, rows': map<nat, AuditRun>)
    returns (t: System, states: seq<System>, steps: seq<Step>)
    requires call !in s.calls && id !in s.rows && c.maxAttempts > 0 && !c.force && r.Cached?
    requires CacheHit(s.rows, id, s.clock, c.employee, c.date, r, rows')
    ensures Alone(s, t, states, steps, call)
    ensures t.rows == rows' && t.calls == s.calls[call := c.(phase := Over)] && t.clock == s.clock
  {
    var src :| IsLatestCompleted(s.rows, c.employee, c.date, src) && s.rows[src].report == Some(r.report);
    var opening := s.(calls := s.calls[call := c.(phase := Opening)]);
    states, steps := Move(s, s, [s], [], call, opening, Start(call, c.employee, c.date, c.force, c.maxAttempts));
    t := s.(rows := rows', calls := s.calls[call := c.(phase := Over)], owner := s.owner[id := call]);
    assert opening.calls[call := c.(phase := Over)] == t.calls;
    states, steps := Move(s, opening, states, steps, call, t, Hit(call, src, id));
  }

  // ---- A row swept while its call works --------------------------------------------------------

  /** The first call of an empty ledger at time `start`, and a sweep at time `now` that finds its row overdue. */
  lemma SweptHistory(employee: int, date: int, force: bool, maxAttempts: nat, start: int, now: int, threshold: int)
    returns (states: seq<System>, steps: seq<Step>)
    requires maxAttempts > 0 && start <= now && start < now - threshold
    ensures IsHistory(states, steps) && |steps| == 4
    ensures steps == [Start(0, employee, date, force, maxAttempts), Miss(0, 0), Tick(now), Sweep(threshold)]
    ensures states[4] == SweptSystem(employee, date, force, maxAttempts, start, now)
    ensures states[4].rows[0].status == Stale
  {
    var s0 := System(map[], start, map[], map[]);
    var c := Call(employee, date, force, maxAttempts, Opening);
    var row := Started(employee, date, start, force);
    var s1 := s0.(calls := map[0 := c]);
    var s2 := System(map[0 := row], start, map[0 := c.(phase := Trying(0, 1))], map[0 := 0]);
    var s3 := s2.(clock := now);
    var s4 := SweptSystem(employee, date, force, maxAttempts, start, now);
    assert Next(s0, s1, Start(0, employee, date, force, maxAttempts)) && Next(s1, s2, Miss(0, 0));
    assert Next(s3, s4, Sweep(threshold)) by { assert Swept(s3.rows, now, threshold) == s4.rows; }
    states := [s0, s1, s2, s3, s4];
    steps := [Start(0, employee, date, force, maxAttempts), Miss(0, 0), Tick(now), Sweep(threshold)];
  }

  function SweptSystem(employee: int, date: int, force: bool, maxAttempts: nat, start: int, now: int): System {
    System(map[0 := MarkedStale(Started(employee, date, start, force))], now,
           map[0 := Call(employee, date, force, maxAttempts, Trying(0, 1))], map[0 := 0])
  }

  /** A swept row is completed after all by its call: the update has no status guard. */
  lemma SweptRowIsCompleted(employee: int, date: int, force: bool, maxAttempts: nat, start: int, now: int, threshold: int,
                            report: string) returns (states: seq<System>, steps: seq<Step>)
    requires maxAttempts > 0 && start <= now && start < now - threshold
    ensures IsHistory(states, steps) && |steps| == 5 && steps[3] == Sweep(threshold) && steps[4] == AttemptSucceeds(0, report)
    ensures 0 in states[4].rows && states[4].rows[0].status == Stale
    ensures 0 in states[5].rows && states[5].rows[0].status == Completed && states[5].rows[0].report == Some(report)
  {
    states, steps := SweptHistory(employee, date, force, maxAttempts, start, now, threshold);
    var s := states[4];
    var s' := s.(rows := s.rows[0 := MarkedCompleted(s.rows[0], report)], calls := s.calls[0 := s.calls[0].(phase := Over)]);
    ExtendPath(states, steps, s', AttemptSucceeds(0, report));
    states, steps := states + [s'], steps + [AttemptSucceeds(0, report)];
  }

  /** Or it is marked failed, with the error of the attempt in place of the sweeper's. */
  lemma SweptRowIsFailed(employee: int, date: int, force: bool, start: int, now: int, threshold: int, error: string)
    returns (states: seq<System>, steps: seq<Step>)
    requires start <= now && start < now - threshold
    ensures IsHistory(states, steps) && |steps| == 6 && steps[3] == Sweep(threshold)
    ensures steps[4] == AttemptFails(0) && steps[5] == PersistFailure(0, error)
    ensures 0 in states[4].rows && states[4].rows[0].status == Stale
    ensures 0 in states[6].rows && states[6].rows[0].status == Failed && states[6].rows[0].error == Some(Bounded(error))
  {
    states, steps := SweptHistory(employee, date, force, 1, start, now, threshold);
    var s := states[4];
    var s5 := s.(calls := s.calls[0 := s.calls[0].(phase := Failing(0))]);
    ExtendPath(states, steps, s5, AttemptFails(0));
    states, steps := states + [s5], steps + [AttemptFails(0)];
    var s6 := s5.(rows := s5.rows[0 := MarkedFailed(s5.rows[0], error)], calls := s5.calls[0 := s5.calls[0].(phase := Over)]);
    ExtendPath(states, steps, s6, PersistFailure(0, error));
    states, steps := states + [s6], steps + [PersistFailure(0, error)];
  }
}
