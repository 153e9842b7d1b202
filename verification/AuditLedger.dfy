/**
 * The audit ledger `audit_runs` and one `run_audit` call: cache hit, processing row, bounded retries, and a
 * failure path that survives a connection pool closed in mid-run.
 */
module AuditLedger {
  import opened Common

  datatype Status = Processing | Completed | CompletedCached | Failed | Stale

  datatype AuditRun = AuditRun(employee: int, date: int, status: Status, startedAt: int, finished: bool,
                               report: Option<string>, error: Option<string>, forced: bool)

  // ---- Queries and updates -----------------------------------------------------------

  predicate IsCompletedFor(run: AuditRun, employee: int, date: int) {
    run.employee == employee && run.date == date && run.status == Completed
  }

  /** `find_completed_run`: the completed run of that employee and date that started last. */
  ghost predicate IsLatestCompleted(rows: map<nat, AuditRun>, employee: int, date: int, id: nat) {
    && id in rows && IsCompletedFor(rows[id], employee, date)
    && forall j :: j in rows && IsCompletedFor(rows[j], employee, date) ==> rows[j].startedAt <= rows[id].startedAt
  }

  ghost predicate HasCompleted(rows: map<nat, AuditRun>, employee: int, date: int) {
    exists id :: id in rows && IsCompletedFor(rows[id], employee, date)
  }

  function Started(employee: int, date: int, clock: int, force: bool): AuditRun {
    AuditRun(employee, date, Processing, clock, false, None, None, force)
  }

  function MarkedCompleted(run: AuditRun, report: string): AuditRun {
    run.(status := Completed, finished := true, report := Some(report), error := None)
  }

  function Bounded(error: string): string {
    if |error| <= 4000 then error else error[..4000]
  }

  function MarkedFailed(run: AuditRun, error: string): AuditRun {
    run.(status := Failed, finished := true, error := Some(Bounded(error)))
  }

  predicate IsOverdue(run: AuditRun, now: int, threshold: int) {
    run.status == Processing && run.startedAt < now - threshold
  }

  function MarkedStale(run: AuditRun): AuditRun {
    run.(status := Stale, finished := true, error := Some("sweeper_timeout"))
  }

  function Swept(rows: map<nat, AuditRun>, now: int, threshold: int): map<nat, AuditRun> {
    map id | id in rows :: if IsOverdue(rows[id], now, threshold) then MarkedStale(rows[id]) else rows[id]
  }

  function InFlight(rows: map<nat, AuditRun>): set<nat> {
    set id | id in rows && rows[id].status == Processing
  }

  /** Two sweeps at one time act as one sweep with the shorter patience, so a repeated sweep finds nothing. */
  lemma SweepsCompose(rows: map<nat, AuditRun>, now: int, a: int, b: int)
    ensures Swept(Swept(rows, now, a), now, b) == Swept(rows, now, if a < b then a else b)
    ensures forall id :: id in rows ==> !IsOverdue(Swept(rows, now, a)[id], now, a)
  {
  }

  function Overdue(rows: map<nat, AuditRun>, now: int, threshold: int): set<nat> {
    set id | id in rows && IsOverdue(rows[id], now, threshold)
  }

  /** The rows a sweep takes out of processing are exactly the overdue ones. */
  lemma SweepCounts(rows: map<nat, AuditRun>, now: int, threshold: int)
    ensures |InFlight(rows)| - |InFlight(Swept(rows, now, threshold))| == |Overdue(rows, now, threshold)|
  {
    assert InFlight(rows) == Overdue(rows, now, threshold) + InFlight(Swept(rows, now, threshold));
    assert Overdue(rows, now, threshold) !! InFlight(Swept(rows, now, threshold));
  }

  // ---- Attempts ------------------------------------------------------------------------

  /** What the outside world does to one attempt: the prefetch, the crew (which may close the pool), the final write. */
  datatype Attempt = Attempt(prefetchError: Option<string>, crew: Result<string>, closesPool: bool, writeError: Option<string>)

  const POOL_CLOSED := "Database pool is not initialized. Call init_db() first."

  const INIT_FAILED := "Failed to initialize PostgreSQL connection pool"

  /** Whether the attempt gets as far as the crew. */
  predicate ReachesCrew(open: bool, a: Attempt) {
    open && a.prefetchError.None?
  }

  function PoolAfter(open: bool, a: Attempt): bool {
    open && !(ReachesCrew(open, a) && a.closesPool)
  }

  /** The report an attempt stores, or the error it raises. */
  function OutcomeOf(open: bool, a: Attempt): Result<string> {
    if !open then Err(POOL_CLOSED)
    else if a.prefetchError.Some? then Err(a.prefetchError.value)
    else if a.crew.Err? then a.crew
    else if !PoolAfter(open, a) then Err(POOL_CLOSED)
    else if a.writeError.Some? then Err(a.writeError.value)
    else a.crew
  }

  /** The pool when attempt number `k` (from 0) starts; nothing between attempts re-opens it. */
  function PoolBefore(script: nat -> Attempt, k: nat): bool {
    if k == 0 then true else PoolAfter(PoolBefore(script, k - 1), script(k - 1))
  }

  function AttemptResult(script: nat -> Attempt, k: nat): Result<string> {
    OutcomeOf(PoolBefore(script, k), script(k))
  }

  /** The pool is open for attempt `k` exactly when no earlier attempt got to a crew that closed it. */
  lemma {:induction false} PoolOpenIff(script: nat -> Attempt, k: nat)
    ensures PoolBefore(script, k) <==> forall j: nat :: j < k && script(j).prefetchError.None? ==> !script(j).closesPool
  {
    if k > 0 {
      PoolOpenIff(script, k - 1);
    }
  }

  /** Once an attempt has closed the pool, every later attempt fails. */
  lemma {:induction false} ClosedPoolFailsTheRest(script: nat -> Attempt, k: nat, later: nat)
    requires k < later && ReachesCrew(PoolBefore(script, k), script(k)) && script(k).closesPool
    ensures !PoolBefore(script, later)
    ensures AttemptResult(script, k).Err? && AttemptResult(script, later) == Err(POOL_CLOSED)
    decreases later
  {
    if later > k + 1 {
      ClosedPoolFailsTheRest(script, k, later - 1);
    }
  }

  /** What the failure path raises instead of the error of the last attempt, if anything. */
  function PersistError(open: bool, reachable: bool, fault: Option<string>): Option<string> {
    if open || reachable then fault else Some(INIT_FAILED)
  }

  datatype Returned =
    | Cached(id: nat, report: string)
    | Done(id: nat, report: string)
    | Raised(message: string)

  function MaxAttempts(retries: int): nat {
    if retries + 1 > 1 then retries + 1 else 1
  }

  // ---- The ledger ------------------------------------------------------------------------

  class Ledger {
    var rows: map<nat, AuditRun>
    /** Run ids are fresh UUIDs. */
    var nextId: nat
    var clock: int
    /** `_POOL is not None` */
    var poolOpen: bool

    ghost predicate Valid()
      reads this
    {
      && (forall id :: id in rows ==> id < nextId)
      && (forall id :: id in rows && rows[id].status == Completed ==> rows[id].report.Some?)
    }

    method FindCompletedRun(employee: int, date: int) returns (hit: Option<nat>)
      ensures hit.None? <==> !HasCompleted(rows, employee, date)
      ensures hit.Some? ==> IsLatestCompleted(rows, employee, date, hit.value)
    {
      hit := None;
      var todo := rows.Keys;
      while todo != {}
        invariant todo <= rows.Keys
        invariant hit.None? ==> forall j :: j in rows && j !in todo ==> !IsCompletedFor(rows[j], employee, date)
        invariant hit.Some? ==> hit.value in rows && IsCompletedFor(rows[hit.value], employee, date)
        invariant hit.Some? ==> forall j :: j in rows && j !in todo && IsCompletedFor(rows[j], employee, date) ==>
                    rows[j].startedAt <= rows[hit.value].startedAt
        decreases todo
      {
        var id :| id in todo;
        todo := todo - {id};
        if IsCompletedFor(rows[id], employee, date) && (hit.None? || rows[hit.value].startedAt < rows[id].startedAt) {
          hit := Some(id);
        }
      }
    }

    method InsertRun(run: AuditRun) returns (id: nat)
      modifies this`rows, this`nextId
      ensures id == old(nextId) && nextId == id + 1 && rows == old(rows)[id := run]
    {
      id := nextId;
      rows := rows[id := run];
      nextId := nextId + 1;
    }

    method SweepStaleAuditRuns(threshold: int) returns (count: nat)
      requires Valid()
      modifies this`rows
      ensures Valid() && rows == Swept(old(rows), clock, threshold)
      ensures forall id :: id in rows ==> !IsOverdue(rows[id], clock, threshold)
      ensures rows.Keys == old(rows).Keys
      ensures forall id :: id in rows ==> (rows[id] != old(rows)[id] <==> IsOverdue(old(rows)[id], clock, threshold))
      ensures count == |InFlight(old(rows))| - |InFlight(rows)|
    {
      SweepCounts(rows, clock, threshold);
      count := |Overdue(rows, clock, threshold)|;
      rows := Swept(rows, clock, threshold);
    }

    /** `init_db`: a no-op on an open pool. */
    method InitDb(reachable: bool) returns (ok: bool)
      modifies this`poolOpen
      ensures ok == poolOpen == (old(poolOpen) || reachable)
    {
      poolOpen := poolOpen || reachable;
      ok := poolOpen;
    }

    method CloseDb()
      modifies this`poolOpen
      ensures !poolOpen
    {
      poolOpen := false;
    }

    /**
     * `_persist_failed_run`: re-opens a closed pool once. `fault` is the error of the update itself, which nothing
     * catches. The result is the error raised, if any.
     */
    method PersistFailedRun(id: nat, error: string, reachable: bool, fault: Option<string>) returns (raised: Option<string>)
      requires id in rows
      modifies this`rows, this`poolOpen
      ensures raised == PersistError(old(poolOpen), reachable, fault) && poolOpen == (old(poolOpen) || reachable)
      ensures rows == if raised.None? then old(rows)[id := MarkedFailed(old(rows)[id], error)] else old(rows)
    {
      if !poolOpen {
        var ok := InitDb(reachable);
        if !ok { return Some(INIT_FAILED); }
      }
      if fault.Some? { return fault; }
      rows := rows[id := MarkedFailed(rows[id], error)];
      return None;
    }

    /** One pass through the body of the retry loop. */
    method TryOnce(id: nat, a: Attempt) returns (r: Result<string>)
      requires id in rows
      modifies this`rows, this`poolOpen
      ensures r == OutcomeOf(old(poolOpen), a) && poolOpen == PoolAfter(old(poolOpen), a)
      ensures rows == if r.Ok? then old(rows)[id := MarkedCompleted(old(rows)[id], r.value)] else old(rows)
    {
      if !poolOpen { return Err(POOL_CLOSED); }
      if a.prefetchError.Some? { return Err(a.prefetchError.value); }
      if a.closesPool { CloseDb(); }
      if a.crew.Err? { return a.crew; }
      if !poolOpen { return Err(POOL_CLOSED); }
      if a.writeError.Some? { return Err(a.writeError.value); }
      rows := rows[id := MarkedCompleted(rows[id], a.crew.value)];
      return a.crew;
    }

    /** The retry loop: stop at the first success, or after `maxAttempts` failures with the last error. */
    method Retry(id: nat, maxAttempts: nat, script: nat -> Attempt) returns (last: Result<string>, attempts: nat)
      requires id in rows && poolOpen && maxAttempts > 0
      modifies this`rows, this`poolOpen
      ensures 0 < attempts <= maxAttempts
      ensures forall k :: 0 <= k < attempts - 1 ==> AttemptResult(script, k).Err?
      ensures last == AttemptResult(script, attempts - 1) && (last.Err? ==> attempts == maxAttempts)
      ensures rows == if last.Ok? then old(rows)[id := MarkedCompleted(old(rows)[id], last.value)] else old(rows)
      ensures poolOpen == PoolBefore(script, attempts) && (last.Ok? ==> poolOpen)
    {
      attempts := 0;
      last := Err("");
      while attempts < maxAttempts
        invariant attempts <= maxAttempts && rows == old(rows) && poolOpen == PoolBefore(script, attempts)
        invariant forall k :: 0 <= k < attempts ==> AttemptResult(script, k).Err?
        invariant attempts > 0 ==> last == AttemptResult(script, attempts - 1)
      {
        last := TryOnce(id, script(attempts));
        attempts := attempts + 1;
        if last.Ok? { return; }
      }
    }

    /**
     * `run_audit`. `script` is what happens to attempt 0, 1, ...; `reachable` and `reopens` say whether the
     * database accepts a pool at the start and on the failure path, `fault` is the error of the failing update.
     * `attempts` counts the attempts made.
     */
    method RunAudit(employee: int, date: int, force: bool, manageLifecycle: bool, retries: int,
                    script: nat -> Attempt, reachable: bool, reopens: bool, fault: Option<string>)
      returns (r: Returned, attempts: nat)
      requires Valid()
      modifies this
      ensures Valid() && clock == old(clock)
      // No connection: nothing happens.
      ensures !old(poolOpen) && !reachable ==>
                r == Raised(INIT_FAILED) && attempts == 0 && rows == old(rows) && nextId == old(nextId) && !poolOpen
      // A cache hit copies the report of the latest completed run into a new row.
      ensures r.Cached? <==> (old(poolOpen) || reachable) && !force && HasCompleted(old(rows), employee, date)
      ensures r.Cached? ==> attempts == 0 && CacheHit(old(rows), old(nextId), clock, employee, date, r, rows)
      // Otherwise attempts are made, and the call completes exactly when one within the bound succeeds.
      ensures (old(poolOpen) || reachable) && !r.Cached? ==>
                && 0 < attempts <= MaxAttempts(retries)
                && (r.Done? <==> exists k :: 0 <= k < MaxAttempts(retries) && AttemptResult(script, k).Ok?)
                && AuditEnds(old(rows), old(nextId), Started(employee, date, clock, force), MaxAttempts(retries), script, reopens,
                             fault, r, attempts, rows)
      ensures old(poolOpen) || reachable ==> nextId == old(nextId) + 1
      ensures old(poolOpen) || reachable ==>
                poolOpen == (!manageLifecycle && (r.Raised? ==> PoolBefore(script, attempts) || reopens))
    {
      attempts := 0;
      var ok := InitDb(reachable);
      if !ok { return Raised(INIT_FAILED), 0; }

      var report, id := OpenRun(employee, date, force);
      if report.Some? {
        r := Cached(id, report.value);
      } else {
        ghost var begun := rows;
        r, attempts := FinishRun(id, MaxAttempts(retries), script, reopens, fault);
        SameEnd(old(rows), begun, id, Started(employee, date, clock, force), MaxAttempts(retries), script, reopens, fault, r,
                attempts, rows);
      }
      if manageLifecycle { CloseDb(); }
    }

    /** The opening transaction: a cached row with the report of a completed run, or a processing row. */
    method OpenRun(employee: int, date: int, force: bool) returns (report: Option<string>, id: nat)
      requires Valid()
      modifies this`rows, this`nextId
      ensures Valid() && id == old(nextId) && nextId == id + 1
      ensures report.Some? <==> !force && HasCompleted(old(rows), employee, date)
      ensures report.Some? ==> CacheHit(old(rows), id, clock, employee, date, Cached(id, report.value), rows)
      ensures report.None? ==> rows == old(rows)[id := Started(employee, date, clock, force)]
    {
      if !force {
        var hit := FindCompletedRun(employee, date);
        if hit.Some? && rows[hit.value].report.Some? {
          report := rows[hit.value].report;
          assert IsLatestCompleted(old(rows), employee, date, hit.value);
          id := InsertRun(AuditRun(employee, date, CompletedCached, clock, false, report, None, false));
          return;
        }
      }
      report := None;
      id := InsertRun(Started(employee, date, clock, force));
    }

    /** The part of `run_audit` behind the opening transaction: the attempts and, if all fail, the failure path. */
    method FinishRun(id: nat, maxAttempts: nat, script: nat -> Attempt, reopens: bool, fault: Option<string>)
      returns (r: Returned, attempts: nat)
      requires id in rows && poolOpen && maxAttempts > 0
      modifies this`rows, this`poolOpen
      ensures 0 < attempts <= maxAttempts
      ensures r.Done? <==> exists k :: 0 <= k < maxAttempts && AttemptResult(script, k).Ok?
      ensures !r.Cached? && AuditEnds(old(rows), id, old(rows)[id], maxAttempts, script, reopens, fault, r, attempts, rows)
      ensures poolOpen == (r.Raised? ==> PoolBefore(script, attempts) || reopens)
    {
      var last;
      last, attempts := Retry(id, maxAttempts, script);
      FirstSuccessDecides(script, attempts, maxAttempts);
      if last.Ok? { return Done(id, last.value), attempts; }
      var raised := PersistFailedRun(id, last.message, reopens, fault);
      assert raised.Some? ==> rows == rows[id := rows[id]];
      return Raised(if raised.Some? then raised.value else last.message), attempts;
    }
  }

  /** A new row with the report of the latest completed run. */
  ghost predicate CacheHit(rows: map<nat, AuditRun>, id: nat, clock: int, employee: int, date: int, r: Returned,
                           rows': map<nat, AuditRun>)
    requires r.Cached?
  {
    && r.id == id
    && rows' == rows[id := AuditRun(employee, date, CompletedCached, clock, false, Some(r.report), None, false)]
    && exists src :: IsLatestCompleted(rows, employee, date, src) && rows[src].report == Some(r.report)
  }

  /**
   * How a call that started row `id` ends after `attempts` attempts, all but the last of which failed. Success: the
   * row is completed with the report. Failure: the bound is used up, the row is marked failed and the last error
   * raised, unless the failing update itself cannot be made; then the row stays and that error is raised.
   */
  ghost predicate AuditEnds(rows: map<nat, AuditRun>, id: nat, started: AuditRun, bound: nat, script: nat -> Attempt,
                            reopens: bool, fault: Option<string>, r: Returned, attempts: nat, rows': map<nat, AuditRun>)
    requires 0 < attempts
  {
    var last := AttemptResult(script, attempts - 1);
    && (forall k :: 0 <= k < attempts - 1 ==> AttemptResult(script, k).Err?)
    && match last {
         case Ok(report) => r == Done(id, report) && rows' == rows[id := MarkedCompleted(started, report)]
         case Err(error) =>
           var raised := PersistError(PoolBefore(script, attempts), reopens, fault);
           && attempts == bound
           && r == Raised(if raised.Some? then raised.value else error)
           && rows' == rows[id := if raised.None? then MarkedFailed(started, error) else started]
       }
  }

  lemma SameEnd(rows: map<nat, AuditRun>, begun: map<nat, AuditRun>, id: nat, started: AuditRun, bound: nat,
                script: nat -> Attempt, reopens: bool, fault: Option<string>, r: Returned, attempts: nat,
                rows': map<nat, AuditRun>)
    requires 0 < attempts && begun == rows[id := started]
    requires AuditEnds(begun, id, started, bound, script, reopens, fault, r, attempts, rows')
    ensures AuditEnds(rows, id, started, bound, script, reopens, fault, r, attempts, rows')
    ensures id in rows' && (started.report.None? && started.status == Processing && rows'[id].status == Completed ==>
              rows'[id].report.Some?)
    ensures forall i :: i in rows' && i != id ==> i in rows && rows'[i] == rows[i]
  {
  }

  /**
   * When the attempts stop at the first success or at the bound, the last one succeeded exactly when some attempt
   * within the bound would.
   */
  lemma FirstSuccessDecides(script: nat -> Attempt, attempts: nat, bound: nat)
    requires 0 < attempts <= bound
    requires forall k :: 0 <= k < attempts - 1 ==> AttemptResult(script, k).Err?
    requires AttemptResult(script, attempts - 1).Err? ==> attempts == bound
    ensures AttemptResult(script, attempts - 1).Ok? <==> exists k :: 0 <= k < bound && AttemptResult(script, k).Ok?
  {
    if AttemptResult(script, attempts - 1).Err? {
      forall k | 0 <= k < bound
        ensures AttemptResult(script, k).Err?
      {
        assert k < attempts - 1 || k == attempts - 1;
      }
    }
  }
}
