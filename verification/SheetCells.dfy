/** Refreshing rectangles of sheet_cells (WorkAI/ingest/runner.py). */
module SheetCells {
  import opened Common
  import opened Text
  import opened Batching
  import opened Upserts
  import opened Grids
  import opened A1Notation

  datatype SheetId = SheetId(spreadsheet: string, title: string)

  datatype Stored = Stored(a1: string, text: string)

  /** sheet_cells by primary key, without timestamps. */
  type CellTable = map<Place<SheetId>, Stored>

  type CellRow = (Place<SheetId>, Stored)

  /** Every range that `parse_a1_range` accepts has positive, ordered bounds (A1Notation.ParsedRangeIsPositive). */
  type Range = r: RangeSpec | 0 < r.startRow <= r.endRow && 0 < r.startCol <= r.endCol
    witness RangeSpec("", 1, 1, 1, 1)

  /** A fetched range: its parsed bounds, and the values as text (None is a JSON null). */
  datatype Payload = Payload(spreadsheet: string, range: Range, values: seq<seq<Option<string>>>)

  // ---- Flattening ------------------------------------------------------------------------------

  /** What one value becomes: nothing if it is blank. */
  function Render(r: Range, i: nat, j: nat, value: Option<string>): Option<Stored> {
    var text := if value.None? then "" else value.value;
    if Strip(text) == "" then None else Some(Stored(CellToA1(r.startRow + i, r.startCol + j).value, text))
  }

  function RenderRow(r: Range, i: nat, values: seq<Option<string>>): (row: seq<Option<Stored>>)
    ensures |row| == |values| && forall j :: 0 <= j < |row| ==> row[j] == Render(r, i, j, values[j])
  {
    seq(|values|, j requires 0 <= j < |values| => Render(r, i, j, values[j]))
  }

  function RenderGrid(p: Payload): (grid: seq<seq<Option<Stored>>>)
    ensures |grid| == |p.values| && forall i :: 0 <= i < |grid| ==> grid[i] == RenderRow(p.range, i, p.values[i])
  {
    seq(|p.values|, i requires 0 <= i < |p.values| => RenderRow(p.range, i, p.values[i]))
  }

  function SheetOf(p: Payload): SheetId { SheetId(p.spreadsheet, p.range.title) }

  /** The cells of a payload, row by row. */
  function CellsOf(p: Payload): seq<CellRow> {
    FlatGrid(SheetOf(p), p.range.startRow, p.range.startCol, RenderGrid(p))
  }

  /** What a payload says about a place: its non-blank text with the A1 name of the place, if any. */
  function PayloadValue(p: Payload, at: Place<SheetId>): Option<Stored> {
    GridValue(SheetOf(p), p.range.startRow, p.range.startCol, RenderGrid(p), at)
  }

  /** `flatten_value_range` */
  method FlattenValueRange(p: Payload) returns (cells: seq<CellRow>)
    ensures cells == CellsOf(p)
  {
    cells := FlattenGrid(SheetOf(p), p.range.startRow, p.range.startCol, RenderGrid(p));
  }

  // ---- One refresh -------------------------------------------------------------------------------

  predicate Covers(p: Payload, at: Place<SheetId>) {
    && at.sheet == SheetOf(p)
    && p.range.startRow <= at.row <= p.range.endRow && p.range.startCol <= at.col <= p.range.endCol
  }

  /** _DELETE_RANGE_SQL */
  function Cleared(table: CellTable, p: Payload): CellTable {
    map at | at in table && !Covers(p, at) :: table[at]
  }

  /** Inserting `rows` violates no primary key. */
  ghost predicate Free(table: CellTable, rows: seq<CellRow>) {
    && (forall i :: 0 <= i < |rows| ==> rows[i].0 !in table)
    && (forall i, j :: 0 <= i < j < |rows| ==> rows[i].0 != rows[j].0)
  }

  lemma FreeAppend(table: CellTable, rows: seq<CellRow>, more: seq<CellRow>)
    ensures Free(table, rows + more) <==> Free(table, rows) && Free(Upsert(table, rows), more)
  {
    UpsertAdds(table, rows);
    assert forall at :: at in Upsert(table, rows) <==> at in table || HasKey(rows, at);
    if Free(table, rows + more) {
      FreeParts(table, rows, more);
    }
    if Free(table, rows) && Free(Upsert(table, rows), more) {
      forall i | 0 <= i < |rows|
        ensures HasKey(rows, rows[i].0)
      {
      }
    }
  }

  lemma FreeParts(table: CellTable, rows: seq<CellRow>, more: seq<CellRow>)
    requires Free(table, rows + more)
    ensures Free(table, rows) && Free(table, more)
    ensures forall j :: 0 <= j < |more| ==> !HasKey(rows, more[j].0)
  {
    var all := rows + more;
    assert forall i :: 0 <= i < |rows| ==> all[i] == rows[i];
    assert forall j :: 0 <= j < |more| ==> all[|rows| + j] == more[j];
    forall i, j | 0 <= i < |rows| && 0 <= j < |more|
      ensures rows[i].0 != more[j].0
    {
      assert all[i].0 != all[|rows| + j].0;
    }
    forall i, j | 0 <= i < j < |more|
      ensures more[i].0 != more[j].0
    {
      assert all[|rows| + i].0 != all[|rows| + j].0;
    }
  }

  /** What a committed refresh leaves. */
  function Refreshed(table: CellTable, p: Payload): CellTable {
    Upsert(Cleared(table, p), CellsOf(p))
  }

  /** The refresh violates no primary key. */
  ghost predicate Commits(table: CellTable, p: Payload) {
    Free(Cleared(table, p), CellsOf(p))
  }

  // ---- The table -----------------------------------------------------------------------------------

  class SheetStore {
    var table: CellTable

    constructor ()
      ensures table == map[]
    {
      table := map[];
    }

    /** `executemany(_INSERT_CELL_SQL)`: stops at the first violated key. */
    method InsertBatch(rows: seq<CellRow>) returns (ok: bool)
      modifies this
      ensures ok <==> Free(old(table), rows)
      ensures ok ==> table == Upsert(old(table), rows)
    {
      for i := 0 to |rows|
        invariant Free(old(table), rows[..i]) && table == Upsert(old(table), rows[..i])
      {
        TakeSnoc(rows, i);
        SingleFree(table, rows[i]);
        FreeAppend(old(table), rows[..i], [rows[i]]);
        FreeAppend(old(table), rows[..i + 1], rows[i + 1..]);
        assert rows[..i + 1] + rows[i + 1..] == rows;
        if rows[i].0 in table { return false; }
        UpsertAppend(old(table), rows[..i], [rows[i]]);
        table := table[rows[i].0 := rows[i].1];
      }
      assert rows[..|rows|] == rows;
      return true;
    }

    /** `_replace_range_cells`: one transaction, undone as a whole on a violation. */
    method ReplaceRangeCells(p: Payload, cells: seq<CellRow>) returns (ok: bool)
      modifies this
      ensures ok <==> Free(Cleared(old(table), p), cells)
      ensures table == if ok then Upsert(Cleared(old(table), p), cells) else old(table)
    {
      var saved := table;
      table := Cleared(table, p);
      ghost var cleared := table;
      var chunks := Chunked(cells, 1000);
      var batches := chunks.value;
      for k := 0 to |batches|
        invariant Free(cleared, Flatten(batches[..k])) && table == Upsert(cleared, Flatten(batches[..k]))
      {
        FlattenStep(batches, k);
        FlattenSplit(batches, k + 1);
        FreeAppend(cleared, Flatten(batches[..k]), batches[k]);
        FreeAppend(cleared, Flatten(batches[..k + 1]), Flatten(batches[k + 1..]));
        UpsertAppend(cleared, Flatten(batches[..k]), batches[k]);
        var inserted := InsertBatch(batches[k]);
        if !inserted {
          table := saved;
          return false;
        }
      }
      assert batches[..|batches|] == batches;
      return true;
    }

    /** One fetched range: flatten it, then replace its rectangle. */
    method RefreshRange(p: Payload) returns (ok: bool)
      modifies this
      ensures ok <==> Commits(old(table), p)
      ensures table == if ok then Refreshed(old(table), p) else old(table)
    {
      var cells := FlattenValueRange(p);
      ok := ReplaceRangeCells(p, cells);
    }

    /**
     * The ranges of one response: each commits on its own, and the first one that `parse_a1_range` rejects or that
     * violates the key ends the run.
     */
    method RefreshRanges(fetched: seq<Result<Payload>>) returns (done: seq<Payload>)
      modifies this
      ensures Committed(old(table), fetched, done, table)
      ensures |done| < |fetched| ==> Stops(fetched, done, table)
    {
      done := [];
      while |done| < |fetched|
        invariant Committed(old(table), fetched, done, table)
        decreases |fetched| - |done|
      {
        var next := fetched[|done|];
        if next.Err? { return; }
        ghost var before := table;
        var ok := RefreshRange(next.value);
        if !ok { return; }
        CommittedStep(old(table), fetched, done, before, next.value);
        done := done + [next.value];
      }
    }

    /** The loop over the batches: a batch is requested only when everything before it is committed. */
    method RefreshBatches(batches: seq<seq<string>>, fetch: Fetch) returns (ok: bool, done: seq<Payload>, calls: nat)
      modifies this
      ensures calls <= |batches| && Committed(old(table), Answers(fetch, batches, calls), done, table)
      ensures ok ==> calls == |batches| && |done| == |Answers(fetch, batches, calls)|
      ensures !ok ==> 0 < calls && |Answers(fetch, batches, calls - 1)| <= |done|
      ensures !ok ==> Stops(Answers(fetch, batches, calls), done, table)
    {
      done, calls := [], 0;
      while calls < |batches|
        invariant calls <= |batches| && |done| == |Answers(fetch, batches, calls)|
        invariant Committed(old(table), Answers(fetch, batches, calls), done, table)
      {
        var answer := Answer(fetch(calls, batches[calls]));
        ghost var before := table;
        var more := RefreshRanges(answer);
        CommittedAppend(old(table), Answers(fetch, batches, calls), done, before, answer, more, table);
        calls, done := calls + 1, done + more;
        if |more| < |answer| { return false, done, calls; }
      }
      ok := true;
    }

    /**
     * `run_ingest`: `fetch` is what the client answers to call number 0, 1, ... on a batch of ranges. The payloads in
     * `done` are committed, in the order of the answers, and the first failure of any kind ends the run. `calls` counts
     * the requests.
     */
    method RunIngest(enabled: bool, ranges: seq<string>, batchRanges: int, fetch: Fetch)
      returns (ok: bool, done: seq<Payload>, calls: nat, ghost batches: seq<seq<string>>)
      modifies this
      ensures !enabled || batchRanges <= 0 ==> ok == !enabled && calls == 0 && batches == []
      ensures enabled && batchRanges > 0 ==> Flatten(batches) == ranges
      ensures enabled && batchRanges > 0 ==> forall k :: 0 <= k < |batches| - 1 ==> |batches[k]| == batchRanges
      ensures calls <= |batches| && Committed(old(table), Answers(fetch, batches, calls), done, table)
      ensures ok ==> calls == |batches| && |done| == |Answers(fetch, batches, calls)|
      ensures !ok && batchRanges > 0 ==>
                0 < calls && |Answers(fetch, batches, calls - 1)| <= |done| && Stops(Answers(fetch, batches, calls), done, table)
    {
      ok, done, calls, batches := true, [], 0, [];
      NothingCommitted(fetch, table);
      if enabled {
        var chunks := Chunked(ranges, batchRanges);
        ok := chunks.Ok?;
        if ok {
          ok, done, calls := RefreshBatches(chunks.value, fetch);
          batches := chunks.value;
        }
      }
    }
  }

  type Fetch = (nat, seq<string>) -> Result<seq<Result<Payload>>>

  /** A failed request counts as one answer that cannot be stored. */
  function Answer(response: Result<seq<Result<Payload>>>): seq<Result<Payload>> {
    match response
    case Ok(ranges) => ranges
    case Err(message) => [Err(message)]
  }

  /** The answers to the first `n` requests. */
  function Answers(fetch: Fetch, batches: seq<seq<string>>, n: nat): seq<Result<Payload>>
    requires n <= |batches|
  {
    if n == 0 then [] else Answers(fetch, batches, n - 1) + Answer(fetch(n - 1, batches[n - 1]))
  }

  /** `done` are the first answers. */
  ghost predicate IsDone(fetched: seq<Result<Payload>>, done: seq<Payload>) {
    |done| <= |fetched| && forall k :: 0 <= k < |done| ==> fetched[k] == Ok(done[k])
  }

  /** The answer behind the first ones is no range, or its refresh does not commit. */
  ghost predicate Stops(fetched: seq<Result<Payload>>, done: seq<Payload>, table: CellTable) {
    |done| < |fetched| && (fetched[|done|].Err? || !Commits(table, fetched[|done|].value))
  }

  /** `done` are the first answers, and each of them is committed on what its predecessors left. */
  ghost predicate Committed(before: CellTable, fetched: seq<Result<Payload>>, done: seq<Payload>, after: CellTable) {
    IsDone(fetched, done) && AllCommit(before, done) && after == AfterAll(before, done)
  }

  lemma NothingCommitted(fetch: Fetch, table: CellTable)
    ensures Committed(table, Answers(fetch, [], 0), [], table)
  {
  }

  lemma CommittedStep(start: CellTable, fetched: seq<Result<Payload>>, done: seq<Payload>, before: CellTable, p: Payload)
    requires Committed(start, fetched, done, before) && |done| < |fetched| && fetched[|done|] == Ok(p) && Commits(before, p)
    ensures Committed(start, fetched, done + [p], Refreshed(before, p))
  {
    AfterStep(start, done, p);
    DoneStep(fetched, done, p);
  }

  lemma DoneStep(fetched: seq<Result<Payload>>, done: seq<Payload>, p: Payload)
    requires IsDone(fetched, done) && |done| < |fetched| && fetched[|done|] == Ok(p)
    ensures IsDone(fetched, done + [p])
  {
  }

  lemma CommittedAppend(start: CellTable, fetched: seq<Result<Payload>>, done: seq<Payload>, before: CellTable,
                        answer: seq<Result<Payload>>, more: seq<Payload>, after: CellTable)
    requires Committed(start, fetched, done, before) && |done| == |fetched| && Committed(before, answer, more, after)
    ensures Committed(start, fetched + answer, done + more, after)
    ensures Stops(answer, more, after) ==> Stops(fetched + answer, done + more, after)
  {
    AfterAppend(start, done, more);
    DoneAppend(fetched, done, answer, more);
  }

  lemma DoneAppend(fetched: seq<Result<Payload>>, done: seq<Payload>, answer: seq<Result<Payload>>, more: seq<Payload>)
    requires IsDone(fetched, done) && |done| == |fetched| && IsDone(answer, more)
    ensures IsDone(fetched + answer, done + more)
    ensures |more| < |answer| ==> (fetched + answer)[|done + more|] == answer[|more|]
  {
    forall k | 0 <= k < |done + more|
      ensures (fetched + answer)[k] == Ok((done + more)[k])
    {
      if k >= |done| {
        assert answer[k - |done|] == Ok(more[k - |done|]);
      }
    }
  }

  lemma SingleFree(table: CellTable, row: CellRow)
    ensures Free(table, [row]) <==> row.0 !in table
    ensures Upsert(table, [row]) == table[row.0 := row.1]
  {
    assert [row][0] == row && [row][..0] == [];
  }

  function AfterAll(table: CellTable, payloads: seq<Payload>): CellTable {
    if payloads == [] then table
    else Refreshed(AfterAll(table, payloads[..|payloads| - 1]), payloads[|payloads| - 1])
  }

  /** Each refresh commits on the table its predecessors left. */
  ghost predicate AllCommit(table: CellTable, payloads: seq<Payload>) {
    payloads != [] ==>
      && AllCommit(table, payloads[..|payloads| - 1])
      && Commits(AfterAll(table, payloads[..|payloads| - 1]), payloads[|payloads| - 1])
  }

  lemma AppendSnoc<T>(s: seq<T>, t: seq<T>)
    requires t != []
    ensures s + t == s + t[..|t| - 1] + [t[|t| - 1]]
  {
  }

  lemma {:induction false} AfterAppend(table: CellTable, payloads: seq<Payload>, more: seq<Payload>)
    requires AllCommit(table, payloads) && AllCommit(AfterAll(table, payloads), more)
    ensures AfterAll(table, payloads + more) == AfterAll(AfterAll(table, payloads), more)
    ensures AllCommit(table, payloads + more)
    decreases |more|
  {
    if more == [] {
      assert payloads + more == payloads;
    } else {
      var front, last := more[..|more| - 1], more[|more| - 1];
      AfterAppend(table, payloads, front);
      AfterStep(table, payloads + front, last);
      AppendSnoc(payloads, more);
    }
  }

  lemma AfterStep(table: CellTable, payloads: seq<Payload>, p: Payload)
    ensures AllCommit(table, payloads + [p]) <==> AllCommit(table, payloads) && Commits(AfterAll(table, payloads), p)
    ensures AfterAll(table, payloads + [p]) == Refreshed(AfterAll(table, payloads), p)
  {
    assert (payloads + [p])[..|payloads|] == payloads;
  }

  // ---- What the table means -------------------------------------------------------------------------

  lemma CellsAreDistinct(p: Payload)
    ensures forall i, j :: 0 <= i < j < |CellsOf(p)| ==> CellsOf(p)[i].0 != CellsOf(p)[j].0
  {
    GridIsMajor(SheetOf(p), p.range.startRow, p.range.startCol, RenderGrid(p));
  }

  lemma CellsMatchPayload(p: Payload, at: Place<SheetId>)
    ensures HoldsAt(Upsert(map[], CellsOf(p)), at, PayloadValue(p, at))
  {
    FlatGridExact(SheetOf(p), p.range.startRow, p.range.startCol, RenderGrid(p), at);
  }

  /** A refresh fails exactly when the payload spills over its rectangle onto an occupied place. */
  lemma CommitsIff(table: CellTable, p: Payload)
    ensures Commits(table, p) <==>
            forall at :: PayloadValue(p, at).Some? && !Covers(p, at) ==> at !in table
  {
    var cells := CellsOf(p);
    CellsAreDistinct(p);
    UpsertAdds(map[], cells);
    forall at
      ensures PayloadValue(p, at).Some? <==> HasKey(cells, at)
    {
      CellsMatchPayload(p, at);
    }
    forall i | 0 <= i < |cells|
      ensures HasKey(cells, cells[i].0)
    {
    }
  }

  /** The payload stays within its rectangle. */
  predicate Fits(p: Payload) {
    && |p.values| <= p.range.endRow - p.range.startRow + 1
    && forall i :: 0 <= i < |p.values| ==> |p.values[i]| <= p.range.endCol - p.range.startCol + 1
  }

  lemma FittingStaysInside(p: Payload, at: Place<SheetId>)
    requires Fits(p) && PayloadValue(p, at).Some?
    ensures Covers(p, at)
  {
  }

  /** After a committed refresh a place holds the payload's text, or nothing if the rectangle covers it, or what it held. */
  lemma RefreshedValue(table: CellTable, p: Payload, at: Place<SheetId>, before: Option<Stored>)
    requires HoldsAt(table, at, before)
    ensures HoldsAt(Refreshed(table, p), at,
                    if PayloadValue(p, at).Some? then PayloadValue(p, at) else if Covers(p, at) then None else before)
  {
    CellsMatchPayload(p, at);
    OverlayHolds(Cleared(table, p), CellsOf(p), at, if Covers(p, at) then None else before, PayloadValue(p, at));
  }

  /** The value of the last refresh that covers a place; before any of them, what the table held. */
  function LastValue(table: CellTable, payloads: seq<Payload>, at: Place<SheetId>): Option<Stored> {
    if payloads == [] then if at in table then Some(table[at]) else None
    else
      var last := payloads[|payloads| - 1];
      if Covers(last, at) then PayloadValue(last, at) else LastValue(table, payloads[..|payloads| - 1], at)
  }

  /**
   * Main result: payloads that fit their rectangles never violate the primary key, and after any sequence of them
   * each place holds the value of the last refresh covering it, or nothing if that was blank.
   */
  lemma {:induction false} LastRefreshWins(table: CellTable, payloads: seq<Payload>, at: Place<SheetId>)
    requires forall k :: 0 <= k < |payloads| ==> Fits(payloads[k])
    ensures HoldsAt(AfterAll(table, payloads), at, LastValue(table, payloads, at))
    ensures AllCommit(table, payloads)
    decreases |payloads|
  {
    if payloads != [] {
      var front, last := payloads[..|payloads| - 1], payloads[|payloads| - 1];
      LastRefreshWins(table, front, at);
      RefreshedValue(AfterAll(table, front), last, at, LastValue(table, front, at));
      if PayloadValue(last, at).Some? {
        FittingStaysInside(last, at);
      }
      forall q | PayloadValue(last, q).Some?
        ensures Covers(last, q)
      {
        FittingStaysInside(last, q);
      }
      CommitsIff(AfterAll(table, front), last);
    }
  }

  /** Repeating a refresh changes nothing. */
  lemma RefreshTwice(table: CellTable, p: Payload)
    requires Fits(p)
    ensures Refreshed(Refreshed(table, p), p) == Refreshed(table, p)
  {
    var once := Refreshed(table, p);
    UpsertAdds(Cleared(table, p), CellsOf(p));
    forall at | at in Upsert(map[], CellsOf(p))
      ensures Covers(p, at)
    {
      CellsMatchPayload(p, at);
      FittingStaysInside(p, at);
    }
    assert Cleared(once, p) == Cleared(table, p);
  }
}
