/** Turning the cells of a sheet into raw task rows (WorkAI/parse/parser.py, WorkAI/parse/layout.py). */
module SheetParser {
  import opened Common
  import opened Text
  import opened Sorting
  import opened Totals
  import opened Batching
  import opened RefreshTables

  datatype Cell = Cell(sheet: Sheet, row: int, col: int, a1: string, value: Option<string>, ingestedAt: int)

  datatype Layout = Layout(headerRow: int, employeeCol: int)

  /** Recognizers and library calls: work dates, line splitting, week and year labels, the calendar, task wording. */
  datatype Reader = Reader(workDate: string -> Option<int>, splitLines: string -> seq<string>,
                           weekRange: string -> Option<(int, int)>, yearLabel: string -> Option<int>,
                           yearOf: int -> int, calendar: (int, int, int) -> Option<int>,
                           namesTask: string -> bool, isNonTask: string -> bool)

  /** `cell.value_text.strip()`, with nothing for a missing value. */
  function Cleaned(c: Cell): string {
    if c.value.None? then "" else Strip(c.value.value)
  }

  /** `[line.strip() for line in lines if line.strip()]` */
  function StrippedLines(lines: seq<string>): seq<string> {
    if lines == [] then []
    else
      var before, line := StrippedLines(lines[..|lines| - 1]), Strip(lines[|lines| - 1]);
      if line == "" then before else before + [line]
  }

  /** One row for each line of a cell, numbered from 1. */
  function TaskRows(reader: Reader, c: Cell, employee: Option<string>, date: int, text: string): (rows: seq<RawTask>)
    ensures forall i :: 0 <= i < |rows| ==> rows[i].at == Coord(c.sheet, c.row, c.col, i + 1)
    ensures forall i :: 0 <= i < |rows| ==> rows[i].employee == employee && rows[i].workDate == Some(date)
  {
    var lines := StrippedLines(reader.splitLines(text));
    seq(|lines|, i requires 0 <= i < |lines| =>
      RawTask(Coord(c.sheet, c.row, c.col, i + 1), c.a1, c.ingestedAt, employee, Some(date), lines[i]))
  }

  // ---- Matrix mode --------------------------------------------------------------------------------

  function DateEntry(reader: Reader, layout: Layout, c: Cell): Option<int> {
    if c.row == layout.headerRow && c.col > layout.employeeCol && c.value.Some? then reader.workDate(c.value.value) else None
  }

  function EmployeeEntry(layout: Layout, c: Cell): Option<string> {
    if c.row > layout.headerRow && c.col == layout.employeeCol && Cleaned(c) != "" then Some(Cleaned(c)) else None
  }

  function DateByCol(reader: Reader, layout: Layout, cells: seq<Cell>): map<int, int> {
    IndexBy((c: Cell) => c.col, (c: Cell) => DateEntry(reader, layout, c), cells)
  }

  function EmployeeByRow(layout: Layout, cells: seq<Cell>): map<int, string> {
    IndexBy((c: Cell) => c.row, (c: Cell) => EmployeeEntry(layout, c), cells)
  }

  /** What the matrix loop does with a cell. */
  datatype Verdict = Ignored | NoEmployee | NoDate | Tasks(rows: seq<RawTask>)

  function Read(reader: Reader, layout: Layout, dates: map<int, int>, employees: map<int, string>, c: Cell): Verdict {
    if c.row <= layout.headerRow || c.col <= layout.employeeCol || Cleaned(c) == "" then Ignored
    else if c.row !in employees then NoEmployee
    else if c.col !in dates then NoDate
    else Tasks(TaskRows(reader, c, Some(employees[c.row]), dates[c.col], c.value.value))
  }

  datatype Counts = Counts(parsed: nat, noEmployee: nat, noDate: nat)

  function Count(counts: Counts, v: Verdict): Counts {
    match v {
      case Ignored => counts
      case NoEmployee => counts.(noEmployee := counts.noEmployee + 1)
      case NoDate => counts.(noDate := counts.noDate + 1)
      case Tasks(_) => counts.(parsed := counts.parsed + 1)
    }
  }

  function VerdictRows(v: Verdict): seq<RawTask> { if v.Tasks? then v.rows else [] }

  function AllRows(verdicts: seq<Verdict>): seq<RawTask> {
    if verdicts == [] then [] else AllRows(verdicts[..|verdicts| - 1]) + VerdictRows(verdicts[|verdicts| - 1])
  }

  function AllCounts(verdicts: seq<Verdict>): Counts {
    if verdicts == [] then Counts(0, 0, 0)
    else Count(AllCounts(verdicts[..|verdicts| - 1]), verdicts[|verdicts| - 1])
  }

  predicate CellLe(c: Cell, d: Cell) {
    c.row < d.row || (c.row == d.row && c.col <= d.col)
  }

  function ReadAll(reader: Reader, layout: Layout, dates: map<int, int>, employees: map<int, string>, cells: seq<Cell>)
    : (verdicts: seq<Verdict>)
    ensures |verdicts| == |cells|
    ensures forall i :: 0 <= i < |cells| ==> verdicts[i] == Read(reader, layout, dates, employees, cells[i])
  {
    seq(|cells|, i requires 0 <= i < |cells| => Read(reader, layout, dates, employees, cells[i]))
  }

  /** The verdicts on all cells, row by row. */
  function Verdicts(reader: Reader, layout: Layout, cells: seq<Cell>): seq<Verdict> {
    ReadAll(reader, layout, DateByCol(reader, layout, cells), EmployeeByRow(layout, cells), SortBy(CellLe, cells))
  }

  // ---- Weekly boards --------------------------------------------------------------------------------

  type CellMap = m: map<(int, int), Cell> | forall k :: k in m ==> m[k].row == k.0 && m[k].col == k.1 witness map[]

  function ByPlace(cells: seq<Cell>): CellMap {
    if cells == [] then map[]
    else
      var last := cells[|cells| - 1];
      ByPlace(cells[..|cells| - 1])[(last.row, last.col) := last]
  }

  function WeekStart(reader: Reader, c: Cell): Option<(int, int)> {
    if c.value.Some? then reader.weekRange(Strip(c.value.value)) else None
  }

  function BlockStarts(reader: Reader, cells: seq<Cell>): seq<int> {
    SortedSet(set c | c in cells && c.col == 1 && WeekStart(reader, c).Some? :: c.row)
  }

  function MaxRow(cells: seq<Cell>): int
    requires cells != []
  {
    if |cells| == 1 then cells[0].row
    else
      var before, last := MaxRow(cells[..|cells| - 1]), cells[|cells| - 1].row;
      if before < last then last else before
  }

  /** The year label at a place, if there is one. */
  function YearAt(reader: Reader, places: CellMap, row: int): Option<int> {
    if (row, 5) in places && places[(row, 5)].value.Some?
    then reader.yearLabel(Strip(places[(row, 5)].value.value)) else None
  }

  /** `_resolve_week_year` */
  function WeekYear(reader: Reader, places: CellMap, start: int, fallback: int): int {
    var near, far := YearAt(reader, places, start + 12), YearAt(reader, places, start + 44);
    if near.Some? then near.value else if far.Some? then far.value else fallback
  }

  /** The Monday of a block; None where the loop skips the block. */
  function Monday(reader: Reader, places: CellMap, start: int): Option<int> {
    if (start, 1) !in places then None
    else
      var c := places[(start, 1)];
      var week := WeekStart(reader, c);
      if week.None? then None
      else reader.calendar(WeekYear(reader, places, start, reader.yearOf(c.ingestedAt)), week.value.1, week.value.0)
  }

  predicate HeadsTasks(reader: Reader, places: CellMap, row: int, k: (int, int)) {
    k in places && k.0 == row && places[k].value.Some? && reader.namesTask(places[k].value.value)
  }

  function ColumnsAmong(reader: Reader, places: CellMap, row: int, keys: set<(int, int)>): set<int> {
    set k | k in keys && HeadsTasks(reader, places, row, k) :: k.1
  }

  /** `_detect_task_columns`, with the fixed columns if none is found. */
  function TaskColumns(reader: Reader, places: CellMap, row: int): (columns: seq<int>)
    ensures Increasing(columns)
  {
    var found := SortedSet(ColumnsAmong(reader, places, row, places.Keys));
    if found == [] then [10, 14, 18, 22, 26] else found
  }

  /** The rows of one board cell on one day. */
  function BoardCell(reader: Reader, places: CellMap, employee: Option<string>, date: int, row: int, col: int)
    : (rows: seq<RawTask>)
    ensures forall i :: 0 <= i < |rows| ==> rows[i].at.row == row && rows[i].at.col == col && rows[i].at.line == i + 1
  {
    if (row, col) !in places then []
    else
      var c := places[(row, col)];
      var text := Cleaned(c);
      if text == "" || reader.isNonTask(text) then [] else TaskRows(reader, c, employee, date, text)
  }

  /** The n-th task column is the n-th day of the week. */
  function BoardDay(reader: Reader, places: CellMap, employee: Option<string>, monday: int, row: int, columns: seq<int>,
                    n: nat): (rows: seq<RawTask>)
    requires n < |columns|
  {
    BoardCell(reader, places, employee, monday + n, row, columns[n])
  }

  /** The first `n` days of a board row. */
  function BoardRow(reader: Reader, places: CellMap, employee: Option<string>, monday: int, row: int, columns: seq<int>,
                    n: nat): seq<RawTask>
    requires n <= |columns|
  {
    if n == 0 then []
    else BoardRow(reader, places, employee, monday, row, columns, n - 1)
         + BoardDay(reader, places, employee, monday, row, columns, n - 1)
  }

  /** The board rows from `from` up to, not including, `end`. */
  function BoardRows(reader: Reader, places: CellMap, employee: Option<string>, monday: int, columns: seq<int>,
                     from: int, end: int): seq<RawTask>
    decreases end - from
  {
    if end <= from then []
    else BoardRows(reader, places, employee, monday, columns, from, end - 1)
         + BoardRow(reader, places, employee, monday, end - 1, columns, |columns|)
  }

  /** One weekly block: its header stands ten rows below its start, the tasks below that. */
  function Block(reader: Reader, places: CellMap, employee: Option<string>, start: int, end: int): seq<RawTask> {
    var monday := Monday(reader, places, start);
    if monday.None? then []
    else BoardRows(reader, places, employee, monday.value, TaskColumns(reader, places, start + 10), start + 11, end + 1)
  }

  function BlockEnd(starts: seq<int>, maxRow: int, k: nat): int
    requires k < |starts|
  {
    if k + 1 < |starts| then starts[k + 1] - 1 else maxRow
  }

  /** A block reaches down to the next block, the last one down to the last row. */
  function BlockAt(reader: Reader, places: CellMap, employee: Option<string>, starts: seq<int>, maxRow: int, k: nat)
    : seq<RawTask>
    requires k < |starts|
  {
    Block(reader, places, employee, starts[k], BlockEnd(starts, maxRow, k))
  }

  function BlockList(reader: Reader, places: CellMap, employee: Option<string>, starts: seq<int>, maxRow: int)
    : (blocks: seq<seq<RawTask>>)
    ensures |blocks| == |starts|
    ensures forall k :: 0 <= k < |starts| ==> blocks[k] == BlockAt(reader, places, employee, starts, maxRow, k)
  {
    seq(|starts|, k requires 0 <= k < |starts| => BlockAt(reader, places, employee, starts, maxRow, k))
  }

  predicate TaskLe(s: RawTask, t: RawTask) {
    if s.at.sheet.title != t.at.sheet.title then StringLe(s.at.sheet.title, t.at.sheet.title)
    else if s.at.row != t.at.row then s.at.row < t.at.row
    else if s.at.col != t.at.col then s.at.col < t.at.col
    else s.at.line <= t.at.line
  }

  function BoardEmployee(cells: seq<Cell>): Option<string>
    requires cells != []
  {
    var name := Strip(cells[0].sheet.title);
    if name == "" then None else Some(name)
  }

  /** The rows of a weekly board before the closing sort. */
  function BoardTasks(reader: Reader, cells: seq<Cell>): seq<RawTask>
    requires cells != []
  {
    Flatten(BlockList(reader, ByPlace(cells), BoardEmployee(cells), BlockStarts(reader, cells), MaxRow(cells)))
  }

  /** `_parse_weekly_board_cells` */
  function WeeklyBoard(reader: Reader, cells: seq<Cell>): seq<RawTask> {
    if cells == [] then [] else SortBy(TaskLe, BoardTasks(reader, cells))
  }

  // ---- The whole parse --------------------------------------------------------------------------------

  datatype Stats = Stats(sheets: nat, read: nat, counts: Counts, emitted: nat, failed: nat)

  /** `parse_cells` */
  function Parse(reader: Reader, layout: Layout, cells: seq<Cell>): (seq<RawTask>, Stats) {
    if cells == [] then ([], Stats(0, 0, Counts(0, 0, 0), 0, 0))
    else
      var verdicts := Verdicts(reader, layout, cells);
      var rows, counts := AllRows(verdicts), AllCounts(verdicts);
      if rows != [] then (rows, Stats(1, |cells|, counts, |rows|, 0))
      else
        var board := WeeklyBoard(reader, cells);
        if board != [] then (board, Stats(1, |cells|, Counts(|board|, 0, 0), |board|, 0))
        else ([], Stats(1, |cells|, counts, 0, 0))
  }

  // ---- The loops ------------------------------------------------------------------------------------------

  lemma IndexStep<T, V>(key: T -> int, entry: T -> Option<V>, s: seq<T>, i: nat)
    requires i < |s|
    ensures IndexBy(key, entry, s[..i + 1])
         == if entry(s[i]).Some? then IndexBy(key, entry, s[..i])[key(s[i]) := entry(s[i]).value]
            else IndexBy(key, entry, s[..i])
  {
    assert s[..i + 1][..i] == s[..i];
  }

  /** `build_date_by_col` */
  method BuildDateByCol(reader: Reader, layout: Layout, cells: seq<Cell>) returns (dates: map<int, int>)
    ensures dates == DateByCol(reader, layout, cells)
  {
    ghost var key, entry := (c: Cell) => c.col, (c: Cell) => DateEntry(reader, layout, c);
    dates := map[];
    for i := 0 to |cells|
      invariant dates == IndexBy(key, entry, cells[..i])
    {
      var c := cells[i];
      IndexStep(key, entry, cells, i);
      if c.row != layout.headerRow { continue; }
      if c.col <= layout.employeeCol { continue; }
      if c.value.None? { continue; }
      var parsed := reader.workDate(c.value.value);
      if parsed.Some? {
        dates := dates[c.col := parsed.value];
      }
    }
    assert cells[..|cells|] == cells;
    assert IndexBy(key, entry, cells) == DateByCol(reader, layout, cells);
  }

  /** `build_employee_by_row` */
  method BuildEmployeeByRow(layout: Layout, cells: seq<Cell>) returns (employees: map<int, string>)
    ensures employees == EmployeeByRow(layout, cells)
  {
    ghost var key, entry := (c: Cell) => c.row, (c: Cell) => EmployeeEntry(layout, c);
    employees := map[];
    for i := 0 to |cells|
      invariant employees == IndexBy(key, entry, cells[..i])
    {
      var c := cells[i];
      IndexStep(key, entry, cells, i);
      if c.row <= layout.headerRow { continue; }
      if c.col != layout.employeeCol { continue; }
      if c.value.None? { continue; }
      var name := Strip(c.value.value);
      if name != "" {
        employees := employees[c.row := name];
      }
    }
    assert cells[..|cells|] == cells;
    assert IndexBy(key, entry, cells) == EmployeeByRow(layout, cells);
  }

  lemma VerdictStep(verdicts: seq<Verdict>, i: nat)
    requires i < |verdicts|
    ensures AllRows(verdicts[..i + 1]) == AllRows(verdicts[..i]) + VerdictRows(verdicts[i])
    ensures AllCounts(verdicts[..i + 1]) == Count(AllCounts(verdicts[..i]), verdicts[i])
  {
    TakeFront(verdicts, i);
  }

  /** The body of the matrix loop. */
  method ReadCell(reader: Reader, layout: Layout, dates: map<int, int>, employees: map<int, string>, c: Cell)
    returns (v: Verdict)
    ensures v == Read(reader, layout, dates, employees, c)
  {
    if c.row <= layout.headerRow { return Ignored; }
    if c.col <= layout.employeeCol { return Ignored; }
    if Cleaned(c) == "" { return Ignored; }
    if c.row !in employees { return NoEmployee; }
    if c.col !in dates { return NoDate; }
    return Tasks(TaskRows(reader, c, Some(employees[c.row]), dates[c.col], c.value.value));
  }

  /** The matrix loop of `parse_cells`, over the sorted cells. */
  method ReadMatrix(reader: Reader, layout: Layout, cells: seq<Cell>) returns (rows: seq<RawTask>, counts: Counts)
    ensures rows == AllRows(Verdicts(reader, layout, cells)) && counts == AllCounts(Verdicts(reader, layout, cells))
  {
    var dates := BuildDateByCol(reader, layout, cells);
    var employees := BuildEmployeeByRow(layout, cells);
    var sorted := SortBy(CellLe, cells);
    ghost var verdicts := Verdicts(reader, layout, cells);
    rows, counts := [], Counts(0, 0, 0);
    assert |sorted| == |verdicts| && verdicts[..0] == [];
    for i := 0 to |sorted|
      invariant rows == AllRows(verdicts[..i]) && counts == AllCounts(verdicts[..i])
    {
      VerdictStep(verdicts, i);
      var v := ReadCell(reader, layout, dates, employees, sorted[i]);
      counts, rows := Count(counts, v), rows + VerdictRows(v);
    }
    assert verdicts[..|verdicts|] == verdicts;
  }

  lemma ColumnsStep(reader: Reader, places: CellMap, row: int, keys: set<(int, int)>, k: (int, int))
    ensures ColumnsAmong(reader, places, row, keys + {k})
         == ColumnsAmong(reader, places, row, keys) + if HeadsTasks(reader, places, row, k) then {k.1} else {}
  {
    forall x
      ensures x in ColumnsAmong(reader, places, row, keys + {k})
         <==> x in ColumnsAmong(reader, places, row, keys) || (HeadsTasks(reader, places, row, k) && x == k.1)
    {
    }
  }

  /** A walk that has passed the keys in `seen` and still has `rest` ahead. */
  ghost predicate Walked<T>(keys: set<T>, rest: set<T>, seen: set<T>) {
    rest <= keys && seen == keys - rest
  }

  lemma WalkStep<T>(keys: set<T>, rest: set<T>, seen: set<T>, k: T)
    requires Walked(keys, rest, seen) && k in rest
    ensures Walked(keys, rest - {k}, seen + {k})
  {
  }

  lemma WalkEnds<T>(keys: set<T>, seen: set<T>)
    requires Walked(keys, {}, seen)
    ensures seen == keys
  {
  }

  /** `_detect_task_columns`: the dictionary is walked in no particular order. */
  method DetectTaskColumns(reader: Reader, places: CellMap, row: int) returns (columns: seq<int>)
    ensures columns == SortedSet(ColumnsAmong(reader, places, row, places.Keys))
  {
    var found: set<int> := {};
    var rest := places.Keys;
    ghost var seen: set<(int, int)> := {};
    while rest != {}
      invariant Walked(places.Keys, rest, seen) && found == ColumnsAmong(reader, places, row, seen)
      decreases |rest|
    {
      var k :| k in rest;
      ColumnsStep(reader, places, row, seen, k);
      WalkStep(places.Keys, rest, seen, k);
      rest, seen := rest - {k}, seen + {k};
      if HeadsTasks(reader, places, row, k) {
        found := found + {k.1};
      }
    }
    WalkEnds(places.Keys, seen);
    columns := SortedSet(found);
  }

  /** The loop over the task columns of one row. */
  method ReadBoardRow(reader: Reader, places: CellMap, employee: Option<string>, monday: int, row: int, columns: seq<int>)
    returns (rows: seq<RawTask>)
    ensures rows == BoardRow(reader, places, employee, monday, row, columns, |columns|)
  {
    rows := [];
    for n := 0 to |columns|
      invariant rows == BoardRow(reader, places, employee, monday, row, columns, n)
    {
      var day := ReadBoardCell(reader, places, employee, monday + n, row, columns[n]);
      assert day == BoardDay(reader, places, employee, monday, row, columns, n);
      rows := rows + day;
    }
  }

  /** The body of that loop. */
  method ReadBoardCell(reader: Reader, places: CellMap, employee: Option<string>, date: int, row: int, col: int)
    returns (rows: seq<RawTask>)
    ensures rows == BoardCell(reader, places, employee, date, row, col)
  {
    if (row, col) !in places { return []; }
    var c := places[(row, col)];
    if c.value.None? { return []; }
    var text := Strip(c.value.value);
    if text == "" || reader.isNonTask(text) { return []; }
    return TaskRows(reader, c, employee, date, text);
  }

  /** The loop over the rows of one block. */
  method ReadBoardRows(reader: Reader, places: CellMap, employee: Option<string>, monday: int, columns: seq<int>,
                       from: int, end: int) returns (rows: seq<RawTask>)
    ensures rows == BoardRows(reader, places, employee, monday, columns, from, end)
  {
    rows := [];
    if from < end {
      for row := from to end
        invariant rows == BoardRows(reader, places, employee, monday, columns, from, row)
      {
        var more := ReadBoardRow(reader, places, employee, monday, row, columns);
        rows := rows + more;
      }
    }
  }

  /** One turn of the loop over the blocks. */
  method ReadBlock(reader: Reader, places: CellMap, employee: Option<string>, start: int, end: int)
    returns (rows: seq<RawTask>)
    ensures rows == Block(reader, places, employee, start, end)
  {
    var monday := Monday(reader, places, start);
    if monday.None? { return []; }
    var columns := DetectTaskColumns(reader, places, start + 10);
    if columns == [] {
      columns := [10, 14, 18, 22, 26];
    }
    rows := ReadBoardRows(reader, places, employee, monday.value, columns, start + 11, end + 1);
  }

  /** `_parse_weekly_board_cells` */
  method ReadWeeklyBoard(reader: Reader, cells: seq<Cell>) returns (rows: seq<RawTask>)
    ensures rows == WeeklyBoard(reader, cells)
  {
    if cells == [] { return []; }
    var places, employee, starts, maxRow := ByPlace(cells), BoardEmployee(cells), BlockStarts(reader, cells), MaxRow(cells);
    ghost var blocks := BlockList(reader, places, employee, starts, maxRow);
    rows := [];
    for k := 0 to |starts|
      invariant rows == Flatten(blocks[..k])
    {
      FlattenStep(blocks, k);
      var block := ReadBlock(reader, places, employee, starts[k], BlockEnd(starts, maxRow, k));
      rows := rows + block;
    }
    assert blocks[..|blocks|] == blocks;
    rows := SortBy(TaskLe, rows);
  }

  /** `parse_cells` */
  method ParseCells(reader: Reader, layout: Layout, cells: seq<Cell>) returns (rows: seq<RawTask>, stats: Stats)
    ensures (rows, stats) == Parse(reader, layout, cells)
  {
    if cells == [] { return [], Stats(0, 0, Counts(0, 0, 0), 0, 0); }
    var counts;
    rows, counts := ReadMatrix(reader, layout, cells);
    if rows != [] { return rows, Stats(1, |cells|, counts, |rows|, 0); }
    rows := ReadWeeklyBoard(reader, cells);
    if rows != [] { return rows, Stats(1, |cells|, Counts(|rows|, 0, 0), |rows|, 0); }
    return [], Stats(1, |cells|, counts, 0, 0);
  }
}
