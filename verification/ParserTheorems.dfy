/** What the sheet parser promises for the cells of one sheet. */
module ParserTheorems {
  import opened Common
  import opened Sorting
  import opened Totals
  import opened Batching
  import opened RefreshTables
  import opened SheetParser
  import Runs = RefreshRuns

  /** The primary key of sheet_cells within one sheet. */
  ghost predicate UniquePlaces(cells: seq<Cell>) {
    forall i, j :: 0 <= i < j < |cells| ==> cells[i].row != cells[j].row || cells[i].col != cells[j].col
  }

  ghost predicate OneSheet(cells: seq<Cell>, sheet: Sheet) {
    forall c :: c in cells ==> c.sheet == sheet
  }

  lemma PlaceIsUnique(cells: seq<Cell>, c: Cell, d: Cell)
    requires UniquePlaces(cells) && c in cells && d in cells && c.row == d.row && c.col == d.col
    ensures c == d
  {
    var i :| 0 <= i < |cells| && cells[i] == c;
    var j :| 0 <= j < |cells| && cells[j] == d;
  }

  // ---- Dates and employees ------------------------------------------------------------------------

  lemma DatesAreFunctional(reader: Reader, layout: Layout, cells: seq<Cell>)
    requires UniquePlaces(cells)
    ensures Functional((c: Cell) => c.col, (c: Cell) => DateEntry(reader, layout, c), cells)
  {
    forall c, d | c in cells && d in cells && DateEntry(reader, layout, c).Some? && DateEntry(reader, layout, d).Some?
                  && c.col == d.col
      ensures c == d
    {
      PlaceIsUnique(cells, c, d);
    }
  }

  lemma EmployeesAreFunctional(layout: Layout, cells: seq<Cell>)
    requires UniquePlaces(cells)
    ensures Functional((c: Cell) => c.row, (c: Cell) => EmployeeEntry(layout, c), cells)
  {
    forall c, d | c in cells && d in cells && EmployeeEntry(layout, c).Some? && EmployeeEntry(layout, d).Some?
                  && c.row == d.row
      ensures c == d
    {
      PlaceIsUnique(cells, c, d);
    }
  }

  /** The date of a column is what its header cell says. */
  lemma DateOfColumn(reader: Reader, layout: Layout, cells: seq<Cell>, h: Cell)
    requires UniquePlaces(cells) && h in cells && h.row == layout.headerRow && h.col > layout.employeeCol
    ensures h.col in DateByCol(reader, layout, cells) <==> DateEntry(reader, layout, h).Some?
    ensures DateEntry(reader, layout, h).Some? ==>
              DateByCol(reader, layout, cells)[h.col] == DateEntry(reader, layout, h).value
  {
    var key, entry := (c: Cell) => c.col, (c: Cell) => DateEntry(reader, layout, c);
    DatesAreFunctional(reader, layout, cells);
    IndexMembers(key, entry, cells, h.col);
    assert DateByCol(reader, layout, cells) == IndexBy(key, entry, cells);
    if h.col in DateByCol(reader, layout, cells) {
      var c :| c in cells && entry(c).Some? && key(c) == h.col;
      PlaceIsUnique(cells, c, h);
    }
    assert entry(h) == DateEntry(reader, layout, h) && key(h) == h.col;
  }

  // ---- The order of the cells does not matter ----------------------------------------------------------

  lemma SameMembers(cells: seq<Cell>, again: seq<Cell>)
    requires multiset(cells) == multiset(again)
    ensures forall c :: c in cells <==> c in again
    ensures |cells| == |again|
  {
    assert forall c :: c in cells <==> c in multiset(cells);
    assert forall c :: c in again <==> c in multiset(again);
    assert |multiset(cells)| == |cells| && |multiset(again)| == |again|;
  }

  lemma CellOrder()
    ensures TotalPreorder(CellLe)
  {
  }

  lemma PlacesAreStrict(cells: seq<Cell>)
    requires UniquePlaces(cells)
    ensures Strict(CellLe, multiset(cells))
  {
    forall c, d | c in multiset(cells) && d in multiset(cells) && CellLe(c, d) && CellLe(d, c)
      ensures c == d
    {
      PlaceIsUnique(cells, c, d);
    }
  }

  lemma VerdictsIgnoreOrder(reader: Reader, layout: Layout, cells: seq<Cell>, again: seq<Cell>)
    requires UniquePlaces(cells) && multiset(cells) == multiset(again)
    ensures Verdicts(reader, layout, cells) == Verdicts(reader, layout, again)
  {
    SameMembers(cells, again);
    DatesAreFunctional(reader, layout, cells);
    EmployeesAreFunctional(layout, cells);
    IndexIgnoresOrder((c: Cell) => c.col, (c: Cell) => DateEntry(reader, layout, c), cells, again);
    IndexIgnoresOrder((c: Cell) => c.row, (c: Cell) => EmployeeEntry(layout, c), cells, again);
    CellOrder();
    PlacesAreStrict(cells);
    SortIgnoresOrder(CellLe, cells, again);
  }

  /** The cell map holds, at each place, the cell that stands there. */
  lemma {:induction false} ByPlaceMembers(cells: seq<Cell>, k: (int, int))
    ensures k in ByPlace(cells) <==> exists c :: c in cells && c.row == k.0 && c.col == k.1
    ensures k in ByPlace(cells) ==> ByPlace(cells)[k] in cells
  {
    if cells != [] {
      var front, last := cells[..|cells| - 1], cells[|cells| - 1];
      ByPlaceMembers(front, k);
      assert forall c :: c in cells <==> c in front || c == last;
    }
  }

  lemma ByPlaceIgnoresOrder(cells: seq<Cell>, again: seq<Cell>)
    requires UniquePlaces(cells) && forall c :: c in cells <==> c in again
    ensures ByPlace(cells) == ByPlace(again)
  {
    forall k
      ensures k in ByPlace(cells) <==> k in ByPlace(again)
      ensures k in ByPlace(cells) ==> ByPlace(cells)[k] == ByPlace(again)[k]
    {
      ByPlaceMembers(cells, k);
      ByPlaceMembers(again, k);
      if k in ByPlace(cells) {
        PlaceIsUnique(cells, ByPlace(cells)[k], ByPlace(again)[k]);
      }
    }
  }

  lemma {:induction false} MaxRowBounds(cells: seq<Cell>)
    requires cells != []
    ensures forall c :: c in cells ==> c.row <= MaxRow(cells)
    ensures exists c :: c in cells && c.row == MaxRow(cells)
    decreases |cells|
  {
    var front, last := cells[..|cells| - 1], cells[|cells| - 1];
    assert last in cells;
    assert forall c :: c in cells <==> c in front || c == last;
    if front != [] {
      MaxRowBounds(front);
    }
  }

  lemma StartsIgnoreOrder(reader: Reader, cells: seq<Cell>, again: seq<Cell>)
    requires forall c :: c in cells <==> c in again
    ensures BlockStarts(reader, cells) == BlockStarts(reader, again)
  {
    assert (set c | c in cells && c.col == 1 && WeekStart(reader, c).Some? :: c.row)
        == (set c | c in again && c.col == 1 && WeekStart(reader, c).Some? :: c.row);
  }

  lemma MaxRowIgnoresOrder(cells: seq<Cell>, again: seq<Cell>)
    requires cells != [] && again != [] && forall c :: c in cells <==> c in again
    ensures MaxRow(cells) == MaxRow(again)
  {
    MaxRowBounds(cells);
    MaxRowBounds(again);
  }

  lemma BoardIgnoresOrder(reader: Reader, sheet: Sheet, cells: seq<Cell>, again: seq<Cell>)
    requires UniquePlaces(cells) && OneSheet(cells, sheet) && multiset(cells) == multiset(again)
    ensures WeeklyBoard(reader, cells) == WeeklyBoard(reader, again)
  {
    SameMembers(cells, again);
    if cells != [] {
      ByPlaceIgnoresOrder(cells, again);
      StartsIgnoreOrder(reader, cells, again);
      MaxRowIgnoresOrder(cells, again);
      assert cells[0] in cells && again[0] in again;
      assert BoardEmployee(cells) == BoardEmployee(again);
      assert BoardTasks(reader, cells) == BoardTasks(reader, again);
    }
  }

  /** Rows and counters depend only on which cells there are, not on the order in which they are fetched. */
  lemma ParseIgnoresOrder(reader: Reader, layout: Layout, sheet: Sheet, cells: seq<Cell>, again: seq<Cell>)
    requires UniquePlaces(cells) && OneSheet(cells, sheet) && multiset(cells) == multiset(again)
    ensures Parse(reader, layout, cells) == Parse(reader, layout, again)
  {
    SameMembers(cells, again);
    VerdictsIgnoreOrder(reader, layout, cells, again);
    BoardIgnoresOrder(reader, sheet, cells, again);
  }

  // ---- The counters add up --------------------------------------------------------------------------------

  predicate InBody(layout: Layout, c: Cell) {
    c.row > layout.headerRow && c.col > layout.employeeCol && Cleaned(c) != ""
  }

  function BodyCount(layout: Layout): Cell -> int {
    (c: Cell) => if InBody(layout, c) then 1 else 0
  }

  lemma {:induction false} CountsAddUp(reader: Reader, layout: Layout, dates: map<int, int>, employees: map<int, string>,
                                       cells: seq<Cell>)
    ensures var counts := AllCounts(ReadAll(reader, layout, dates, employees, cells));
            counts.parsed + counts.noEmployee + counts.noDate == SumBy(BodyCount(layout), cells)
  {
    if cells != [] {
      var front, last := cells[..|cells| - 1], cells[|cells| - 1];
      CountsAddUp(reader, layout, dates, employees, front);
      var verdicts := ReadAll(reader, layout, dates, employees, cells);
      assert verdicts[..|verdicts| - 1] == ReadAll(reader, layout, dates, employees, front);
    }
  }

  /**
   * Unless the weekly board takes over, the three counters together count the non-blank cells below the header and
   * right of the employee column.
   */
  lemma EveryBodyCellIsCounted(reader: Reader, layout: Layout, cells: seq<Cell>)
    requires AllRows(Verdicts(reader, layout, cells)) != [] || WeeklyBoard(reader, cells) == []
    ensures var counts := Parse(reader, layout, cells).1.counts;
            counts.parsed + counts.noEmployee + counts.noDate == SumBy(BodyCount(layout), cells)
  {
    var sorted := SortBy(CellLe, cells);
    CountsAddUp(reader, layout, DateByCol(reader, layout, cells), EmployeeByRow(layout, cells), sorted);
    SumIgnoresOrder(BodyCount(layout), sorted, cells);
  }

  // ---- Rows come out in final order ---------------------------------------------------------------------------

  predicate AtBefore(s: Coord, t: Coord) {
    s.row < t.row || (s.row == t.row && (s.col < t.col || (s.col == t.col && s.line < t.line)))
  }

  /** Strictly ascending by row, column and line: in final order, and no key occurs twice. */
  ghost predicate Ascending(rows: seq<RawTask>) {
    forall i, j :: 0 <= i < j < |rows| ==> AtBefore(rows[i].at, rows[j].at)
  }

  ghost predicate InRows(rows: seq<RawTask>, from: int, end: int) {
    forall i :: 0 <= i < |rows| ==> from <= rows[i].at.row < end
  }

  ghost predicate ColsUpTo(rows: seq<RawTask>, col: int) {
    forall i :: 0 <= i < |rows| ==> rows[i].at.col <= col
  }

  ghost predicate OnSheet(rows: seq<RawTask>, sheet: Sheet) {
    forall i :: 0 <= i < |rows| ==> rows[i].at.sheet == sheet
  }

  lemma AscendingAppend(x: seq<RawTask>, y: seq<RawTask>)
    requires Ascending(x) && Ascending(y)
    requires forall i, j :: 0 <= i < |x| && 0 <= j < |y| ==> AtBefore(x[i].at, y[j].at)
    ensures Ascending(x + y)
  {
  }

  lemma RowsAppend(x: seq<RawTask>, y: seq<RawTask>, from: int, mid: int, end: int, sheet: Sheet)
    requires Ascending(x) && Ascending(y) && InRows(x, from, mid) && InRows(y, mid, end) && from <= mid <= end
    requires OnSheet(x, sheet) && OnSheet(y, sheet)
    ensures Ascending(x + y) && InRows(x + y, from, end) && OnSheet(x + y, sheet)
  {
    AscendingAppend(x, y);
  }

  ghost predicate PlacesOn(places: CellMap, sheet: Sheet) {
    forall k :: k in places ==> places[k].sheet == sheet
  }

  lemma BoardCellAscends(reader: Reader, places: CellMap, employee: Option<string>, date: int, row: int, col: int,
                         sheet: Sheet)
    requires PlacesOn(places, sheet)
    ensures var rows := BoardCell(reader, places, employee, date, row, col);
            Ascending(rows) && InRows(rows, row, row + 1) && OnSheet(rows, sheet)
            && forall i :: 0 <= i < |rows| ==> rows[i].at.col == col
  {
  }

  lemma ColsAppend(x: seq<RawTask>, y: seq<RawTask>, row: int, left: int, col: int, sheet: Sheet)
    requires Ascending(x) && InRows(x, row, row + 1) && ColsUpTo(x, left) && OnSheet(x, sheet) && left < col
    requires Ascending(y) && InRows(y, row, row + 1) && OnSheet(y, sheet)
    requires forall i :: 0 <= i < |y| ==> y[i].at.col == col
    ensures Ascending(x + y) && InRows(x + y, row, row + 1) && ColsUpTo(x + y, col) && OnSheet(x + y, sheet)
  {
    AscendingAppend(x, y);
  }

  lemma {:induction false} BoardRowAscends(reader: Reader, places: CellMap, employee: Option<string>, monday: int, row: int,
                                           columns: seq<int>, n: nat, sheet: Sheet)
    requires n <= |columns| && Increasing(columns) && PlacesOn(places, sheet)
    ensures var rows := BoardRow(reader, places, employee, monday, row, columns, n);
            Ascending(rows) && InRows(rows, row, row + 1) && OnSheet(rows, sheet)
            && (n == 0 ==> rows == []) && (n > 0 ==> ColsUpTo(rows, columns[n - 1]))
  {
    if n > 0 {
      var before := BoardRow(reader, places, employee, monday, row, columns, n - 1);
      BoardRowAscends(reader, places, employee, monday, row, columns, n - 1, sheet);
      BoardCellAscends(reader, places, employee, monday + (n - 1), row, columns[n - 1], sheet);
      ColsAppend(before, BoardDay(reader, places, employee, monday, row, columns, n - 1), row,
                 if n == 1 then columns[0] - 1 else columns[n - 2], columns[n - 1], sheet);
    }
  }

  lemma {:induction false} BoardRowsAscend(reader: Reader, places: CellMap, employee: Option<string>, monday: int,
                                           columns: seq<int>, from: int, end: int, sheet: Sheet)
    requires Increasing(columns) && PlacesOn(places, sheet)
    ensures var rows := BoardRows(reader, places, employee, monday, columns, from, end);
            Ascending(rows) && InRows(rows, from, end) && OnSheet(rows, sheet)
    decreases end - from
  {
    if from < end {
      BoardRowsAscend(reader, places, employee, monday, columns, from, end - 1, sheet);
      BoardRowAscends(reader, places, employee, monday, end - 1, columns, |columns|, sheet);
      RowsAppend(BoardRows(reader, places, employee, monday, columns, from, end - 1),
                 BoardRow(reader, places, employee, monday, end - 1, columns, |columns|), from, end - 1, end, sheet);
    }
  }

  lemma MoreRows(rows: seq<RawTask>, from: int, start: int, end: int)
    requires InRows(rows, from, end) && start <= from
    ensures InRows(rows, start, end)
  {
  }

  /** The rows of a block with a Monday and task columns; its own rows begin eleven rows below its start. */
  lemma DatedBlockAscends(reader: Reader, places: CellMap, employee: Option<string>, monday: int, columns: seq<int>,
                          start: int, end: int, sheet: Sheet)
    requires Increasing(columns) && PlacesOn(places, sheet)
    ensures var rows := BoardRows(reader, places, employee, monday, columns, start + 11, end + 1);
            InOrder(rows, start, end + 1, sheet)
  {
    BoardRowsAscend(reader, places, employee, monday, columns, start + 11, end + 1, sheet);
    MoreRows(BoardRows(reader, places, employee, monday, columns, start + 11, end + 1), start + 11, start, end + 1);
  }

  ghost predicate InOrder(rows: seq<RawTask>, from: int, end: int, sheet: Sheet) {
    Ascending(rows) && InRows(rows, from, end) && OnSheet(rows, sheet)
  }

  lemma BlockAscends(reader: Reader, places: CellMap, employee: Option<string>, start: int, end: int, sheet: Sheet)
    requires PlacesOn(places, sheet)
    ensures InOrder(Block(reader, places, employee, start, end), start, end + 1, sheet)
  {
    var monday := Monday(reader, places, start);
    if monday.Some? {
      DatedBlockAscends(reader, places, employee, monday.value, TaskColumns(reader, places, start + 10), start, end, sheet);
    } else {
      assert Block(reader, places, employee, start, end) == [];
    }
  }

  ghost predicate RowsBelow(rows: seq<RawTask>, end: int) {
    forall i :: 0 <= i < |rows| ==> rows[i].at.row < end
  }

  lemma BelowAppend(x: seq<RawTask>, y: seq<RawTask>, start: int, end: int, sheet: Sheet)
    requires Ascending(x) && OnSheet(x, sheet) && RowsBelow(x, start) && InOrder(y, start, end + 1, sheet)
    ensures Ascending(x + y) && OnSheet(x + y, sheet) && (start <= end + 1 ==> RowsBelow(x + y, end + 1))
  {
    AscendingAppend(x, y);
  }

  /** Consecutive blocks cover disjoint rows, so no cell is visited twice. */
  lemma {:induction false} BlocksAscend(reader: Reader, places: CellMap, employee: Option<string>, starts: seq<int>,
                                        maxRow: int, k: nat, sheet: Sheet)
    requires k <= |starts| && Increasing(starts) && PlacesOn(places, sheet)
    ensures var rows := Flatten(BlockList(reader, places, employee, starts, maxRow)[..k]);
            Ascending(rows) && OnSheet(rows, sheet) && (k < |starts| ==> RowsBelow(rows, starts[k]))
  {
    if k > 0 {
      var blocks, start, end := BlockList(reader, places, employee, starts, maxRow), starts[k - 1],
                                BlockEnd(starts, maxRow, k - 1);
      BlocksAscend(reader, places, employee, starts, maxRow, k - 1, sheet);
      BlockAscends(reader, places, employee, start, end, sheet);
      FlattenStep(blocks, k - 1);
      BelowAppend(Flatten(blocks[..k - 1]), blocks[k - 1], start, end, sheet);
    }
  }

  lemma SortIsNoOp(rows: seq<RawTask>, sheet: Sheet)
    requires Ascending(rows) && OnSheet(rows, sheet)
    ensures SortBy(TaskLe, rows) == rows
  {
    SortOfSorted(TaskLe, rows);
  }

  /** A weekly board is read in final order: no cell twice, distinct keys, and the closing sort changes nothing. */
  lemma BoardIsInOrder(reader: Reader, sheet: Sheet, cells: seq<Cell>)
    requires OneSheet(cells, sheet) && cells != []
    ensures var rows := BoardTasks(reader, cells);
            Ascending(rows) && OnSheet(rows, sheet) && WeeklyBoard(reader, cells) == rows
  {
    var places, starts := ByPlace(cells), BlockStarts(reader, cells);
    forall k | k in places
      ensures places[k].sheet == sheet
    {
      ByPlaceMembers(cells, k);
    }
    var blocks := BlockList(reader, places, BoardEmployee(cells), starts, MaxRow(cells));
    BlocksAscend(reader, places, BoardEmployee(cells), starts, MaxRow(cells), |starts|, sheet);
    assert blocks[..|starts|] == blocks;
    SortIsNoOp(BoardTasks(reader, cells), sheet);
  }

  // ---- Matrix rows ----------------------------------------------------------------------------------------------

  ghost predicate IsBefore(c: Cell, d: Cell) {
    c.row < d.row || (c.row == d.row && c.col < d.col)
  }

  ghost predicate PlacesAscend(cells: seq<Cell>) {
    forall i, j :: 0 <= i < j < |cells| ==> IsBefore(cells[i], cells[j])
  }

  ghost predicate UpToPlace(rows: seq<RawTask>, row: int, col: int) {
    forall i :: 0 <= i < |rows| ==> rows[i].at.row < row || (rows[i].at.row == row && rows[i].at.col <= col)
  }

  lemma ReadSnoc(reader: Reader, layout: Layout, dates: map<int, int>, employees: map<int, string>, cells: seq<Cell>)
    requires cells != []
    ensures AllRows(ReadAll(reader, layout, dates, employees, cells))
         == AllRows(ReadAll(reader, layout, dates, employees, cells[..|cells| - 1]))
            + VerdictRows(Read(reader, layout, dates, employees, cells[|cells| - 1]))
  {
    var verdicts := ReadAll(reader, layout, dates, employees, cells);
    assert verdicts[..|verdicts| - 1] == ReadAll(reader, layout, dates, employees, cells[..|cells| - 1]);
  }

  lemma CellRowsAscend(reader: Reader, layout: Layout, dates: map<int, int>, employees: map<int, string>, c: Cell)
    ensures var rows := VerdictRows(Read(reader, layout, dates, employees, c));
            Ascending(rows) && OnSheet(rows, c.sheet)
            && forall i :: 0 <= i < |rows| ==> rows[i].at.row == c.row && rows[i].at.col == c.col
  {
  }

  lemma {:induction false} MatrixAscends(reader: Reader, layout: Layout, dates: map<int, int>, employees: map<int, string>,
                                         cells: seq<Cell>, sheet: Sheet)
    requires PlacesAscend(cells) && OneSheet(cells, sheet)
    ensures var rows := AllRows(ReadAll(reader, layout, dates, employees, cells));
            Ascending(rows) && OnSheet(rows, sheet)
            && (cells == [] ==> rows == [])
            && (cells != [] ==> UpToPlace(rows, cells[|cells| - 1].row, cells[|cells| - 1].col))
  {
    if cells != [] {
      var front, last := cells[..|cells| - 1], cells[|cells| - 1];
      FrontCells(cells, sheet);
      MatrixAscends(reader, layout, dates, employees, front, sheet);
      ReadSnoc(reader, layout, dates, employees, cells);
      CellRowsAscend(reader, layout, dates, employees, last);
      var before, rows := AllRows(ReadAll(reader, layout, dates, employees, front)),
                          VerdictRows(Read(reader, layout, dates, employees, last));
      LaterPlaceAppends(before, rows, front, last, sheet);
    }
  }

  lemma FrontCells(cells: seq<Cell>, sheet: Sheet)
    requires cells != [] && PlacesAscend(cells) && OneSheet(cells, sheet)
    ensures var front, last := cells[..|cells| - 1], cells[|cells| - 1];
            PlacesAscend(front) && OneSheet(front, sheet) && last.sheet == sheet
            && (front != [] ==> IsBefore(front[|front| - 1], last))
  {
    assert cells[|cells| - 1] in cells;
    assert forall c :: c in cells[..|cells| - 1] ==> c in cells;
  }

  /** The rows of one more cell, behind the rows of the cells before it. */
  lemma LaterPlaceAppends(before: seq<RawTask>, rows: seq<RawTask>, front: seq<Cell>, last: Cell, sheet: Sheet)
    requires Ascending(before) && OnSheet(before, sheet) && Ascending(rows) && OnSheet(rows, sheet) && last.sheet == sheet
    requires forall i :: 0 <= i < |rows| ==> rows[i].at.row == last.row && rows[i].at.col == last.col
    requires if front == [] then before == []
             else UpToPlace(before, front[|front| - 1].row, front[|front| - 1].col) && IsBefore(front[|front| - 1], last)
    ensures Ascending(before + rows) && OnSheet(before + rows, sheet) && UpToPlace(before + rows, last.row, last.col)
  {
    AscendingAppend(before, rows);
  }

  lemma SortedPlacesAscend(cells: seq<Cell>)
    requires UniquePlaces(cells)
    ensures PlacesAscend(SortBy(CellLe, cells))
  {
    var sorted := SortBy(CellLe, cells);
    CellOrder();
    SortSorts(CellLe, cells);
    forall i, j | 0 <= i < j < |sorted|
      ensures sorted[i].row != sorted[j].row || sorted[i].col != sorted[j].col
    {
      DistinctStay(cells, sorted, i, j);
    }
  }

  /** Rearranging cells keeps their places distinct. */
  lemma DistinctStay(cells: seq<Cell>, sorted: seq<Cell>, i: nat, j: nat)
    requires UniquePlaces(cells) && multiset(cells) == multiset(sorted) && i < j < |sorted|
    ensures sorted[i].row != sorted[j].row || sorted[i].col != sorted[j].col
  {
    TwoMembers(sorted, i, j);
    var k, m := FindTwo(cells, sorted[i], sorted[j]);
  }

  lemma MatrixRowsAscend(reader: Reader, layout: Layout, sheet: Sheet, cells: seq<Cell>)
    requires UniquePlaces(cells) && OneSheet(cells, sheet)
    ensures Ascending(AllRows(Verdicts(reader, layout, cells))) && OnSheet(AllRows(Verdicts(reader, layout, cells)), sheet)
  {
    var sorted := SortBy(CellLe, cells);
    SameMembers(cells, sorted);
    SortedPlacesAscend(cells);
    MatrixAscends(reader, layout, DateByCol(reader, layout, cells), EmployeeByRow(layout, cells), sorted, sheet);
  }

  /** Whatever mode is used, the rows of one sheet have distinct keys and come in order. */
  lemma ParsedRowsAscend(reader: Reader, layout: Layout, sheet: Sheet, cells: seq<Cell>)
    requires UniquePlaces(cells) && OneSheet(cells, sheet)
    ensures Ascending(Parse(reader, layout, cells).0) && OnSheet(Parse(reader, layout, cells).0, sheet)
  {
    if cells != [] {
      MatrixRowsAscend(reader, layout, sheet, cells);
      BoardIsInOrder(reader, sheet, cells);
    }
  }

  // ---- Which rows come out ------------------------------------------------------------------------------------------

  lemma {:induction false} MatrixMembers(reader: Reader, layout: Layout, dates: map<int, int>, employees: map<int, string>,
                                         cells: seq<Cell>, r: RawTask)
    ensures r in AllRows(ReadAll(reader, layout, dates, employees, cells))
       <==> exists c :: c in cells && r in VerdictRows(Read(reader, layout, dates, employees, c))
  {
    if cells != [] {
      var front, last := cells[..|cells| - 1], cells[|cells| - 1];
      MatrixMembers(reader, layout, dates, employees, front, r);
      ReadSnoc(reader, layout, dates, employees, cells);
      assert forall c :: c in cells <==> c in front || c == last;
    }
  }

  /** `e` names the employee of the row and `h` the date of the column of the body cell `c`. */
  ghost predicate IsMatrixCell(reader: Reader, layout: Layout, cells: seq<Cell>, c: Cell, e: Cell, h: Cell) {
    && c in cells && InBody(layout, c)
    && e in cells && e.row == c.row && e.col == layout.employeeCol && Cleaned(e) != ""
    && h in cells && h.row == layout.headerRow && h.col == c.col && h.value.Some? && reader.workDate(h.value.value).Some?
  }

  lemma EmployeeOfRow(layout: Layout, cells: seq<Cell>, e: Cell)
    requires UniquePlaces(cells) && e in cells && EmployeeEntry(layout, e).Some?
    ensures e.row in EmployeeByRow(layout, cells) && EmployeeByRow(layout, cells)[e.row] == Cleaned(e)
  {
    var key, entry := (c: Cell) => c.row, (c: Cell) => EmployeeEntry(layout, c);
    EmployeesAreFunctional(layout, cells);
    IndexMembers(key, entry, cells, e.row);
    assert EmployeeByRow(layout, cells) == IndexBy(key, entry, cells);
    assert entry(e) == EmployeeEntry(layout, e) && key(e) == e.row;
  }

  lemma FindHeaders(reader: Reader, layout: Layout, cells: seq<Cell>, c: Cell) returns (e: Cell, h: Cell)
    requires UniquePlaces(cells) && c in cells && InBody(layout, c)
    requires c.row in EmployeeByRow(layout, cells) && c.col in DateByCol(reader, layout, cells)
    ensures IsMatrixCell(reader, layout, cells, c, e, h)
  {
    var byRow, byCol := (d: Cell) => d.row, (d: Cell) => d.col;
    var name, date := (d: Cell) => EmployeeEntry(layout, d), (d: Cell) => DateEntry(reader, layout, d);
    EmployeesAreFunctional(layout, cells);
    DatesAreFunctional(reader, layout, cells);
    IndexMembers(byRow, name, cells, c.row);
    IndexMembers(byCol, date, cells, c.col);
    assert EmployeeByRow(layout, cells) == IndexBy(byRow, name, cells);
    assert DateByCol(reader, layout, cells) == IndexBy(byCol, date, cells);
    e :| e in cells && name(e).Some? && byRow(e) == c.row;
    h :| h in cells && date(h).Some? && byCol(h) == c.col;
    assert EmployeeEntry(layout, e).Some? && DateEntry(reader, layout, h).Some?;
  }

  lemma MatrixCellIsRead(reader: Reader, layout: Layout, cells: seq<Cell>, c: Cell, e: Cell, h: Cell)
    requires UniquePlaces(cells) && IsMatrixCell(reader, layout, cells, c, e, h)
    ensures Read(reader, layout, DateByCol(reader, layout, cells), EmployeeByRow(layout, cells), c)
         == Tasks(TaskRows(reader, c, Some(Cleaned(e)), reader.workDate(h.value.value).value, c.value.value))
  {
    EmployeeOfRow(layout, cells, e);
    DateOfColumn(reader, layout, cells, h);
  }

  /**
   * Matrix mode emits exactly the lines of the non-blank body cells whose row has an employee and whose column has a
   * date, with that employee and that date.
   */
  lemma MatrixRowsExact(reader: Reader, layout: Layout, cells: seq<Cell>, r: RawTask)
    requires UniquePlaces(cells)
    ensures r in AllRows(Verdicts(reader, layout, cells))
       <==> exists c, e, h :: IsMatrixCell(reader, layout, cells, c, e, h)
              && r in TaskRows(reader, c, Some(Cleaned(e)), reader.workDate(h.value.value).value, c.value.value)
  {
    var dates, employees, sorted := DateByCol(reader, layout, cells), EmployeeByRow(layout, cells), SortBy(CellLe, cells);
    SameMembers(cells, sorted);
    MatrixMembers(reader, layout, dates, employees, sorted, r);
    if r in AllRows(Verdicts(reader, layout, cells)) {
      var c :| c in sorted && r in VerdictRows(Read(reader, layout, dates, employees, c));
      var e, h := FindHeaders(reader, layout, cells, c);
      MatrixCellIsRead(reader, layout, cells, c, e, h);
    }
    if c, e, h :| IsMatrixCell(reader, layout, cells, c, e, h)
                  && r in TaskRows(reader, c, Some(Cleaned(e)), reader.workDate(h.value.value).value, c.value.value) {
      MatrixCellIsRead(reader, layout, cells, c, e, h);
      assert c in sorted && r in VerdictRows(Read(reader, layout, dates, employees, c));
    }
  }

  ghost predicate OnSomeDay(reader: Reader, places: CellMap, employee: Option<string>, monday: int, row: int,
                            columns: seq<int>, n: nat, r: RawTask)
    requires n <= |columns|
  {
    exists m :: 0 <= m < n && r in BoardDay(reader, places, employee, monday, row, columns, m)
  }

  lemma OneMoreDay(reader: Reader, places: CellMap, employee: Option<string>, monday: int, row: int, columns: seq<int>,
                   n: nat, r: RawTask)
    requires 0 < n <= |columns|
    ensures OnSomeDay(reader, places, employee, monday, row, columns, n, r)
       <==> OnSomeDay(reader, places, employee, monday, row, columns, n - 1, r)
            || r in BoardDay(reader, places, employee, monday, row, columns, n - 1)
  {
  }

  lemma DayIsInRow(reader: Reader, places: CellMap, employee: Option<string>, monday: int, row: int, columns: seq<int>,
                   n: nat, r: RawTask)
    requires n < |columns|
    ensures r in BoardDay(reader, places, employee, monday, row, columns, n) ==> r.at.row == row
  {
  }

  lemma MemberOfSum<T>(a: seq<T>, b: seq<T>, x: T)
    ensures x in a + b <==> x in a || x in b
  {
  }

  lemma {:induction false} BoardRowMembers(reader: Reader, places: CellMap, employee: Option<string>, monday: int, row: int,
                                           columns: seq<int>, n: nat, r: RawTask)
    requires n <= |columns|
    ensures r in BoardRow(reader, places, employee, monday, row, columns, n)
       <==> OnSomeDay(reader, places, employee, monday, row, columns, n, r)
  {
    if n > 0 {
      BoardRowMembers(reader, places, employee, monday, row, columns, n - 1, r);
      OneMoreDay(reader, places, employee, monday, row, columns, n, r);
      BoardRowStep(reader, places, employee, monday, row, columns, n, r);
    }
  }

  lemma BoardRowIsRow(reader: Reader, places: CellMap, employee: Option<string>, monday: int, row: int, columns: seq<int>,
                      n: nat, r: RawTask)
    requires n <= |columns|
    ensures r in BoardRow(reader, places, employee, monday, row, columns, n) ==> r.at.row == row
  {
    BoardRowMembers(reader, places, employee, monday, row, columns, n, r);
    if m :| 0 <= m < n && r in BoardDay(reader, places, employee, monday, row, columns, m) {
      DayIsInRow(reader, places, employee, monday, row, columns, m, r);
    }
  }

  lemma BoardRowStep(reader: Reader, places: CellMap, employee: Option<string>, monday: int, row: int, columns: seq<int>,
                     n: nat, r: RawTask)
    requires 0 < n <= |columns|
    ensures r in BoardRow(reader, places, employee, monday, row, columns, n) <==>
              || r in BoardRow(reader, places, employee, monday, row, columns, n - 1)
              || r in BoardDay(reader, places, employee, monday, row, columns, n - 1)
  {
    MemberOfSum(BoardRow(reader, places, employee, monday, row, columns, n - 1),
                BoardDay(reader, places, employee, monday, row, columns, n - 1), r);
  }

  lemma {:induction false} BoardRowsMembers(reader: Reader, places: CellMap, employee: Option<string>, monday: int,
                                            columns: seq<int>, from: int, end: int, r: RawTask)
    ensures r in BoardRows(reader, places, employee, monday, columns, from, end)
       <==> from <= r.at.row < end && r in BoardRow(reader, places, employee, monday, r.at.row, columns, |columns|)
    decreases end - from
  {
    if from < end {
      BoardRowsMembers(reader, places, employee, monday, columns, from, end - 1, r);
      BoardRowIsRow(reader, places, employee, monday, end - 1, columns, |columns|, r);
      MemberOfSum(BoardRows(reader, places, employee, monday, columns, from, end - 1),
                  BoardRow(reader, places, employee, monday, end - 1, columns, |columns|), r);
    }
  }

  /** `r` is read from the n-th task column of the block that starts at `start` and ends at `end`. */
  ghost predicate IsBlockTask(reader: Reader, places: CellMap, employee: Option<string>, start: int, end: int, n: int,
                              r: RawTask)
  {
    var columns := TaskColumns(reader, places, start + 10);
    && Monday(reader, places, start).Some? && 0 <= n < |columns|
    && start + 10 < r.at.row <= end && r.at.col == columns[n]
    && r in BoardCell(reader, places, employee, Monday(reader, places, start).value + n, r.at.row, r.at.col)
  }

  ghost predicate InBlock(reader: Reader, places: CellMap, employee: Option<string>, start: int, end: int, r: RawTask) {
    exists n :: IsBlockTask(reader, places, employee, start, end, n, r)
  }

  lemma BlockMembers(reader: Reader, places: CellMap, employee: Option<string>, start: int, end: int, r: RawTask)
    ensures r in Block(reader, places, employee, start, end) <==> InBlock(reader, places, employee, start, end, r)
  {
    var monday := Monday(reader, places, start);
    if monday.Some? {
      var columns := TaskColumns(reader, places, start + 10);
      BoardRowsMembers(reader, places, employee, monday.value, columns, start + 11, end + 1, r);
      BoardRowMembers(reader, places, employee, monday.value, r.at.row, columns, |columns|, r);
      if start + 10 < r.at.row <= end {
        DayMembers(reader, places, employee, start, end, r);
      }
    }
  }

  lemma OneDay(reader: Reader, places: CellMap, employee: Option<string>, start: int, end: int, m: int, r: RawTask)
    requires Monday(reader, places, start).Some? && start + 10 < r.at.row <= end
    ensures var monday, columns := Monday(reader, places, start).value, TaskColumns(reader, places, start + 10);
            0 <= m < |columns| && r in BoardDay(reader, places, employee, monday, r.at.row, columns, m)
            <==> IsBlockTask(reader, places, employee, start, end, m, r)
  {
  }

  lemma DayMembers(reader: Reader, places: CellMap, employee: Option<string>, start: int, end: int, r: RawTask)
    requires Monday(reader, places, start).Some? && start + 10 < r.at.row <= end
    ensures var columns := TaskColumns(reader, places, start + 10);
            OnSomeDay(reader, places, employee, Monday(reader, places, start).value, r.at.row, columns, |columns|, r)
            <==> InBlock(reader, places, employee, start, end, r)
  {
    var monday, columns := Monday(reader, places, start).value, TaskColumns(reader, places, start + 10);
    if m :| 0 <= m < |columns| && r in BoardDay(reader, places, employee, monday, r.at.row, columns, m) {
      OneDay(reader, places, employee, start, end, m, r);
    }
    if n :| IsBlockTask(reader, places, employee, start, end, n, r) {
      OneDay(reader, places, employee, start, end, n, r);
    }
  }

  /**
   * A weekly board emits exactly the lines of the task cells more than ten rows below a week label and above the
   * next one; the n-th task column is the n-th day after that week's Monday.
   */
  lemma BoardRowsExact(reader: Reader, cells: seq<Cell>, r: RawTask)
    requires cells != []
    ensures var starts := BlockStarts(reader, cells);
            r in BoardTasks(reader, cells) <==>
            exists b :: 0 <= b < |starts|
              && InBlock(reader, ByPlace(cells), BoardEmployee(cells), starts[b], BlockEnd(starts, MaxRow(cells), b), r)
  {
    var places, employee, starts, maxRow := ByPlace(cells), BoardEmployee(cells), BlockStarts(reader, cells), MaxRow(cells);
    var blocks := BlockList(reader, places, employee, starts, maxRow);
    if r in Flatten(blocks) {
      var b := MemberOfSome(blocks, r);
      BlockMembers(reader, places, employee, starts[b], BlockEnd(starts, maxRow, b), r);
    }
    if b :| 0 <= b < |starts| && InBlock(reader, places, employee, starts[b], BlockEnd(starts, maxRow, b), r) {
      BlockMembers(reader, places, employee, starts[b], BlockEnd(starts, maxRow, b), r);
      MemberOfFlatten(blocks, b, r);
    }
  }

  // ---- Parsing and refreshing together --------------------------------------------------------------------------------

  /**
   * In every state that parse and normalize runs can reach, refreshing a sheet with the rows parsed from its cells
   * commits: neither the unique key nor the foreign key stops it.
   */
  lemma ParsedSheetCommits(cfg: Runs.Config, states: seq<Runs.System>, steps: seq<Runs.Step>, k: nat, reader: Reader,
                           layout: Layout, sheet: Sheet, cells: seq<Cell>)
    requires Runs.IsHistory(cfg, states, steps) && k < |states|
    requires UniquePlaces(cells) && OneSheet(cells, sheet)
    ensures ParseCommits(states[k].tables, sheet, Parse(reader, layout, cells).0)
  {
    var rows := Parse(reader, layout, cells).0;
    ParsedRowsAscend(reader, layout, sheet, cells);
    forall i, j | 0 <= i < j < |rows|
      ensures rows[i].at != rows[j].at
    {
      assert AtBefore(rows[i].at, rows[j].at);
    }
    Runs.ParseIsNeverBlocked(cfg, states, steps, k, sheet, rows);
  }
}
