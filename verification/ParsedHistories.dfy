/** Histories whose parse refreshes store what the parser makes of cells: what a stale normalize run can still do there. */
module ParsedHistories {
  import opened Common
  import opened Text
  import opened RefreshTables
  import opened RefreshProtocol
  import opened RefreshRuns
  import opened RefreshHistories
  import opened ParserTheorems
  import P = SheetParser
  import opened A1Notation

  // ---- Parser output ------------------------------------------------------------------------------

  /** A row with a date and a non-blank employee; only in a sheet with a blank title the employee may be missing. */
  ghost predicate IsNamed(r: RawTask) {
    && r.workDate.Some?
    && if r.employee.Some? then Strip(r.employee.value) != "" else Strip(r.at.sheet.title) == ""
  }

  lemma StrippedTwice(s: string)
    ensures Strip(Strip(s)) == Strip(s)
  {
    StripIdentity(Strip(s));
  }

  lemma MatrixRowIsNamed(reader: P.Reader, layout: P.Layout, cells: seq<P.Cell>, r: RawTask)
    requires UniquePlaces(cells) && r in P.AllRows(P.Verdicts(reader, layout, cells))
    ensures r.workDate.Some? && r.employee.Some? && Strip(r.employee.value) != ""
  {
    MatrixRowsExact(reader, layout, cells, r);
    var c, e, h :| IsMatrixCell(reader, layout, cells, c, e, h)
                   && r in P.TaskRows(reader, c, Some(P.Cleaned(e)), reader.workDate(h.value.value).value, c.value.value);
    StrippedTwice(if e.value.Some? then e.value.value else "");
  }

  lemma BoardRowIsNamed(reader: P.Reader, cells: seq<P.Cell>, sheet: Sheet, r: RawTask)
    requires cells != [] && OneSheet(cells, sheet) && r in P.BoardTasks(reader, cells)
    ensures r.workDate.Some? && r.employee == if Strip(sheet.title) == "" then None else Some(Strip(sheet.title))
  {
    BoardRowsExact(reader, cells, r);
    assert cells[0] in cells;
    var starts := P.BlockStarts(reader, cells);
    var b :| 0 <= b < |starts|
             && InBlock(reader, P.ByPlace(cells), P.BoardEmployee(cells), starts[b], P.BlockEnd(starts, P.MaxRow(cells), b), r);
    BlockTaskIsNamed(reader, P.ByPlace(cells), P.BoardEmployee(cells), starts[b], P.BlockEnd(starts, P.MaxRow(cells), b), r);
  }

  lemma BlockTaskIsNamed(reader: P.Reader, places: P.CellMap, employee: Option<string>, start: int, end: int, r: RawTask)
    requires InBlock(reader, places, employee, start, end, r)
    ensures r.workDate.Some? && r.employee == employee
  {
  }

  /** Whatever mode reads a row, it has a date, and an employee unless the title of its sheet is blank. */
  lemma ParsedRowsAreNamed(reader: P.Reader, layout: P.Layout, sheet: Sheet, cells: seq<P.Cell>, r: RawTask)
    requires UniquePlaces(cells) && OneSheet(cells, sheet) && r in P.Parse(reader, layout, cells).0
    ensures r.at.sheet == sheet && IsNamed(r)
  {
    ParsedRowsAscend(reader, layout, sheet, cells);
    var verdicts := P.Verdicts(reader, layout, cells);
    if P.AllRows(verdicts) != [] {
      MatrixRowIsNamed(reader, layout, cells, r);
    } else {
      BoardIsInOrder(reader, sheet, cells);
      BoardRowIsNamed(reader, cells, sheet, r);
      StrippedTwice(sheet.title);
    }
  }

  // ---- Histories fed by the parser ----------------------------------------------------------------

  ghost predicate IsParserOutput(reader: P.Reader, layout: P.Layout, sheet: Sheet, rows: seq<RawTask>) {
    exists cells :: UniquePlaces(cells) && OneSheet(cells, sheet) && P.Parse(reader, layout, cells).0 == rows
  }

  ghost predicate FromParser(reader: P.Reader, layout: P.Layout, step: Step) {
    step.Parse? ==> IsParserOutput(reader, layout, step.sheet, step.rows)
  }

  /** Every parse refresh of the history stores what the parser makes of some cells of its sheet. */
  ghost predicate IsParsedHistory(cfg: Config, reader: P.Reader, layout: P.Layout, states: seq<System>, steps: seq<Step>) {
    && IsHistory(cfg, states, steps)
    && forall k :: 0 <= k < |steps| ==> FromParser(reader, layout, steps[k])
  }

  ghost predicate RawNamed(raw: map<nat, RawTask>) {
    forall i :: i in raw ==> IsNamed(raw[i])
  }

  /** A snapshot of named rows, and inside the guarded block a partition within the error limit. */
  ghost predicate RunNamed(cfg: Config, s: System, run: nat)
    requires run in s.runs
  {
    && (forall f :: f in s.runs[run].snapshot ==> IsNamed(f.task))
    && (s.runs[run].phase == Guarded ==>
          AtPartition(s, run) && Failures(cfg.rules, CurrentRows(s, run)) <= cfg.maxErrorsPerSheet)
  }

  ghost predicate AllNamed(cfg: Config, s: System) {
    RawNamed(s.tables.raw) && forall run :: run in s.runs ==> RunNamed(cfg, s, run)
  }

  lemma ParseKeepsNamed(cfg: Config, reader: P.Reader, layout: P.Layout, s: System, s': System, sheet: Sheet,
                        rows: seq<RawTask>, fault: bool)
    requires AllNamed(cfg, s) && ParseStep(s, s', sheet, rows, fault) && IsParserOutput(reader, layout, sheet, rows)
    ensures AllNamed(cfg, s')
  {
    var cells :| UniquePlaces(cells) && OneSheet(cells, sheet) && P.Parse(reader, layout, cells).0 == rows;
    forall i | i in s'.tables.raw
      ensures IsNamed(s'.tables.raw[i])
    {
      if i !in s.tables.raw || s'.tables.raw[i] != s.tables.raw[i] {
        assert s'.tables.raw[i] in rows;
        ParsedRowsAreNamed(reader, layout, sheet, cells, s'.tables.raw[i]);
      }
    }
    forall run | run in s'.runs
      ensures RunNamed(cfg, s', run)
    {
      assert RunNamed(cfg, s, run);
    }
  }

  lemma BeginKeepsNamed(cfg: Config, s: System, s': System, run: nat, snapshot: seq<Fetched>, todo: seq<Partition>)
    requires AllNamed(cfg, s) && BeginStep(cfg, s, s', run, snapshot, todo)
    ensures AllNamed(cfg, s')
  {
    forall other | other in s'.runs
      ensures RunNamed(cfg, s', other)
    {
      if other != run {
        assert RunNamed(cfg, s, other);
      }
    }
  }

  /** Steps of a run change neither raw rows nor snapshots, and only taking the lock enters the guarded block. */
  lemma RunStepKeepsNamed(cfg: Config, s: System, s': System, step: Step)
    requires AllNamed(cfg, s) && Next(cfg, s, s', step) && !step.Parse? && !step.Begin?
    ensures AllNamed(cfg, s')
  {
    forall run | run in s'.runs
      ensures RunNamed(cfg, s', run)
    {
      assert RunNamed(cfg, s, run);
    }
  }

  lemma {:induction false} ReachableNamed(cfg: Config, reader: P.Reader, layout: P.Layout, states: seq<System>,
                                          steps: seq<Step>, k: nat)
    requires IsParsedHistory(cfg, reader, layout, states, steps) && k < |states|
    ensures AllNamed(cfg, states[k])
  {
    if k > 0 {
      ReachableNamed(cfg, reader, layout, states, steps, k - 1);
      var s, s', step := states[k - 1], states[k], steps[k - 1];
      assert Next(cfg, s, s', step) && FromParser(reader, layout, step);
      match step
      case Parse(sheet, rows, fault) => ParseKeepsNamed(cfg, reader, layout, s, s', sheet, rows, fault);
      case Begin(run, snapshot, todo) => BeginKeepsNamed(cfg, s, s', run, snapshot, todo);
      case _ => RunStepKeepsNamed(cfg, s, s', step);
    }
  }

  // ---- What a stale run can do --------------------------------------------------------------------

  ghost predicate AllFail(rules: Rules, fetched: seq<Fetched>) {
    forall f :: f in fetched ==> Normalize(rules, f).Failed?
  }

  ghost predicate NoneEmits(rules: Rules, fetched: seq<Fetched>) {
    forall f :: f in fetched ==> !Normalize(rules, f).Emitted?
  }

  lemma {:induction false} EmptyIff(rules: Rules, fetched: seq<Fetched>)
    ensures EmittedRows(rules, fetched) == [] <==> NoneEmits(rules, fetched)
    ensures AllFail(rules, fetched) ==> Failures(rules, fetched) == |fetched|
  {
    if fetched != [] {
      var front, last := fetched[..|fetched| - 1], fetched[|fetched| - 1];
      EmptyIff(rules, front);
      FrontOrLast(fetched);
    }
  }

  lemma FrontOrLast(fetched: seq<Fetched>)
    requires fetched != []
    ensures forall f :: f in fetched <==> f in fetched[..|fetched| - 1] || f == fetched[|fetched| - 1]
  {
  }

  /** A named row of a sheet with a title is never skipped. */
  lemma NamedIsNotSkipped(rules: Rules, f: Fetched)
    requires IsNamed(f.task) && Strip(f.task.at.sheet.title) != ""
    ensures Normalize(rules, f) != Skipped
  {
  }

  /**
   * The exact condition for the damage a stale run can do, in any history fed by the parser. It stands at partition
   * `p`, a parse of the sheet has committed since its snapshot, and nothing fails. The write commits and leaves `p`
   * inexact if and only if a live line of `p` normalizes and every line of `p` in the snapshot failed to; these are
   * then no more than the error limit. Only in a sheet with a blank title lines can be skipped instead.
   */
  lemma StaleWriteHarmsIff(cfg: Config, reader: P.Reader, layout: P.Layout, states: seq<System>, steps: seq<Step>,
                           k: nat, run: nat, s': System)
    requires IsParsedHistory(cfg, reader, layout, states, steps) && k < |states|
    requires WriteStep(cfg, states[k], s', run, false)
    requires !UpToDate(states[k], states[k].runs[run], states[k].runs[run].todo[0].sheet)
    ensures var p, lines := states[k].runs[run].todo[0], CurrentRows(states[k], run);
            && (s'.runs[run].phase == Settled(true) && !Exact(cfg.rules, s'.tables, p) <==>
                  && HasNormalizable(cfg.rules, states[k].tables, p)
                  && if Strip(p.sheet.title) != "" then AllFail(cfg.rules, lines) else NoneEmits(cfg.rules, lines))
            && (AllFail(cfg.rules, lines) ==> 0 < |lines| <= cfg.maxErrorsPerSheet)
  {
    var s := states[k];
    var p, lines := s.runs[run].todo[0], CurrentRows(s, run);
    ReachableInv(cfg, states, steps, k);
    ReachableNamed(cfg, reader, layout, states, steps, k);
    assert RunOk(cfg, s, run) && RunNamed(cfg, s, run);
    assert p in s.runs[run].todo;
    EmptyIff(cfg.rules, lines);
    LinesAreNamed(cfg, s, run);
    WriteCommitsIff(cfg, s, s', run);
    if s'.runs[run].phase == Settled(true) {
      CommittedWriteIsExactIff(cfg, s, s', run);
    }
  }

  lemma LinesAreNamed(cfg: Config, s: System, run: nat)
    requires run in s.runs && AtPartition(s, run) && RunNamed(cfg, s, run)
    ensures var p, lines := s.runs[run].todo[0], CurrentRows(s, run);
            Strip(p.sheet.title) != "" ==> (NoneEmits(cfg.rules, lines) <==> AllFail(cfg.rules, lines))
  {
    var p, lines := s.runs[run].todo[0], CurrentRows(s, run);
    SelectMembers(s.runs[run].snapshot, p);
    if Strip(p.sheet.title) != "" {
      forall f | f in lines
        ensures Normalize(cfg.rules, f) != Skipped
      {
        NamedIsNotSkipped(cfg.rules, f);
      }
    }
  }

  // ---- The damage does happen ---------------------------------------------------------------------

  function CellAt(sheet: Sheet, row: int, col: int, text: string, ingestedAt: int): P.Cell {
    var a1 := CellToA1(row, col);
    P.Cell(sheet, row, col, if a1.Ok? then a1.value else "", Some(text), ingestedAt)
  }

  /** Header, employee and task of a one-task matrix sheet, at the corner of its body. */
  function OneTask(layout: P.Layout, sheet: Sheet, header: string, name: string, text: string, ingestedAt: int): seq<P.Cell> {
    [CellAt(sheet, layout.headerRow, layout.employeeCol + 1, header, ingestedAt),
     CellAt(sheet, layout.headerRow + 1, layout.employeeCol, name, ingestedAt),
     CellAt(sheet, layout.headerRow + 1, layout.employeeCol + 1, text, ingestedAt)]
  }

  /** The row the parser makes of its one line. */
  function OneRow(reader: P.Reader, layout: P.Layout, sheet: Sheet, header: string, name: string, line: string,
                  ingestedAt: int): RawTask
    requires reader.workDate(header).Some?
  {
    var c := CellAt(sheet, layout.headerRow + 1, layout.employeeCol + 1, line, ingestedAt);
    RawTask(Coord(sheet, c.row, c.col, 1), c.a1, ingestedAt, Some(Strip(name)), Some(reader.workDate(header).value), line)
  }

  ghost predicate IsOneLine(reader: P.Reader, text: string, line: string) {
    Strip(text) != "" && P.StrippedLines(reader.splitLines(text)) == [line]
  }

  lemma OneTaskParses(reader: P.Reader, layout: P.Layout, sheet: Sheet, header: string, name: string, text: string,
                      line: string, ingestedAt: int)
    requires reader.workDate(header).Some? && Strip(name) != "" && IsOneLine(reader, text, line)
    ensures var cells := OneTask(layout, sheet, header, name, text, ingestedAt);
            && UniquePlaces(cells) && OneSheet(cells, sheet)
            && P.Parse(reader, layout, cells).0 == [OneRow(reader, layout, sheet, header, name, line, ingestedAt)]
  {
    var cells := OneTask(layout, sheet, header, name, text, ingestedAt);
    var row := OneRow(reader, layout, sheet, header, name, line, ingestedAt);
    OneTaskPlaces(layout, sheet, header, name, text, ingestedAt);
    OneTaskIs(reader, layout, sheet, header, name, text, line, ingestedAt);
    OnlyTask(reader, layout, sheet, cells, row);
  }

  lemma OneTaskPlaces(layout: P.Layout, sheet: Sheet, header: string, name: string, text: string, ingestedAt: int)
    ensures var cells := OneTask(layout, sheet, header, name, text, ingestedAt);
            UniquePlaces(cells) && OneSheet(cells, sheet)
  {
  }

  lemma OneTaskIs(reader: P.Reader, layout: P.Layout, sheet: Sheet, header: string, name: string, text: string, line: string,
                  ingestedAt: int)
    requires reader.workDate(header).Some? && Strip(name) != "" && IsOneLine(reader, text, line)
    ensures IsOneTask(reader, layout, OneTask(layout, sheet, header, name, text, ingestedAt),
                      OneRow(reader, layout, sheet, header, name, line, ingestedAt))
  {
    var c := CellAt(sheet, layout.headerRow + 1, layout.employeeCol + 1, text, ingestedAt);
    OneLineRow(reader, c, Strip(name), reader.workDate(header).value, text, line,
               OneRow(reader, layout, sheet, header, name, line, ingestedAt));
  }

  lemma OneLineRow(reader: P.Reader, c: P.Cell, name: string, date: int, text: string, line: string, row: RawTask)
    requires P.StrippedLines(reader.splitLines(text)) == [line]
    requires row == RawTask(Coord(c.sheet, c.row, c.col, 1), c.a1, c.ingestedAt, Some(name), Some(date), line)
    ensures P.TaskRows(reader, c, Some(name), date, text) == [row]
  {
  }

  lemma OnlyTask(reader: P.Reader, layout: P.Layout, sheet: Sheet, cells: seq<P.Cell>, row: RawTask)
    requires IsOneTask(reader, layout, cells, row) && UniquePlaces(cells) && OneSheet(cells, sheet)
    ensures P.Parse(reader, layout, cells).0 == [row]
  {
    var rows := P.AllRows(P.Verdicts(reader, layout, cells));
    forall r
      ensures r in rows <==> r == row
    {
      OneTaskRows(reader, layout, cells, row, r);
    }
    assert row in rows;
    ParsedRowsAscend(reader, layout, sheet, cells);
    OneMember(rows, row);
  }

  /** Header, employee and body cell around the corner of the body, and the one row of the body cell. */
  ghost predicate IsOneTask(reader: P.Reader, layout: P.Layout, cells: seq<P.Cell>, row: RawTask) {
    && |cells| == 3
    && cells[0].row == layout.headerRow && cells[0].col == layout.employeeCol + 1
    && cells[1].row == layout.headerRow + 1 && cells[1].col == layout.employeeCol && P.Cleaned(cells[1]) != ""
    && cells[2].row == layout.headerRow + 1 && cells[2].col == layout.employeeCol + 1 && P.Cleaned(cells[2]) != ""
    && cells[0].value.Some? && reader.workDate(cells[0].value.value).Some?
    && P.TaskRows(reader, cells[2], Some(P.Cleaned(cells[1])), reader.workDate(cells[0].value.value).value,
                  cells[2].value.value) == [row]
  }

  lemma OneTaskRows(reader: P.Reader, layout: P.Layout, cells: seq<P.Cell>, row: RawTask, r: RawTask)
    requires IsOneTask(reader, layout, cells, row) && UniquePlaces(cells)
    ensures r in P.AllRows(P.Verdicts(reader, layout, cells)) <==> r == row
  {
    MatrixRowsExact(reader, layout, cells, r);
    forall c, e, h | IsMatrixCell(reader, layout, cells, c, e, h)
      ensures c == cells[2] && e == cells[1] && h == cells[0]
    {
    }
    assert cells[0] in cells && cells[1] in cells && cells[2] in cells;
    assert IsMatrixCell(reader, layout, cells, cells[2], cells[1], cells[0]);
  }

  lemma OneMember(rows: seq<RawTask>, row: RawTask)
    requires Ascending(rows) && row in rows && forall r :: r in rows ==> r == row
    ensures rows == [row]
  {
    assert forall i :: 0 <= i < |rows| ==> rows[i] in rows;
    assert |rows| > 1 ==> AtBefore(rows[0].at, rows[1].at);
  }

  lemma ParsedRunErases(cfg: Config, reader: P.Reader, layout: P.Layout, was: RawTask, row: RawTask)
    returns (states: seq<System>, steps: seq<Step>)
    requires Overtakes(cfg, was, row)
    requires IsParserOutput(reader, layout, row.at.sheet, [was]) && IsParserOutput(reader, layout, row.at.sheet, [row])
    ensures IsParsedHistory(cfg, reader, layout, states, steps) && |steps| == 9
    ensures forall k :: 0 <= k < 9 ==> steps[k] == StepAt(was, row, k)
    ensures Exact(cfg.rules, states[8].tables, Place(row)) && !Exact(cfg.rules, states[9].tables, Place(row))
  {
    states, steps := StaleRunErases(cfg, was, row);
    forall k | 0 <= k < |steps|
      ensures FromParser(reader, layout, steps[k])
    {
      StepFromParser(reader, layout, was, row, k);
    }
  }

  lemma StepFromParser(reader: P.Reader, layout: P.Layout, was: RawTask, row: RawTask, k: nat)
    requires row.workDate.Some? && k < 9
    requires IsParserOutput(reader, layout, row.at.sheet, [was]) && IsParserOutput(reader, layout, row.at.sheet, [row])
    ensures FromParser(reader, layout, StepAt(was, row, k))
  {
    var step := StepAt(was, row, k);
    if step.Parse? {
      ParseStepsAre(was, row, k);
      assert step.sheet == row.at.sheet && (step.rows == [was] || step.rows == [row]);
    }
  }

  lemma StepsAre(was: RawTask, row: RawTask)
    requires row.workDate.Some?
    ensures StepAt(was, row, 0) == Parse(row.at.sheet, [was], false)
    ensures StepAt(was, row, 1) == Begin(0, [Fetched(0, was)], [Place(row)])
    ensures StepAt(was, row, 2) == Parse(row.at.sheet, [row], false) && StepAt(was, row, 8) == Write(0, false)
  {
  }

  /**
   * In any sheet of the spreadsheet, whatever its title: a cell is parsed while its line fails to normalize, a run is
   * begun, the cell is corrected and parsed again, and a newer run makes the partition exact. Then the older run commits
   * a write that leaves it inexact.
   */
  lemma FailedLineErases(cfg: Config, reader: P.Reader, layout: P.Layout, sheet: Sheet, header: string, name: string,
                         wrong: string, wrongLine: string, right: string, rightLine: string, at: int, later: int)
    returns (states: seq<System>, steps: seq<Step>)
    requires sheet.spreadsheet == cfg.spreadsheet && cfg.maxRowsPerSheet >= 1 && cfg.maxErrorsPerSheet >= 1
    requires layout.headerRow > 0 && layout.employeeCol > 0
    requires reader.workDate(header).Some? && Strip(name) != ""
    requires IsOneLine(reader, wrong, wrongLine) && IsOneLine(reader, right, rightLine)
    requires Normalize(cfg.rules, Fetched(0, OneRow(reader, layout, sheet, header, name, wrongLine, at))).Failed?
    requires Normalize(cfg.rules, Fetched(1, OneRow(reader, layout, sheet, header, name, rightLine, later))).Emitted?
    ensures IsParsedHistory(cfg, reader, layout, states, steps) && |steps| == 9
    ensures steps[0] == Parse(sheet, P.Parse(reader, layout, OneTask(layout, sheet, header, name, wrong, at)).0, false)
    ensures steps[2] == Parse(sheet, P.Parse(reader, layout, OneTask(layout, sheet, header, name, right, later)).0, false)
    ensures steps[1].Begin? && steps[1].run == 0 && steps[8] == Write(0, false)
    ensures var p := Partition(sheet, reader.workDate(header).value);
            Exact(cfg.rules, states[8].tables, p) && !Exact(cfg.rules, states[9].tables, p)
  {
    var was, row := OneRow(reader, layout, sheet, header, name, wrongLine, at),
                    OneRow(reader, layout, sheet, header, name, rightLine, later);
    OneTaskParses(reader, layout, sheet, header, name, wrong, wrongLine, at);
    OneTaskParses(reader, layout, sheet, header, name, right, rightLine, later);
    assert IsParserOutput(reader, layout, sheet, [was]) && IsParserOutput(reader, layout, sheet, [row]);
    states, steps := ParsedRunErases(cfg, reader, layout, was, row);
    StepsAre(was, row);
  }
}
