/** What a normalize run reads and in which order it works: the query, the grouping dictionaries, the sorted loops. */
module NormalizePlan {
  import opened Common
  import opened Sorting
  import opened Batching
  import opened RefreshTables
  import opened RefreshRuns

  // ---- The query --------------------------------------------------------------------------------

  /** ORDER BY sheet_title, row_idx, col_idx, line_no; the collation of the titles is the database's business. */
  predicate FetchLe(f: Fetched, g: Fetched) {
    var a, b := f.task.at, g.task.at;
    if a.sheet.title != b.sheet.title then StringLe(a.sheet.title, b.sheet.title)
    else if a.row != b.row then a.row < b.row
    else if a.col != b.col then a.col < b.col
    else a.line <= b.line
  }

  lemma FetchOrder()
    ensures TotalPreorder(FetchLe)
  {
    forall f, g
      ensures FetchLe(f, g) || FetchLe(g, f)
    {
      StringLeTotal(f.task.at.sheet.title, g.task.at.sheet.title);
    }
    forall f, g, h | FetchLe(f, g) && FetchLe(g, h)
      ensures FetchLe(f, h)
    {
      FetchLeTransitive(f, g, h);
    }
  }

  lemma FetchLeTransitive(f: Fetched, g: Fetched, h: Fetched)
    requires FetchLe(f, g) && FetchLe(g, h)
    ensures FetchLe(f, h)
  {
    var a, b, c := f.task.at.sheet.title, g.task.at.sheet.title, h.task.at.sheet.title;
    StringLeTotal(a, b);
    if a != b && b != c {
      StringLeTransitive(a, b, c);
    }
  }

  /** The rows of each sheet come by row, column and line. */
  ghost predicate InFetchOrder(snapshot: seq<Fetched>) {
    forall i, j :: 0 <= i < j < |snapshot| && snapshot[i].task.at.sheet.title == snapshot[j].task.at.sheet.title ==>
      FetchLe(snapshot[i], snapshot[j])
  }

  /** `fetch_raw_tasks` */
  method FetchRawTasks(cfg: Config, raw: map<nat, RawTask>, ghost t: Tables) returns (snapshot: seq<Fetched>)
    requires t.raw == raw
    ensures IsSnapshot(cfg, t, snapshot) && InFetchOrder(snapshot)
  {
    var found := set i | i in raw && raw[i].at.sheet.spreadsheet == cfg.spreadsheet :: Fetched(i, raw[i]);
    FetchOrder();
    snapshot := SortedList(FetchLe, found);
    forall i, j | 0 <= i < j < |snapshot|
      ensures snapshot[i].id != snapshot[j].id
    {
      assert snapshot[i] in snapshot && snapshot[j] in snapshot;
    }
  }

  // ---- Grouping ---------------------------------------------------------------------------------

  /** The fetched rows of one sheet title. */
  function SheetRows(snapshot: seq<Fetched>, title: string): seq<Fetched> {
    if snapshot == [] then []
    else
      var last := snapshot[|snapshot| - 1];
      SheetRows(snapshot[..|snapshot| - 1], title) + if last.task.at.sheet.title == title then [last] else []
  }

  /** The rows of one date. */
  function DateRows(rows: seq<Fetched>, date: int): seq<Fetched> {
    if rows == [] then []
    else
      var last := rows[|rows| - 1];
      DateRows(rows[..|rows| - 1], date) + if last.task.workDate == Some(date) then [last] else []
  }

  lemma SheetRowsStep(snapshot: seq<Fetched>, i: nat, title: string)
    requires i < |snapshot|
    ensures SheetRows(snapshot[..i + 1], title)
         == SheetRows(snapshot[..i], title) + if snapshot[i].task.at.sheet.title == title then [snapshot[i]] else []
  {
    TakeFront(snapshot, i);
  }

  lemma DateRowsStep(rows: seq<Fetched>, i: nat, date: int)
    requires i < |rows|
    ensures DateRows(rows[..i + 1], date)
         == DateRows(rows[..i], date) + if rows[i].task.workDate == Some(date) then [rows[i]] else []
  {
    TakeFront(rows, i);
  }

  ghost predicate GroupsSheets(groups: map<string, seq<Fetched>>, snapshot: seq<Fetched>) {
    forall title :: (title in groups <==> SheetRows(snapshot, title) != [])
                    && (title in groups ==> groups[title] == SheetRows(snapshot, title))
  }

  ghost predicate GroupsDates(groups: map<int, seq<Fetched>>, rows: seq<Fetched>) {
    forall date :: (date in groups <==> DateRows(rows, date) != [])
                   && (date in groups ==> groups[date] == DateRows(rows, date))
  }

  /** The loop that fills `by_sheet`. */
  method GroupBySheet(snapshot: seq<Fetched>) returns (groups: map<string, seq<Fetched>>)
    ensures GroupsSheets(groups, snapshot)
  {
    groups := map[];
    for i := 0 to |snapshot|
      invariant GroupsSheets(groups, snapshot[..i])
    {
      var f := snapshot[i];
      var title := f.task.at.sheet.title;
      forall t { SheetRowsStep(snapshot, i, t); }
      groups := groups[title := (if title in groups then groups[title] else []) + [f]];
    }
    assert snapshot[..|snapshot|] == snapshot;
  }

  /** The loop that fills `by_date`; rows without a date are left out. */
  method GroupByDate(rows: seq<Fetched>) returns (groups: map<int, seq<Fetched>>)
    ensures GroupsDates(groups, rows)
  {
    groups := map[];
    for i := 0 to |rows|
      invariant GroupsDates(groups, rows[..i])
    {
      var f := rows[i];
      forall d { DateRowsStep(rows, i, d); }
      if f.task.workDate.Some? {
        var date := f.task.workDate.value;
        groups := groups[date := (if date in groups then groups[date] else []) + [f]];
      }
    }
    assert rows[..|rows|] == rows;
  }

  // ---- The order of work ------------------------------------------------------------------------

  predicate PlanBefore(p: Partition, q: Partition) {
    if p.sheet.title != q.sheet.title then StringLe(p.sheet.title, q.sheet.title) else p.date < q.date
  }

  /** Sheets by title, the dates of a sheet in order. */
  ghost predicate PlanAscends(plan: seq<Partition>) {
    forall i, j :: 0 <= i < j < |plan| ==> PlanBefore(plan[i], plan[j])
  }

  /** The dates of one sheet, in order, each with its rows. */
  method PlanSheet(sheet: Sheet, rows: seq<Fetched>) returns (plan: seq<Partition>, groups: seq<seq<Fetched>>)
    ensures |groups| == |plan| && forall k :: 0 <= k < |plan| ==> groups[k] == DateRows(rows, plan[k].date)
    ensures forall p :: p in plan <==> p.sheet == sheet && DateRows(rows, p.date) != []
    ensures PlanAscends(plan)
  {
    var byDate := GroupByDate(rows);
    var dates := SortedSet(byDate.Keys);
    plan, groups := [], [];
    for b := 0 to |dates|
      invariant |plan| == |groups| == b
      invariant forall k :: 0 <= k < b ==> plan[k] == Partition(sheet, dates[k])
      invariant forall k :: 0 <= k < b ==> groups[k] == DateRows(rows, dates[k])
    {
      assert dates[b] in dates;
      plan := plan + [Partition(sheet, dates[b])];
      groups := groups + [byDate[dates[b]]];
    }
    DatesArePlan(sheet, rows, dates, plan);
  }

  lemma DatesArePlan(sheet: Sheet, rows: seq<Fetched>, dates: seq<int>, plan: seq<Partition>)
    requires |plan| == |dates| && forall k :: 0 <= k < |plan| ==> plan[k] == Partition(sheet, dates[k])
    requires Increasing(dates) && forall d :: d in dates <==> DateRows(rows, d) != []
    ensures PlanAscends(plan) && forall p :: p in plan <==> p.sheet == sheet && DateRows(rows, p.date) != []
  {
    forall p: Partition | p.sheet == sheet && DateRows(rows, p.date) != []
      ensures p in plan
    {
      assert p.date in dates;
      var k :| 0 <= k < |dates| && dates[k] == p.date;
      assert plan[k] == p;
    }
    forall p | p in plan
      ensures p.sheet == sheet && DateRows(rows, p.date) != []
    {
      var k :| 0 <= k < |plan| && plan[k] == p;
      assert dates[k] in dates;
    }
  }

  /** `p` is to be written, as far as the first titles are concerned. */
  ghost predicate IsDue(cfg: Config, snapshot: seq<Fetched>, titles: seq<string>, p: Partition) {
    && p.sheet.spreadsheet == cfg.spreadsheet && p.sheet.title in titles
    && |SheetRows(snapshot, p.sheet.title)| <= cfg.maxRowsPerSheet
    && DateRows(SheetRows(snapshot, p.sheet.title), p.date) != []
  }

  /**
   * The loops of `run_normalize` over sheets and dates: which partitions are written, in which order, and from which
   * rows. Sheets that are too large are left out.
   */
  method PlanPartitions(cfg: Config, snapshot: seq<Fetched>) returns (plan: seq<Partition>, groups: seq<seq<Fetched>>)
    requires forall f :: f in snapshot ==> f.task.at.sheet.spreadsheet == cfg.spreadsheet
    ensures IsPlan(cfg, snapshot, plan) && PlanAscends(plan)
    ensures |groups| == |plan| && forall k :: 0 <= k < |plan| ==> groups[k] == Select(snapshot, plan[k])
  {
    var bySheet := GroupBySheet(snapshot);
    var titles := SortedMembers(bySheet.Keys);
    plan, groups := [], [];
    for a := 0 to |titles|
      invariant PlanAscends(plan) && PlansTitles(cfg, snapshot, titles[..a], plan) && HasRows(snapshot, plan, groups)
    {
      var title := titles[a];
      assert title in titles;
      if |bySheet[title]| <= cfg.maxRowsPerSheet {
        var more, rows := PlanSheet(Sheet(cfg.spreadsheet, title), bySheet[title]);
        NextSheetAscends(cfg, snapshot, titles, a, plan, more);
        NextSheetPlans(cfg, snapshot, titles, a, plan, more);
        RowsAppend(snapshot, plan, groups, more, rows);
        plan, groups := plan + more, groups + rows;
      } else {
        LargeSheetIsLeftOut(cfg, snapshot, titles, a, plan);
      }
    }
    assert titles[..|titles|] == titles;
    DueIsPlan(cfg, snapshot, titles, plan);
    RowsAreSelected(cfg, snapshot, plan, groups);
  }

  ghost predicate PlansTitles(cfg: Config, snapshot: seq<Fetched>, titles: seq<string>, plan: seq<Partition>) {
    forall p :: p in plan <==> IsDue(cfg, snapshot, titles, p)
  }

  ghost predicate HasRows(snapshot: seq<Fetched>, plan: seq<Partition>, groups: seq<seq<Fetched>>) {
    && |groups| == |plan|
    && forall k :: 0 <= k < |plan| ==> groups[k] == DateRows(SheetRows(snapshot, plan[k].sheet.title), plan[k].date)
  }

  lemma RowsAppend(snapshot: seq<Fetched>, plan: seq<Partition>, groups: seq<seq<Fetched>>, more: seq<Partition>,
                   rows: seq<seq<Fetched>>)
    requires HasRows(snapshot, plan, groups) && HasRows(snapshot, more, rows)
    ensures HasRows(snapshot, plan + more, groups + rows)
  {
  }

  lemma RowsAreSelected(cfg: Config, snapshot: seq<Fetched>, plan: seq<Partition>, groups: seq<seq<Fetched>>)
    requires HasRows(snapshot, plan, groups) && forall p :: p in plan ==> p.sheet.spreadsheet == cfg.spreadsheet
    requires forall f :: f in snapshot ==> f.task.at.sheet.spreadsheet == cfg.spreadsheet
    ensures forall k :: 0 <= k < |plan| ==> groups[k] == Select(snapshot, plan[k])
  {
    forall k | 0 <= k < |plan|
      ensures groups[k] == Select(snapshot, plan[k])
    {
      assert plan[k] in plan;
      SelectIsGrouping(cfg, snapshot, plan[k]);
    }
  }

  lemma LargeSheetIsLeftOut(cfg: Config, snapshot: seq<Fetched>, titles: seq<string>, a: nat, plan: seq<Partition>)
    requires a < |titles| && PlansTitles(cfg, snapshot, titles[..a], plan)
    requires |SheetRows(snapshot, titles[a])| > cfg.maxRowsPerSheet
    ensures PlansTitles(cfg, snapshot, titles[..a + 1], plan)
  {
    TakeSnoc(titles, a);
  }

  lemma NextSheetPlans(cfg: Config, snapshot: seq<Fetched>, titles: seq<string>, a: nat, plan: seq<Partition>,
                       more: seq<Partition>)
    requires a < |titles| && PlansTitles(cfg, snapshot, titles[..a], plan)
    requires |SheetRows(snapshot, titles[a])| <= cfg.maxRowsPerSheet
    requires forall p :: p in more <==>
               p.sheet == Sheet(cfg.spreadsheet, titles[a]) && DateRows(SheetRows(snapshot, titles[a]), p.date) != []
    ensures PlansTitles(cfg, snapshot, titles[..a + 1], plan + more)
  {
    TakeSnoc(titles, a);
  }

  lemma NextSheetAscends(cfg: Config, snapshot: seq<Fetched>, titles: seq<string>, a: nat, plan: seq<Partition>,
                         more: seq<Partition>)
    requires StrictlyAscending(titles) && a < |titles| && PlanAscends(plan) && PlanAscends(more)
    requires PlansTitles(cfg, snapshot, titles[..a], plan)
    requires forall p :: p in more ==> p.sheet.title == titles[a]
    ensures PlanAscends(plan + more)
  {
    forall i, j | 0 <= i < |plan| && 0 <= j < |more|
      ensures PlanBefore(plan[i], more[j])
    {
      assert plan[i] in plan && more[j] in more;
    }
  }

  lemma {:induction false} SelectIsGrouping(cfg: Config, snapshot: seq<Fetched>, p: Partition)
    requires p.sheet.spreadsheet == cfg.spreadsheet
    requires forall f :: f in snapshot ==> f.task.at.sheet.spreadsheet == cfg.spreadsheet
    ensures Select(snapshot, p) == DateRows(SheetRows(snapshot, p.sheet.title), p.date)
  {
    if snapshot != [] {
      var front, last := snapshot[..|snapshot| - 1], snapshot[|snapshot| - 1];
      SelectIsGrouping(cfg, front, p);
      assert last in snapshot;
      var before := SheetRows(front, p.sheet.title);
      DateRowsSnoc(before, last, p.date);
      assert before + [] == before;
    }
  }

  lemma DateRowsSnoc(rows: seq<Fetched>, last: Fetched, date: int)
    ensures DateRows(rows + [last], date) == DateRows(rows, date) + if last.task.workDate == Some(date) then [last] else []
  {
    assert (rows + [last])[..|rows|] == rows;
  }

  lemma {:induction false} SizeOfSheet(cfg: Config, snapshot: seq<Fetched>, sheet: Sheet)
    requires sheet.spreadsheet == cfg.spreadsheet
    requires forall f :: f in snapshot ==> f.task.at.sheet.spreadsheet == cfg.spreadsheet
    ensures SheetSize(snapshot, sheet) == |SheetRows(snapshot, sheet.title)|
  {
    if snapshot != [] {
      var n := |snapshot| - 1;
      SizeOfSheet(cfg, snapshot[..n], sheet);
      SizeStep(snapshot, sheet);
      assert snapshot[n] in snapshot;
    }
  }

  lemma SizeStep(snapshot: seq<Fetched>, sheet: Sheet)
    requires snapshot != []
    ensures SheetSize(snapshot, sheet)
         == SheetSize(snapshot[..|snapshot| - 1], sheet) + if snapshot[|snapshot| - 1].task.at.sheet == sheet then 1 else 0
  {
    var n := |snapshot| - 1;
    var here := set k | 0 <= k < |snapshot| && snapshot[k].task.at.sheet == sheet;
    var before := set k | 0 <= k < |snapshot[..n]| && snapshot[..n][k].task.at.sheet == sheet;
    assert here == before + if snapshot[n].task.at.sheet == sheet then {n} else {};
  }

  lemma DueIsPlan(cfg: Config, snapshot: seq<Fetched>, titles: seq<string>, plan: seq<Partition>)
    requires forall f :: f in snapshot ==> f.task.at.sheet.spreadsheet == cfg.spreadsheet
    requires forall title :: title in titles <==> SheetRows(snapshot, title) != []
    requires PlansTitles(cfg, snapshot, titles, plan) && PlanAscends(plan)
    ensures IsPlan(cfg, snapshot, plan)
  {
    forall p: Partition | p.sheet.spreadsheet == cfg.spreadsheet
      ensures p in plan <==> Select(snapshot, p) != [] && SheetSize(snapshot, p.sheet) <= cfg.maxRowsPerSheet
    {
      SelectIsGrouping(cfg, snapshot, p);
      SizeOfSheet(cfg, snapshot, p.sheet);
    }
  }
}
