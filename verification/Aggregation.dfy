/** Greedy aggregation of micro-tasks into operational cycles (WorkAI/assess/aggregation.py). */
module Aggregation {
  import opened Common
  import opened Text
  import opened Sorting
  import opened GreedyRuns
  import opened Totals

  datatype Task = Task(id: int, employee: int, date: int, spreadsheet: string, title: string, row: int, col: int,
                       line: int, text: string, category: Option<string>, duration: Option<int>, micro: bool,
                       waiting: bool, quality: Option<real>, smart: Option<real>)

  datatype Cycle = Cycle(employee: int, date: int, key: string, text: string, category: string, minutes: int,
                         count: nat, waiting: bool, quality: Option<real>, smart: Option<real>)

  /** Library functions: similarity at the threshold, casefold-and-strip, ISO dates, the key digest. */
  datatype Lib = Lib(similar: (string, string) -> bool, fold: string -> string, iso: int -> string,
                     digest: string -> string)

  function Category(t: Task): string {
    var raw := if t.category.Some? then Strip(t.category.value) else "";
    if raw != "" then raw else "uncategorized"
  }

  function Minutes(t: Task): int { if t.duration.Some? then t.duration.value else 0 }

  // ---- Cycle keys -------------------------------------------------------------------

  function AnchorRef(t: Task): string {
    t.spreadsheet + ":" + (t.title + ":" + IntToString(t.row) + ":" + IntToString(t.col) + ":" + IntToString(t.line))
  }

  /** What `build_cycle_key` hashes, for a cycle whose first task is `t`. */
  function Payload(lib: Lib, t: Task): string {
    IntToString(t.employee) + "|" + lib.iso(t.date) + "|" + lib.fold(Category(t)) + "|" + lib.fold(t.text)
    + "|" + AnchorRef(t)
  }

  function CycleKey(lib: Lib, t: Task): string {
    "cycle:" + lib.digest(Payload(lib, t))
  }

  ghost predicate SamePlace(s: Task, t: Task) {
    s.spreadsheet == t.spreadsheet && s.title == t.title && s.row == t.row && s.col == t.col && s.line == t.line
  }

  // ---- Sort order -------------------------------------------------------------------

  predicate PositionLe(s: Task, t: Task) {
    if s.row != t.row then s.row < t.row
    else if s.col != t.col then s.col < t.col
    else if s.line != t.line then s.line < t.line
    else s.id <= t.id
  }

  /** The sort key, compared as Python compares tuples. */
  predicate TaskLe(s: Task, t: Task) {
    if s.employee != t.employee then s.employee < t.employee
    else if s.date != t.date then s.date < t.date
    else if s.title != t.title then StringLe(s.title, t.title)
    else PositionLe(s, t)
  }

  lemma TaskOrder()
    ensures TotalPreorder(TaskLe)
  {
    forall x, y
      ensures TaskLe(x, y) || TaskLe(y, x)
    {
      StringLeTotal(x.title, y.title);
    }
    forall x, y, z | TaskLe(x, y) && TaskLe(y, z)
      ensures TaskLe(x, z)
    {
      TaskLeTransitive(x, y, z);
    }
  }

  lemma TaskLeTransitive(x: Task, y: Task, z: Task)
    requires TaskLe(x, y) && TaskLe(y, z)
    ensures TaskLe(x, z)
  {
    StringLeTotal(x.title, y.title);
    if x.employee == y.employee == z.employee && x.date == y.date == z.date && x.title != y.title && y.title != z.title {
      StringLeTransitive(x.title, y.title, z.title);
    }
  }

  /** `normalized_task_id` is a primary key. */
  ghost predicate DistinctIds(tasks: multiset<Task>) {
    forall s, t :: s in tasks && t in tasks && s.id == t.id ==> s == t
  }

  lemma DistinctIdsAreStrict(tasks: multiset<Task>)
    requires DistinctIds(tasks)
    ensures Strict(TaskLe, tasks)
  {
    forall x, y | x in tasks && y in tasks && TaskLe(x, y) && TaskLe(y, x)
      ensures x == y
    {
      StringLeTotal(x.title, y.title);
      assert x.id == y.id;
    }
  }

  // ---- Greedy partitions ----------------------------------------------------------------

  /** `_can_merge_into_current`: the run that starts with `first` accepts micro task `t`. */
  predicate Accepts(lib: Lib, first: Task, t: Task) {
    && first.micro && t.micro
    && first.employee == t.employee && first.date == t.date && Category(first) == Category(t)
    && lib.similar(first.text, t.text)
  }

  function Merges(lib: Lib): (Task, Task) -> bool {
    (first, t) => Accepts(lib, first, t)
  }

  // ---- Cycles ---------------------------------------------------------------------------

  function TotalMinutes(group: seq<Task>): int {
    SumBy(Minutes, group)
  }

  function Qualities(group: seq<Task>): seq<real> {
    if group == [] then []
    else Qualities(group[..|group| - 1]) + if group[|group| - 1].quality.Some? then [group[|group| - 1].quality.value] else []
  }

  function Smarts(group: seq<Task>): seq<real> {
    if group == [] then []
    else Smarts(group[..|group| - 1]) + if group[|group| - 1].smart.Some? then [group[|group| - 1].smart.value] else []
  }

  function AnyWaiting(group: seq<Task>): bool {
    exists t :: t in group && t.waiting
  }

  function Ids(group: seq<Task>): seq<int> {
    seq(|group|, k requires 0 <= k < |group| => group[k].id)
  }

  lemma TotalsSnoc(group: seq<Task>, t: Task)
    ensures Ids(group + [t]) == Ids(group) + [t.id]
    ensures TotalMinutes(group + [t]) == TotalMinutes(group) + Minutes(t)
    ensures Qualities(group + [t]) == Qualities(group) + if t.quality.Some? then [t.quality.value] else []
    ensures Smarts(group + [t]) == Smarts(group) + if t.smart.Some? then [t.smart.value] else []
    ensures AnyWaiting(group + [t]) == (AnyWaiting(group) || t.waiting)
  {
    var longer := group + [t];
    assert longer[..|longer| - 1] == group && longer[|longer| - 1] == t;
    assert forall u :: u in longer <==> u in group || u == t;
  }

  function Sum(values: seq<real>): real {
    if values == [] then 0.0 else Sum(values[..|values| - 1]) + values[|values| - 1]
  }

  function Average(values: seq<real>): Option<real> {
    if values == [] then None else Some(Sum(values) / |values| as real)
  }

  /** The cycle row of one run. */
  function CycleOf(lib: Lib, group: seq<Task>): Cycle
    requires group != []
  {
    Cycle(group[0].employee, group[0].date, CycleKey(lib, group[0]), group[0].text, Category(group[0]),
          TotalMinutes(group), |group|, AnyWaiting(group),
          Average(Qualities(group)), Average(Smarts(group)))
  }

  predicate NoneEmpty(groups: seq<seq<Task>>) {
    forall g :: 0 <= g < |groups| ==> groups[g] != []
  }

  function CyclesOf(lib: Lib, groups: seq<seq<Task>>): (cycles: seq<Cycle>)
    requires NoneEmpty(groups)
    ensures |cycles| == |groups|
    ensures forall g :: 0 <= g < |groups| ==> cycles[g] == CycleOf(lib, groups[g])
  {
    seq(|groups|, g requires 0 <= g < |groups| => CycleOf(lib, groups[g]))
  }

  lemma CutHasNoEmptyRun(lib: Lib, tasks: seq<Task>)
    ensures NoneEmpty(Cut(Merges(lib), tasks))
  {
    CutIsGreedy(Merges(lib), tasks);
    forall g | 0 <= g < |Cut(Merges(lib), tasks)|
      ensures Cut(Merges(lib), tasks)[g] != []
    {
      assert IsRun(Merges(lib), Cut(Merges(lib), tasks)[g]);
    }
  }

  /** What `aggregate_operational_cycles` returns. */
  function Aggregate(lib: Lib, tasks: seq<Task>): seq<Cycle> {
    var sorted := SortBy(TaskLe, tasks);
    CutHasNoEmptyRun(lib, sorted);
    CyclesOf(lib, Cut(Merges(lib), sorted))
  }

  /** The mutable `_CycleBuilder`. */
  class CycleBuilder {
    var employee: int
    var date: int
    var category: string
    var text: string
    var anchorRef: string
    var taskIds: seq<int>
    var minutes: int
    var count: nat
    var waiting: bool
    var qualities: seq<real>
    var smarts: seq<real>

    /** The fields fixed by the first task. */
    ghost predicate StartsWith(first: Task)
      reads this
    {
      && employee == first.employee && date == first.date && category == Category(first)
      && text == first.text && anchorRef == AnchorRef(first)
    }

    /** The fields that grow with every task. */
    ghost predicate Totals(group: seq<Task>)
      reads this
    {
      && taskIds == Ids(group)
      && minutes == TotalMinutes(group) && count == |group| && waiting == AnyWaiting(group)
      && qualities == Qualities(group) && smarts == Smarts(group)
    }

    /** The builder has absorbed exactly `group`. */
    ghost predicate Holds(group: seq<Task>)
      reads this
    {
      group != [] && StartsWith(group[0]) && Totals(group)
    }

    constructor (t: Task)
      ensures Holds([t])
    {
      employee, date, category, text, anchorRef := t.employee, t.date, Category(t), t.text, AnchorRef(t);
      taskIds, minutes, count, waiting := [t.id], Minutes(t), 1, t.waiting;
      qualities := if t.quality.Some? then [t.quality.value] else [];
      smarts := if t.smart.Some? then [t.smart.value] else [];
      new;
      TotalsSnoc([], t);
      assert [] + [t] == [t];
    }

    /** `_append_scores` */
    method AppendScores(t: Task)
      modifies this`qualities, this`smarts
      ensures qualities == old(qualities) + if t.quality.Some? then [t.quality.value] else []
      ensures smarts == old(smarts) + if t.smart.Some? then [t.smart.value] else []
    {
      if t.quality.Some? {
        qualities := qualities + [t.quality.value];
      }
      if t.smart.Some? {
        smarts := smarts + [t.smart.value];
      }
    }

    /** The merge branch of the main loop. */
    method Absorb(t: Task, ghost group: seq<Task>)
      requires Holds(group)
      modifies this
      ensures Holds(group + [t])
    {
      taskIds := taskIds + [t.id];
      minutes := minutes + Minutes(t);
      count := count + 1;
      waiting := waiting || t.waiting;
      AppendScores(t);
      TotalsSnoc(group, t);
      assert Totals(group + [t]);
      assert StartsWith(group[0]);
      assert (group + [t])[0] == group[0];
    }

    /** `_can_merge_into_current`, for a micro run and a micro task. */
    predicate CanMerge(lib: Lib, t: Task, ghost group: seq<Task>)
      requires Holds(group) && group[0].micro && t.micro
      reads this
      ensures CanMerge(lib, t, group) <==> Accepts(lib, group[0], t)
    {
      employee == t.employee && date == t.date && category == Category(t) && lib.similar(text, t.text)
    }

    /** `_build_operational_cycle` */
    method Build(lib: Lib, ghost group: seq<Task>) returns (c: Cycle)
      requires Holds(group)
      ensures c == CycleOf(lib, group)
    {
      var payload := IntToString(employee) + "|" + lib.iso(date) + "|" + lib.fold(category) + "|" + lib.fold(text)
                     + "|" + anchorRef;
      c := Cycle(employee, date, "cycle:" + lib.digest(payload), text, category, minutes, count, waiting,
                 Average(qualities), Average(smarts));
    }
  }

  lemma CyclesSnoc(lib: Lib, groups: seq<seq<Task>>, group: seq<Task>)
    requires NoneEmpty(groups) && group != []
    ensures NoneEmpty(groups + [group])
    ensures CyclesOf(lib, groups + [group]) == CyclesOf(lib, groups) + [CycleOf(lib, group)]
  {
  }

  /** The runs so far: the closed ones and, if one is open, that one. */
  ghost function WithOpen(closed: seq<seq<Task>>, open: seq<Task>): seq<seq<Task>> {
    if open == [] then closed else closed + [open]
  }

  /** `if current is not None: cycles.append(_build_operational_cycle(current))` */
  method Flush(lib: Lib, current: CycleBuilder?, cycles: seq<Cycle>, ghost closed: seq<seq<Task>>, ghost open: seq<Task>)
    returns (all: seq<Cycle>)
    requires NoneEmpty(closed) && cycles == CyclesOf(lib, closed)
    requires if current == null then open == [] else current.Holds(open)
    ensures NoneEmpty(WithOpen(closed, open)) && all == CyclesOf(lib, WithOpen(closed, open))
  {
    all := cycles;
    if current != null {
      var c := current.Build(lib, open);
      CyclesSnoc(lib, closed, open);
      all := cycles + [c];
    }
  }

  /** After the last closed run only a micro run can be open, and only a non-micro task closes the list. */
  ghost predicate Resumes(closed: seq<seq<Task>>, open: seq<Task>) {
    if open != [] then open[0].micro
    else closed != [] ==> closed[|closed| - 1] != [] && !closed[|closed| - 1][0].micro
  }

  lemma Joins(lib: Lib, closed: seq<seq<Task>>, open: seq<Task>, t: Task)
    requires open != [] && Accepts(lib, open[0], t) && Resumes(closed, open)
    ensures Place(Merges(lib), WithOpen(closed, open), t) == WithOpen(closed, open + [t])
    ensures Resumes(closed, open + [t])
  {
    PlaceJoins(Merges(lib), closed, open, t);
  }

  lemma Starts(lib: Lib, closed: seq<seq<Task>>, open: seq<Task>, t: Task)
    requires Resumes(closed, open) && (open != [] && t.micro ==> !Accepts(lib, open[0], t))
    ensures Place(Merges(lib), WithOpen(closed, open), t) == WithOpen(closed, open) + [[t]]
  {
    PlaceStarts(Merges(lib), WithOpen(closed, open), t);
  }

  /** What the loop has built: one cycle for each closed run, and the open run in its builder. */
  ghost predicate Built(lib: Lib, cycles: seq<Cycle>, current: CycleBuilder?, closed: seq<seq<Task>>, open: seq<Task>)
    reads current
  {
    && NoneEmpty(closed) && cycles == CyclesOf(lib, closed) && Resumes(closed, open)
    && if current == null then open == [] else open != [] && current.Holds(open)
  }

  /** One turn of the loop. */
  method Add(lib: Lib, t: Task, cycles: seq<Cycle>, current: CycleBuilder?, ghost closed: seq<seq<Task>>,
             ghost open: seq<Task>)
    returns (all: seq<Cycle>, next: CycleBuilder?, ghost closed': seq<seq<Task>>, ghost open': seq<Task>)
    requires Built(lib, cycles, current, closed, open)
    modifies current
    ensures Built(lib, all, next, closed', open') && (next == current || next == null || fresh(next))
    ensures WithOpen(closed', open') == Place(Merges(lib), WithOpen(closed, open), t)
  {
    all, next, closed', open' := cycles, current, closed, open;
    if t.micro && current != null && current.CanMerge(lib, t, open) {
      Joins(lib, closed, open, t);
      current.Absorb(t, open);
      open' := open + [t];
    } else {
      Starts(lib, closed, open, t);
      all := Flush(lib, current, cycles, closed, open);
      closed' := WithOpen(closed, open);
      all, next, closed', open' := Begin(lib, t, all, closed');
    }
  }

  /** A new builder for `t`, flushed at once unless `t` is a micro-task. */
  method Begin(lib: Lib, t: Task, cycles: seq<Cycle>, ghost closed: seq<seq<Task>>)
    returns (all: seq<Cycle>, next: CycleBuilder?, ghost closed': seq<seq<Task>>, ghost open': seq<Task>)
    requires NoneEmpty(closed) && cycles == CyclesOf(lib, closed)
    ensures Built(lib, all, next, closed', open') && (next == null || fresh(next))
    ensures WithOpen(closed', open') == closed + [[t]]
  {
    all, closed', open' := cycles, closed, [t];
    next := new CycleBuilder(t);
    if !t.micro {
      all := Flush(lib, next, all, closed, [t]);
      next, closed', open' := null, closed + [[t]], [];
    }
  }

  method AggregateOperationalCycles(lib: Lib, tasks: seq<Task>) returns (cycles: seq<Cycle>)
    ensures cycles == Aggregate(lib, tasks)
  {
    var sorted := SortBy(TaskLe, tasks);
    assert sorted[..0] == [];
    cycles := [];
    var current: CycleBuilder? := null;
    ghost var closed: seq<seq<Task>> := [];
    ghost var open: seq<Task> := [];
    for i := 0 to |sorted|
      invariant Cut(Merges(lib), sorted[..i]) == WithOpen(closed, open)
      invariant Built(lib, cycles, current, closed, open) && (current == null || fresh(current))
    {
      CutPrefix(Merges(lib), sorted, i);
      cycles, current, closed, open := Add(lib, sorted[i], cycles, current, closed, open);
    }
    assert sorted[..|sorted|] == sorted;
    cycles := Flush(lib, current, cycles, closed, open);
  }
}
