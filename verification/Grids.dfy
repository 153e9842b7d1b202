/** Flattening a rectangle of optional values, row by row, into placed entries. */
module Grids {
  import opened Common
  import opened Upserts

  datatype Place<T> = Place(sheet: T, row: int, col: int)

  function Entry<T, S>(p: Place<T>, value: Option<S>): seq<(Place<T>, S)> {
    if value.None? then [] else [(p, value.value)]
  }

  function FlatRow<T, S>(sheet: T, row: int, col: int, values: seq<Option<S>>): seq<(Place<T>, S)> {
    if values == [] then []
    else
      var j := |values| - 1;
      FlatRow(sheet, row, col, values[..j]) + Entry(Place(sheet, row, col + j), values[j])
  }

  function FlatGrid<T, S>(sheet: T, row: int, col: int, values: seq<seq<Option<S>>>): seq<(Place<T>, S)> {
    if values == [] then []
    else
      var i := |values| - 1;
      FlatGrid(sheet, row, col, values[..i]) + FlatRow(sheet, row + i, col, values[i])
  }

  function RowValue<T(==), S>(sheet: T, row: int, col: int, values: seq<Option<S>>, p: Place<T>): Option<S> {
    var j := p.col - col;
    if p.sheet == sheet && p.row == row && 0 <= j < |values| then values[j] else None
  }

  /** What the rectangle with corner (`row`, `col`) holds at a place. */
  function GridValue<T(==), S>(sheet: T, row: int, col: int, values: seq<seq<Option<S>>>, p: Place<T>): Option<S> {
    var i, j := p.row - row, p.col - col;
    if p.sheet == sheet && 0 <= i < |values| && 0 <= j < |values[i]| then values[i][j] else None
  }

  lemma RowStep<T, S>(sheet: T, row: int, col: int, values: seq<Option<S>>, j: nat)
    requires j < |values|
    ensures FlatRow(sheet, row, col, values[..j + 1])
         == FlatRow(sheet, row, col, values[..j]) + Entry(Place(sheet, row, col + j), values[j])
  {
    assert values[..j + 1][..j] == values[..j];
  }

  lemma GridStep<T, S>(sheet: T, row: int, col: int, values: seq<seq<Option<S>>>, i: nat)
    requires i < |values|
    ensures FlatGrid(sheet, row, col, values[..i + 1])
         == FlatGrid(sheet, row, col, values[..i]) + FlatRow(sheet, row + i, col, values[i])
  {
    assert values[..i + 1][..i] == values[..i];
  }

  /** The inner loop, over the columns of one row. */
  method FlattenRow<T, S>(sheet: T, row: int, col: int, values: seq<Option<S>>) returns (cells: seq<(Place<T>, S)>)
    ensures cells == FlatRow(sheet, row, col, values)
  {
    cells := [];
    for j := 0 to |values|
      invariant cells == FlatRow(sheet, row, col, values[..j])
    {
      RowStep(sheet, row, col, values, j);
      if values[j].Some? {
        cells := cells + [(Place(sheet, row, col + j), values[j].value)];
      }
    }
    assert values[..|values|] == values;
  }

  /** The outer loop, over the rows. */
  method FlattenGrid<T, S>(sheet: T, row: int, col: int, values: seq<seq<Option<S>>>)
    returns (cells: seq<(Place<T>, S)>)
    ensures cells == FlatGrid(sheet, row, col, values)
  {
    cells := [];
    for i := 0 to |values|
      invariant cells == FlatGrid(sheet, row, col, values[..i])
    {
      GridStep(sheet, row, col, values, i);
      var more := FlattenRow(sheet, row + i, col, values[i]);
      cells := cells + more;
    }
    assert values[..|values|] == values;
  }

  /** `table` holds exactly `value` at `p`. */
  ghost predicate HoldsAt<T, S>(table: map<Place<T>, S>, p: Place<T>, value: Option<S>) {
    if value.Some? then p in table && table[p] == value.value else p !in table
  }

  lemma UpsertEntry<T, S>(table: map<Place<T>, S>, p: Place<T>, value: Option<S>)
    ensures Upsert(table, Entry(p, value)) == if value.None? then table else table[p := value.value]
  {
    if value.Some? {
      assert Entry(p, value)[..0] == [];
    }
  }

  lemma {:induction false} FlatRowExact<T(!new), S(!new)>(sheet: T, row: int, col: int, values: seq<Option<S>>, p: Place<T>)
    ensures HoldsAt(Upsert(map[], FlatRow(sheet, row, col, values)), p, RowValue(sheet, row, col, values, p))
  {
    if values != [] {
      var j := |values| - 1;
      var front := FlatRow(sheet, row, col, values[..j]);
      var q := Place(sheet, row, col + j);
      FlatRowExact(sheet, row, col, values[..j], p);
      UpsertAppend(map[], front, Entry(q, values[j]));
      UpsertEntry(Upsert(map[], front), q, values[j]);
      assert RowValue(sheet, row, col, values, p)
          == if p == q then values[j] else RowValue(sheet, row, col, values[..j], p);
    }
  }

  lemma OverlayHolds<T(!new), S(!new)>(table: map<Place<T>, S>, rows: seq<(Place<T>, S)>, p: Place<T>,
                                       below: Option<S>, above: Option<S>)
    requires HoldsAt(table, p, below) && HoldsAt(Upsert(map[], rows), p, above)
    ensures HoldsAt(Upsert(table, rows), p, if above.Some? then above else below)
  {
    UpsertAdds(table, rows);
  }

  /** Flattening keeps exactly the values, each at its own place. */
  lemma {:induction false} FlatGridExact<T(!new), S(!new)>(sheet: T, row: int, col: int, values: seq<seq<Option<S>>>,
                                                           p: Place<T>)
    ensures HoldsAt(Upsert(map[], FlatGrid(sheet, row, col, values)), p, GridValue(sheet, row, col, values, p))
  {
    if values != [] {
      var i := |values| - 1;
      var front, last := FlatGrid(sheet, row, col, values[..i]), FlatRow(sheet, row + i, col, values[i]);
      var below, above := GridValue(sheet, row, col, values[..i], p), RowValue(sheet, row + i, col, values[i], p);
      FlatGridExact(sheet, row, col, values[..i], p);
      FlatRowExact(sheet, row + i, col, values[i], p);
      assert FlatGrid(sheet, row, col, values) == front + last;
      UpsertAppend(map[], front, last);
      OverlayHolds(Upsert(map[], front), last, p, below, above);
      GridValueSnoc(sheet, row, col, values, p);
    }
  }

  lemma GridValueSnoc<T, S>(sheet: T, row: int, col: int, values: seq<seq<Option<S>>>, p: Place<T>)
    requires values != []
    ensures var i := |values| - 1;
            var above := RowValue(sheet, row + i, col, values[i], p);
            GridValue(sheet, row, col, values, p)
            == if above.Some? then above else GridValue(sheet, row, col, values[..i], p)
  {
  }

  /** Entries in reading order: no place occurs twice. */
  ghost predicate RowMajor<T, S>(entries: seq<(Place<T>, S)>) {
    forall i, j :: 0 <= i < j < |entries| ==> Before(entries[i].0, entries[j].0)
  }

  predicate Before<T>(p: Place<T>, q: Place<T>) {
    p.row < q.row || (p.row == q.row && p.col < q.col)
  }

  /** All entries lie in the given rows, from the given column on. */
  ghost predicate Within<T, S>(entries: seq<(Place<T>, S)>, lo: int, hi: int, left: int, right: int) {
    forall i :: 0 <= i < |entries| ==> lo <= entries[i].0.row < hi && left <= entries[i].0.col < right
  }

  lemma {:induction false} RowIsMajor<T, S>(sheet: T, row: int, col: int, values: seq<Option<S>>)
    ensures RowMajor(FlatRow(sheet, row, col, values))
    ensures Within(FlatRow(sheet, row, col, values), row, row + 1, col, col + |values|)
  {
    if values != [] {
      RowIsMajor(sheet, row, col, values[..|values| - 1]);
    }
  }

  ghost predicate InRows<T, S>(entries: seq<(Place<T>, S)>, lo: int, hi: int) {
    forall i :: 0 <= i < |entries| ==> lo <= entries[i].0.row < hi
  }

  /** Flattening reads row by row, left to right. */
  lemma {:induction false} GridIsMajor<T, S>(sheet: T, row: int, col: int, values: seq<seq<Option<S>>>)
    ensures RowMajor(FlatGrid(sheet, row, col, values))
    ensures InRows(FlatGrid(sheet, row, col, values), row, row + |values|)
  {
    if values != [] {
      var i := |values| - 1;
      GridIsMajor(sheet, row, col, values[..i]);
      RowIsMajor(sheet, row + i, col, values[i]);
      assert InRows(FlatRow(sheet, row + i, col, values[i]), row + i, row + i + 1);
      MajorAppend(FlatGrid(sheet, row, col, values[..i]), FlatRow(sheet, row + i, col, values[i]), row, row + i);
    }
  }

  lemma MajorAppend<T, S>(x: seq<(Place<T>, S)>, y: seq<(Place<T>, S)>, lo: int, mid: int)
    requires RowMajor(x) && RowMajor(y) && InRows(x, lo, mid) && InRows(y, mid, mid + 1) && lo <= mid
    ensures RowMajor(x + y) && InRows(x + y, lo, mid + 1)
  {
  }
}
