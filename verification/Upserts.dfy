/** INSERT ... ON CONFLICT DO UPDATE, run row by row over a batch. */
module Upserts {

  /** The table after upserting `rows` in order: a later row with the same key wins. */
  function Upsert<K, V>(table: map<K, V>, rows: seq<(K, V)>): map<K, V> {
    if rows == [] then table
    else Upsert(table, rows[..|rows| - 1])[rows[|rows| - 1].0 := rows[|rows| - 1].1]
  }

  method UpsertBatch<K, V>(table: map<K, V>, rows: seq<(K, V)>) returns (after: map<K, V>)
    ensures after == Upsert(table, rows)
  {
    after := table;
    for i := 0 to |rows|
      invariant after == Upsert(table, rows[..i])
    {
      assert rows[..i + 1][..i] == rows[..i];
      after := after[rows[i].0 := rows[i].1];
    }
    assert rows[..|rows|] == rows;
  }

  ghost predicate HasKey<K(!new), V(!new)>(rows: seq<(K, V)>, k: K) {
    exists i :: 0 <= i < |rows| && rows[i].0 == k
  }

  /** A batch overwrites exactly its own keys. */
  lemma {:induction false} UpsertAdds<K(!new), V(!new)>(table: map<K, V>, rows: seq<(K, V)>)
    ensures Upsert(table, rows) == table + Upsert(map[], rows)
    ensures forall k :: k in Upsert(map[], rows) <==> HasKey(rows, k)
  {
    if rows != [] {
      var front, last := rows[..|rows| - 1], rows[|rows| - 1];
      UpsertAdds(table, front);
      forall k
        ensures HasKey(rows, k) <==> HasKey(front, k) || k == last.0
      {
        KeysSnoc(rows, k);
      }
    }
  }

  lemma UpsertKeepsOthers<K(!new), V(!new)>(table: map<K, V>, rows: seq<(K, V)>, k: K)
    requires !HasKey(rows, k)
    ensures k in Upsert(table, rows) <==> k in table
    ensures k in table ==> Upsert(table, rows)[k] == table[k]
  {
    UpsertAdds(table, rows);
  }

  lemma KeysSnoc<K(!new), V(!new)>(rows: seq<(K, V)>, k: K)
    requires rows != []
    ensures HasKey(rows, k) <==> HasKey(rows[..|rows| - 1], k) || k == rows[|rows| - 1].0
  {
    var front := rows[..|rows| - 1];
    if HasKey(front, k) {
      var i :| 0 <= i < |front| && front[i].0 == k;
      assert rows[i].0 == k;
    }
    if HasKey(rows, k) && k != rows[|rows| - 1].0 {
      var i :| 0 <= i < |rows| && rows[i].0 == k;
      assert front[i].0 == k;
    }
  }

  lemma {:induction false} UpsertAppend<K, V>(table: map<K, V>, rows: seq<(K, V)>, more: seq<(K, V)>)
    ensures Upsert(table, rows + more) == Upsert(Upsert(table, rows), more)
    decreases |more|
  {
    if more == [] {
      assert rows + more == rows;
    } else {
      UpsertAppend(table, rows, more[..|more| - 1]);
      assert (rows + more)[..|rows + more| - 1] == rows + more[..|more| - 1];
    }
  }

  /** Repeating a batch changes nothing. */
  lemma UpsertTwice<K(!new), V(!new)>(table: map<K, V>, rows: seq<(K, V)>)
    ensures Upsert(Upsert(table, rows), rows) == Upsert(table, rows)
  {
    UpsertAdds(table, rows);
    UpsertAdds(Upsert(table, rows), rows);
  }

  /** Rows with the same key carry the same value. */
  ghost predicate Consistent<K, V>(rows: seq<(K, V)>) {
    forall i, j :: 0 <= i < |rows| && 0 <= j < |rows| && rows[i].0 == rows[j].0 ==> rows[i].1 == rows[j].1
  }

  /** Then every row arrives. */
  lemma {:induction false} UpsertHolds<K(!new), V(!new)>(table: map<K, V>, rows: seq<(K, V)>, i: nat)
    requires Consistent(rows) && i < |rows|
    ensures rows[i].0 in Upsert(table, rows) && Upsert(table, rows)[rows[i].0] == rows[i].1
    decreases |rows|
  {
    var front := rows[..|rows| - 1];
    if i < |front| {
      UpsertHolds(table, front, i);
    }
  }
}
