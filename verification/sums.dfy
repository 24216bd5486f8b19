/** Totals over tables: what `SELECT SUM(..) WHERE ..` computes, and how a total
    moves when one row is written. */
module Sums {

  /** The weight of every row of a keyed table, added up. */
  ghost function Sum<K, V>(table: map<K, V>, weight: V -> int): int
    decreases |table|
  {
    if table == map[] then 0
    else
      var k :| k in table;
      weight(table[k]) + Sum(table - {k}, weight)
  }

  /** The chosen key does not matter. */
  lemma {:induction false} SumPick<K, V>(table: map<K, V>, weight: V -> int, k: K)
    requires k in table
    ensures Sum(table, weight) == weight(table[k]) + Sum(table - {k}, weight)
    decreases |table|
  {
    var p :| p in table && Sum(table, weight) == weight(table[p]) + Sum(table - {p}, weight);
    if p != k {
      SumPick(table - {p}, weight, k);
      SumPick(table - {k}, weight, p);
      assert table - {p} - {k} == table - {k} - {p};
    }
  }

  /** Writing one row moves the total by the new weight less the old. */
  lemma SumPut<K, V>(table: map<K, V>, weight: V -> int, k: K, v: V)
    ensures Sum(table[k := v], weight)
         == Sum(table, weight) + weight(v) - (if k in table then weight(table[k]) else 0)
  {
    SumPick(table[k := v], weight, k);
    if k in table {
      SumPick(table, weight, k);
      assert table[k := v] - {k} == table - {k};
    } else {
      assert table[k := v] - {k} == table;
    }
  }

  /** With no negative weight, a total is nonnegative and bounds each row. */
  lemma {:induction false} SumBounds<K, V>(table: map<K, V>, weight: V -> int)
    requires forall k :: k in table ==> 0 <= weight(table[k])
    ensures 0 <= Sum(table, weight)
    ensures forall k :: k in table ==> weight(table[k]) <= Sum(table, weight)
    decreases |table|
  {
    if table != map[] {
      forall k | k in table
        ensures 0 <= Sum(table, weight) && weight(table[k]) <= Sum(table, weight)
      {
        SumPick(table, weight, k);
        SumBounds(table - {k}, weight);
      }
      var k :| k in table;
      assert 0 <= Sum(table, weight);
    }
  }

  /** Weights that agree on every row give the same total. */
  lemma {:induction false} SumAgree<K, V>(table: map<K, V>, w1: V -> int, w2: V -> int)
    requires forall k :: k in table ==> w1(table[k]) == w2(table[k])
    ensures Sum(table, w1) == Sum(table, w2)
    decreases |table|
  {
    if table != map[] {
      var k :| k in table;
      SumPick(table, w1, k);
      SumPick(table, w2, k);
      SumAgree(table - {k}, w1, w2);
    }
  }

  lemma {:induction false} SumZero<K, V>(table: map<K, V>, weight: V -> int)
    requires forall k :: k in table ==> weight(table[k]) == 0
    ensures Sum(table, weight) == 0
    decreases |table|
  {
    if table != map[] {
      var k :| k in table;
      SumPick(table, weight, k);
      SumZero(table - {k}, weight);
    }
  }

  /** The query itself: visits the rows in any order and adds their weights. */
  method Total<K(==), V>(table: map<K, V>, weight: V -> int) returns (total: int)
    ensures total == Sum(table, weight)
  {
    total := 0;
    var rest := table;
    while rest != map[]
      invariant total + Sum(rest, weight) == Sum(table, weight)
      decreases |rest|
    {
      var k :| k in rest;
      SumPick(rest, weight, k);
      total := total + weight(rest[k]);
      rest := rest - {k};
    }
  }

  /** The same for an append-only table. */
  ghost function SumSeq<T>(rows: seq<T>, weight: T -> int): int {
    if rows == [] then 0 else SumSeq(rows[..|rows| - 1], weight) + weight(rows[|rows| - 1])
  }

  lemma SumSeqPush<T>(rows: seq<T>, row: T, weight: T -> int)
    ensures SumSeq(rows + [row], weight) == SumSeq(rows, weight) + weight(row)
  {
    assert (rows + [row])[..|rows|] == rows;
  }

  method TotalSeq<T>(rows: seq<T>, weight: T -> int) returns (total: int)
    ensures total == SumSeq(rows, weight)
  {
    total := 0;
    for i := 0 to |rows|
      invariant total == SumSeq(rows[..i], weight)
    {
      assert rows[..i + 1] == rows[..i] + [rows[i]];
      SumSeqPush(rows[..i], rows[i], weight);
      total := total + weight(rows[i]);
    }
    assert rows[..|rows|] == rows;
  }
}
