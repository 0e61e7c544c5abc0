/**
 * Rows of the vendors table and the order `ORDER BY vendorName ASC` puts
 * them in. Text compares by SQLite's BINARY collation, taken here as
 * lexicographic order on code points; NULL sorts before every text.
 */
module SqlRows {
  import opened Records

  /** A result row: one value per column. */
  type Row = seq<Value>

  predicate StrLe(a: string, b: string)
    decreases |a|
  {
    |a| == 0 || (|b| > 0 && (a[0] < b[0] || (a[0] == b[0] && StrLe(a[1..], b[1..]))))
  }

  predicate ValueLe(a: Value, b: Value)
  {
    a.Null? || (b.Str? && StrLe(a.s, b.s))
  }

  /** The first column's value: the row's `vendorName`. */
  function KeyOf(row: Row): Value
  {
    if |row| > 0 then row[0] else Null
  }

  predicate SortedByKey(rows: seq<Row>)
  {
    forall i, j :: 0 <= i < j < |rows| ==> ValueLe(KeyOf(rows[i]), KeyOf(rows[j]))
  }

  lemma {:induction false} StrLeTotal(a: string, b: string)
    ensures StrLe(a, b) || StrLe(b, a)
  {
    if |a| > 0 && |b| > 0 && a[0] == b[0] {
      StrLeTotal(a[1..], b[1..]);
    }
  }

  lemma {:induction false} StrLeTransitive(a: string, b: string, c: string)
    requires StrLe(a, b) && StrLe(b, c)
    ensures StrLe(a, c)
  {
    if |a| > 0 && a[0] == b[0] && b[0] == c[0] {
      StrLeTransitive(a[1..], b[1..], c[1..]);
    }
  }

  lemma ValueLeTotal(a: Value, b: Value)
    ensures ValueLe(a, b) || ValueLe(b, a)
  {
    if a.Str? && b.Str? {
      StrLeTotal(a.s, b.s);
    }
  }

  lemma ValueLeTransitive(a: Value, b: Value, c: Value)
    requires ValueLe(a, b) && ValueLe(b, c)
    ensures ValueLe(a, c)
  {
    if a.Str? {
      StrLeTransitive(a.s, b.s, c.s);
    }
  }

  function InsertByKey(row: Row, sorted: seq<Row>): (r: seq<Row>)
    ensures multiset(r) == multiset(sorted) + multiset{row}
  {
    if sorted == [] then [row]
    else if ValueLe(KeyOf(row), KeyOf(sorted[0])) then [row] + sorted
    else
      assert sorted == [sorted[0]] + sorted[1..];
      [sorted[0]] + InsertByKey(row, sorted[1..])
  }

  lemma {:induction false} InsertKeepsSorted(row: Row, sorted: seq<Row>)
    requires SortedByKey(sorted)
    ensures SortedByKey(InsertByKey(row, sorted))
  {
    if sorted == [] {
    } else if ValueLe(KeyOf(row), KeyOf(sorted[0])) {
      var r := [row] + sorted;
      forall i, j | 0 <= i < j < |r| ensures ValueLe(KeyOf(r[i]), KeyOf(r[j])) {
        if i == 0 && j > 1 {
          ValueLeTransitive(KeyOf(row), KeyOf(sorted[0]), KeyOf(sorted[j - 1]));
        }
      }
    } else {
      var head := sorted[0];
      var tail := sorted[1..];
      InsertKeepsSorted(row, tail);
      ValueLeTotal(KeyOf(row), KeyOf(head));
      var rest := InsertByKey(row, tail);
      var r := [head] + rest;
      forall j | 0 <= j < |rest| ensures ValueLe(KeyOf(head), KeyOf(rest[j])) {
        assert rest[j] in multiset(rest);
        if rest[j] != row {
          assert rest[j] in multiset(tail);
          var k :| 0 <= k < |tail| && tail[k] == rest[j];
          assert sorted[k + 1] == rest[j];
        }
      }
      forall i, j | 0 <= i < j < |r| ensures ValueLe(KeyOf(r[i]), KeyOf(r[j])) {
        if i == 0 {
          assert r[j] == rest[j - 1];
        } else {
          assert r[i] == rest[i - 1] && r[j] == rest[j - 1];
        }
      }
    }
  }

  /** `ORDER BY vendorName ASC`: the same rows, ascending by key. */
  function SortByKey(rows: seq<Row>): (r: seq<Row>)
    ensures multiset(r) == multiset(rows)
    ensures SortedByKey(r)
  {
    if rows == [] then []
    else
      var rest := SortByKey(rows[1..]);
      InsertKeepsSorted(rows[0], rest);
      assert rows == [rows[0]] + rows[1..];
      InsertByKey(rows[0], rest)
  }
}
