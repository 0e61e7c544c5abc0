/**
 * The SQL-backed vendor store of `src/lib/database.ts`: the `vendors` table
 * as sql.js holds it, the statements `saveVendorDb`, `removeVendorDb` and
 * `getAllVendorsDb` run against it, the conversion of query results into
 * records, and the module state (`dbPromise` and the snapshot kept in
 * local storage) that `getDb` and `persistDb` manage.
 */
module VendorDb {
  import opened Wrappers
  import opened Records
  import opened Schema
  import opened SqlRows
  import Seqs

  /**
   * The rows of `vendors`, in insertion order: every row has one value per
   * column, and no two rows share a text key (the PRIMARY KEY; SQLite lets
   * a non-integer primary key column hold several NULLs).
   */
  predicate WellFormedTable(rows: seq<Row>)
  {
    RowsHaveWidth(rows, |VendorColumns|) && DistinctKeys(rows)
  }

  predicate RowsHaveWidth(rows: seq<Row>, width: nat)
  {
    forall i :: 0 <= i < |rows| ==> |rows[i]| == width
  }

  predicate DistinctKeys(rows: seq<Row>)
  {
    forall i, j :: 0 <= i < j < |rows| && KeyOf(rows[i]).Str? ==> KeyOf(rows[i]) != KeyOf(rows[j])
  }

  type Table = rows: seq<Row> | WellFormedTable(rows) witness []

  /** SQL `=`: NULL equals nothing. */
  predicate SqlEq(a: Value, b: Value)
  {
    a.Str? && a == b
  }

  /** `SELECT ... FROM vendors WHERE vendorName = key`. */
  function RowsWithKey(t: seq<Row>, key: Value): seq<Row>
  {
    Seqs.Filter(t, (row: Row) => SqlEq(KeyOf(row), key))
  }

  /** `params[$col]`: `String(value)` when the field is defined and non-null, else null. */
  function BindValue(r: Record, col: string): Value
  {
    if col in r && r[col] != Null then Str(r[col].s) else Null
  }

  /** The bound parameters in column order. */
  function BoundRow(r: Record): (row: Row)
    ensures |row| == |VendorColumns|
  {
    seq(|VendorColumns|, i requires 0 <= i < |VendorColumns| => BindValue(r, VendorColumns[i]))
  }

  /** The `$col` parameters in column order. */
  function RowOf(params: map<string, Value>): (row: Row)
    requires forall col :: col in VendorColumns ==> ParamName(col) in params
    ensures |row| == |VendorColumns|
  {
    seq(|VendorColumns|, i requires 0 <= i < |VendorColumns| => params[ParamName(VendorColumns[i])])
  }

  /** The parameter names bound for some columns. */
  function ParamKeys(cols: seq<string>): set<string>
  {
    set col | col in cols :: ParamName(col)
  }

  lemma ParamKeysAppend(cols: seq<string>, col: string)
    ensures ParamKeys(cols + [col]) == ParamKeys(cols) + {ParamName(col)}
  {
  }

  /** The `params` object of `saveVendorDb`, filled one column of `columns` at a time. */
  method BindParams(columns: seq<string>, vendorData: Record) returns (params: map<string, Value>)
    ensures params.Keys == ParamKeys(columns)
    ensures forall col :: col in columns ==> params[ParamName(col)] == BindValue(vendorData, col)
  {
    params := map[];
    var i := 0;
    while i < |columns|
      invariant 0 <= i <= |columns|
      invariant params.Keys == ParamKeys(columns[..i])
      invariant forall c :: c in columns[..i] ==> params[ParamName(c)] == BindValue(vendorData, c)
    {
      var col := columns[i];
      forall c | c in columns[..i] ensures ParamName(c) == ParamName(col) ==> c == col {
        ParamNameInjective(c, col);
      }
      ParamKeysAppend(columns[..i], col);
      assert columns[..i + 1] == columns[..i] + [col];
      params := params[ParamName(col) := BindValue(vendorData, col)];
      i := i + 1;
    }
    assert columns[..i] == columns;
  }

  /** `INSERT INTO vendors (...) VALUES (...)`; a duplicate text key violates the PRIMARY KEY. */
  function ExecInsert(t: Table, row: Row): Result<Table, string>
    requires |row| == |VendorColumns|
  {
    if |RowsWithKey(t, KeyOf(row))| > 0 then
      var violation: Result<Table, string> := Failure("UNIQUE constraint failed: vendors.vendorName");
      violation
    else
      var t': Table := t + [row];
      Success(t')
  }

  /** `UPDATE vendors SET <every non-key column> WHERE vendorName = $vendorName`. */
  function ExecUpdate(t: Table, row: Row): (t': Table)
    requires |row| == |VendorColumns|
    ensures |t'| == |t|
    ensures forall i :: 0 <= i < |t| ==> KeyOf(t'[i]) == KeyOf(t[i])
    ensures forall i :: 0 <= i < |t| ==> t'[i] == if SqlEq(KeyOf(t[i]), KeyOf(row)) then [t[i][0]] + row[1..] else t[i]
  {
    var t' := seq(|t|, i requires 0 <= i < |t| => if SqlEq(KeyOf(t[i]), KeyOf(row)) then [t[i][0]] + row[1..] else t[i]);
    assert forall i :: 0 <= i < |t| ==> KeyOf(t'[i]) == KeyOf(t[i]);
    t'
  }

  lemma {:induction false} FilterKeepsDistinctKeys(t: seq<Row>, p: Row -> bool)
    requires DistinctKeys(t)
    ensures DistinctKeys(Seqs.Filter(t, p))
  {
    if t != [] {
      var rest := Seqs.Filter(t[1..], p);
      FilterKeepsDistinctKeys(t[1..], p);
      forall j | 0 <= j < |rest| && KeyOf(t[0]).Str? ensures KeyOf(t[0]) != KeyOf(rest[j]) {
        var k :| 0 <= k < |t[1..]| && t[1..][k] == rest[j];
        assert t[k + 1] == rest[j];
      }
      var r := (if p(t[0]) then [t[0]] else []) + rest;
      assert Seqs.Filter(t, p) == r;
      if p(t[0]) {
        forall i, j | 0 <= i < j < |r| && KeyOf(r[i]).Str? ensures KeyOf(r[i]) != KeyOf(r[j]) {
          if i > 0 { assert r[i] == rest[i - 1] && r[j] == rest[j - 1]; }
          else { assert r[j] == rest[j - 1]; }
        }
      }
    }
  }

  lemma FilterKeepsWidth(t: seq<Row>, p: Row -> bool, width: nat)
    requires RowsHaveWidth(t, width)
    ensures RowsHaveWidth(Seqs.Filter(t, p), width)
  {
    var r := Seqs.Filter(t, p);
    forall i | 0 <= i < |r| ensures |r[i]| == width {
      var k :| 0 <= k < |t| && t[k] == r[i];
    }
  }

  lemma FilterKeepsWellFormed(t: seq<Row>, p: Row -> bool)
    requires WellFormedTable(t)
    ensures WellFormedTable(Seqs.Filter(t, p))
  {
    FilterKeepsDistinctKeys(t, p);
    FilterKeepsWidth(t, p, |VendorColumns|);
  }

  /** `DELETE FROM vendors WHERE vendorName = ?`. */
  function ExecDelete(t: Table, name: string): Table
  {
    FilterKeepsWellFormed(t, (row: Row) => !SqlEq(KeyOf(row), Str(name)));
    Seqs.Filter(t, (row: Row) => !SqlEq(KeyOf(row), Str(name)))
  }

  /** `saveVendorDb` on the table: update the row with the key, or insert one. */
  function Save(t: Table, vendorData: VendorRecord): Result<Table, string>
  {
    var row := BoundRow(vendorData);
    if |RowsWithKey(t, Str(NameOf(vendorData)))| > 0 then Success(ExecUpdate(t, row))
    else ExecInsert(t, row)
  }

  /** One result set of `db.exec`. */
  datatype QueryResult = QueryResult(columns: seq<string>, values: seq<Row>)

  /** `SELECT * FROM vendors ORDER BY vendorName ASC`; `exec` returns no result set for no rows. */
  function ExecSelectAll(t: Table): seq<QueryResult>
  {
    if t == [] then [] else [QueryResult(VendorColumns, SortByKey(t))]
  }

  predicate LastOccurrence(columns: seq<string>, i: int)
    requires 0 <= i < |columns|
  {
    forall j :: i < j < |columns| ==> columns[j] != columns[i]
  }

  /** The object built for one row: `obj[col] = row[index]` for each column in turn. */
  function RowToObject(columns: seq<string>, row: Row): (obj: Record)
    requires |row| == |columns|
    ensures obj.Keys == set c | c in columns
  {
    if columns == [] then map[]
    else
      var n := |columns| - 1;
      assert columns == columns[..n] + [columns[n]];
      RowToObject(columns[..n], row[..n])[columns[n] := row[n]]
  }

  /** The last column of a given name decides its value. */
  lemma {:induction false} RowToObjectAt(columns: seq<string>, row: Row, i: int)
    requires |row| == |columns| && 0 <= i < |columns| && LastOccurrence(columns, i)
    ensures RowToObject(columns, row)[columns[i]] == row[i]
  {
    var n := |columns| - 1;
    if i < n {
      assert columns[n] != columns[i];
      assert LastOccurrence(columns[..n], i) by {
        forall j | i < j < n ensures columns[..n][j] != columns[..n][i] {
          assert columns[j] != columns[i];
        }
      }
      RowToObjectAt(columns[..n], row[..n], i);
    }
  }

  /** Column `i` maps to `row[i]` for every row, wherever the column name is not repeated later. */
  lemma RowToObjectValues(columns: seq<string>)
    ensures forall row: Row, i :: |row| == |columns| && 0 <= i < |columns| && LastOccurrence(columns, i) ==>
      RowToObject(columns, row)[columns[i]] == row[i]
  {
    forall row: Row, i | |row| == |columns| && 0 <= i < |columns| && LastOccurrence(columns, i)
      ensures RowToObject(columns, row)[columns[i]] == row[i]
    {
      RowToObjectAt(columns, row, i);
    }
  }

  /** Every row of the first result set is as wide as its column list, as sql.js returns them. */
  predicate RowsMatchColumns(results: seq<QueryResult>)
  {
    |results| > 0 ==> forall k :: 0 <= k < |results[0].values| ==> |results[0].values[k]| == |results[0].columns|
  }

  /** `convertResultsToObjects`. */
  function ConvertResultsToObjects(results: seq<QueryResult>): (objs: seq<Record>)
    requires RowsMatchColumns(results)
    ensures |results| == 0 || |results[0].values| == 0 ==> objs == []
    ensures |results| > 0 ==> |objs| == |results[0].values|
    ensures |results| > 0 ==> forall k :: 0 <= k < |objs| ==> objs[k].Keys == set c | c in results[0].columns
    ensures |results| > 0 ==> forall k, i :: 0 <= k < |objs| && 0 <= i < |results[0].columns| && LastOccurrence(results[0].columns, i) ==>
      objs[k][results[0].columns[i]] == results[0].values[k][i]
  {
    if |results| == 0 || |results[0].values| == 0 then []
    else
      var rs := results[0];
      RowToObjectValues(rs.columns);
      seq(|rs.values|, k requires 0 <= k < |rs.values| => RowToObject(rs.columns, rs.values[k]))
  }

  /** The record a table row reads back as. */
  function RowRecord(row: Row): Record
    requires |row| == |VendorColumns|
  {
    RowToObject(VendorColumns, row)
  }

  lemma SortedRowsAreTableRows(t: Table)
    ensures |SortByKey(t)| == |t|
    ensures forall k :: 0 <= k < |SortByKey(t)| ==> SortByKey(t)[k] in t
    ensures forall i :: 0 <= i < |t| ==> t[i] in SortByKey(t)
  {
    var s := SortByKey(t);
    assert |s| == |multiset(s)| == |multiset(t)| == |t|;
    forall k | 0 <= k < |s| ensures s[k] in t { assert s[k] in multiset(s); }
    forall i | 0 <= i < |t| ensures t[i] in s { assert t[i] in multiset(t); }
  }

  /** `getAllVendorsDb` on the table. */
  function Listing(t: Table): seq<Record>
  {
    SortedRowsAreTableRows(t);
    ConvertResultsToObjects(ExecSelectAll(t))
  }

  /** Every column index is the last occurrence of its name. */
  lemma VendorColumnsAreLast()
    ensures forall i :: 0 <= i < |VendorColumns| ==> LastOccurrence(VendorColumns, i)
  {
    ColumnsAreDistinct();
  }

  /** A row reads back with its key under `vendorName`. */
  lemma RowRecordKey(row: Row)
    requires |row| == |VendorColumns|
    ensures VendorNameKey in RowRecord(row) && RowRecord(row)[VendorNameKey] == KeyOf(row)
  {
    VendorColumnsAreLast();
    RowToObjectAt(VendorColumns, row, 0);
  }

  /** The bound row's key is the vendor's name. */
  lemma BoundKey(v: VendorRecord)
    ensures KeyOf(BoundRow(v)) == Str(NameOf(v))
  {
    assert VendorColumns[0] == VendorNameKey;
  }

  /** The listing is the sorted rows, each read back as a record. */
  lemma ListingIsSortedRows(t: Table)
    ensures |Listing(t)| == |SortByKey(t)| == |t|
    ensures forall k :: 0 <= k < |t| ==> |SortByKey(t)[k]| == |VendorColumns| && Listing(t)[k] == RowRecord(SortByKey(t)[k])
  {
    SortedRowsAreTableRows(t);
  }

  /** `getAllVendorsDb` lists the records ascending by `vendorName`. */
  lemma ListingIsSorted(t: Table)
    ensures |Listing(t)| == |t|
    ensures forall k :: 0 <= k < |Listing(t)| ==> VendorNameKey in Listing(t)[k]
    ensures forall k, l :: 0 <= k < l < |Listing(t)| ==>
      ValueLe(Listing(t)[k][VendorNameKey], Listing(t)[l][VendorNameKey])
  {
    ListingIsSortedRows(t);
    var s := SortByKey(t);
    var l := Listing(t);
    forall k | 0 <= k < |l| ensures VendorNameKey in l[k] && l[k][VendorNameKey] == KeyOf(s[k]) {
      RowRecordKey(s[k]);
    }
  }

  /** Every row of the table appears in the listing. */
  lemma ListingHasEveryRow(t: Table)
    ensures forall i :: 0 <= i < |t| ==> RowRecord(t[i]) in Listing(t)
  {
    SortedRowsAreTableRows(t);
    ListingIsSortedRows(t);
    var s := SortByKey(t);
    forall i | 0 <= i < |t| ensures RowRecord(t[i]) in Listing(t) {
      var k :| 0 <= k < |s| && s[k] == t[i];
      assert Listing(t)[k] == RowRecord(t[i]);
    }
  }

  /** Every listed record is a row of the table. */
  lemma ListingHasOnlyRows(t: Table)
    ensures forall r :: r in Listing(t) ==> exists i :: 0 <= i < |t| && r == RowRecord(t[i])
  {
    SortedRowsAreTableRows(t);
    ListingIsSortedRows(t);
    var s := SortByKey(t);
    forall r | r in Listing(t) ensures exists i :: 0 <= i < |t| && r == RowRecord(t[i]) {
      var k :| 0 <= k < |Listing(t)| && Listing(t)[k] == r;
      var i :| 0 <= i < |t| && t[i] == s[k];
      assert r == RowRecord(t[i]);
    }
  }

  /** A failed INSERT cannot happen: the existence check sends existing keys to UPDATE. */
  lemma SaveSucceeds(t: Table, v: VendorRecord)
    ensures Save(t, v).Success?
  {
    var row := BoundRow(v);
    BoundKey(v);
  }

  /** Saving an existing key rewrites that row with the bound values and leaves every other row. */
  lemma SaveUpdatesExistingRow(t: Table, v: VendorRecord, i: int)
    requires 0 <= i < |t| && KeyOf(t[i]) == Str(NameOf(v))
    ensures Save(t, v).Success?
    ensures |Save(t, v).value| == |t|
    ensures Save(t, v).value[i] == BoundRow(v)
    ensures forall j :: 0 <= j < |t| && j != i ==> Save(t, v).value[j] == t[j]
  {
    var row := BoundRow(v);
    BoundKey(v);
    assert t[i] in RowsWithKey(t, Str(NameOf(v)));
    var t' := Save(t, v).value;
    assert t' == ExecUpdate(t, row);
    assert t'[i] == [t[i][0]] + row[1..];
    assert t'[i] == row;
    forall j | 0 <= j < |t| && j != i ensures t'[j] == t[j] {
      if i < j { assert KeyOf(t[i]) != KeyOf(t[j]); } else { assert KeyOf(t[j]) != KeyOf(t[i]) || !KeyOf(t[j]).Str?; }
    }
  }

  lemma {:induction false} NoRowWithKey(t: seq<Row>, key: Value)
    requires forall i :: 0 <= i < |t| ==> KeyOf(t[i]) != key
    ensures RowsWithKey(t, key) == []
  {
    if t != [] {
      NoRowWithKey(t[1..], key);
    }
  }

  /** Saving a new key appends exactly one row, the bound values. */
  lemma SaveInsertsNewRow(t: Table, v: VendorRecord)
    requires forall i :: 0 <= i < |t| ==> KeyOf(t[i]) != Str(NameOf(v))
    ensures Save(t, v) == Success(t + [BoundRow(v)])
  {
    var row := BoundRow(v);
    BoundKey(v);
    NoRowWithKey(t, Str(NameOf(v)));
  }

  /** After a save exactly one row carries the key, and it holds the bound values. */
  lemma SaveLeavesOneRowWithKey(t: Table, v: VendorRecord)
    ensures Save(t, v).Success?
    ensures exists i :: 0 <= i < |Save(t, v).value| && Save(t, v).value[i] == BoundRow(v)
    ensures forall i :: 0 <= i < |Save(t, v).value| && KeyOf(Save(t, v).value[i]) == Str(NameOf(v)) ==>
      Save(t, v).value[i] == BoundRow(v)
  {
    var row := BoundRow(v);
    BoundKey(v);
    if i :| 0 <= i < |t| && KeyOf(t[i]) == Str(NameOf(v)) {
      SaveUpdatesExistingRow(t, v, i);
    } else {
      SaveInsertsNewRow(t, v);
      var t' := t + [row];
      assert t'[|t|] == row;
    }
  }

  /** Saving the same record twice is saving it once. */
  lemma SaveIdempotent(t: Table, v: VendorRecord)
    ensures Save(t, v).Success? && Save(Save(t, v).value, v) == Save(t, v)
  {
    SaveLeavesOneRowWithKey(t, v);
    var t' := Save(t, v).value;
    var i :| 0 <= i < |t'| && t'[i] == BoundRow(v);
    BoundKey(v);
    SaveUpdatesExistingRow(t', v, i);
    var t'' := Save(t', v).value;
    assert forall j :: 0 <= j < |t'| ==> t''[j] == t'[j];
    assert t'' == t';
  }

  /** `removeVendorDb`: every row without the key stays, in order; no row with the key remains. */
  lemma RemoveDropsOnlyKey(t: Table, name: string)
    ensures forall i :: 0 <= i < |ExecDelete(t, name)| ==> KeyOf(ExecDelete(t, name)[i]) != Str(name)
    ensures forall i :: 0 <= i < |t| && KeyOf(t[i]) != Str(name) ==> t[i] in ExecDelete(t, name)
    ensures Seqs.IsSubsequence(ExecDelete(t, name), t)
    ensures forall row :: multiset(ExecDelete(t, name))[row] ==
                          if SqlEq(KeyOf(row), Str(name)) then 0 else multiset(t)[row]
  {
    Seqs.FilterIsSubsequence(t, (row: Row) => !SqlEq(KeyOf(row), Str(name)));
    Seqs.FilterCounts(t, (row: Row) => !SqlEq(KeyOf(row), Str(name)));
  }

  /** Removing an absent key changes nothing; so removing twice is removing once. */
  lemma RemoveIdempotent(t: Table, name: string)
    ensures (forall i :: 0 <= i < |t| ==> KeyOf(t[i]) != Str(name)) ==> ExecDelete(t, name) == t
    ensures ExecDelete(ExecDelete(t, name), name) == ExecDelete(t, name)
  {
    var p := (row: Row) => !SqlEq(KeyOf(row), Str(name));
    if forall i :: 0 <= i < |t| ==> KeyOf(t[i]) != Str(name) {
      Seqs.FilterKeepsAll(t, p);
    }
    Seqs.FilterIdempotent(t, p);
  }

  /** What a saved record reads back as: exactly the stored columns, each the bound value. */
  function StoredRecord(v: VendorRecord): Record
  {
    RowRecord(BoundRow(v))
  }

  /**
   * A saved record reads back with every column holding its bound value
   * (null where the field was missing), and without the unstored fields.
   */
  lemma StoredRecordShape(v: VendorRecord)
    ensures StoredRecord(v).Keys == set c | c in VendorColumns
    ensures forall col :: col in VendorColumns ==> StoredRecord(v)[col] == BindValue(v, col)
    ensures forall col :: col in VendorColumns && col !in v ==> StoredRecord(v)[col] == Null
    ensures forall f :: f in UnstoredFields ==> f !in StoredRecord(v)
    ensures NameIs(StoredRecord(v), NameOf(v))
  {
    VendorColumnsAreLast();
    UnstoredFieldsHaveNoColumn();
    forall col | col in VendorColumns ensures StoredRecord(v)[col] == BindValue(v, col) {
      var i :| 0 <= i < |VendorColumns| && VendorColumns[i] == col;
      RowToObjectAt(VendorColumns, BoundRow(v), i);
    }
    RowRecordKey(BoundRow(v));
    BoundKey(v);
  }

  /** After saving, the listing holds the saved record once: the only record with its name. */
  lemma SavedRecordReadsBack(t: Table, v: VendorRecord)
    ensures Save(t, v).Success?
    ensures StoredRecord(v) in Listing(Save(t, v).value)
    ensures forall r :: r in Listing(Save(t, v).value) && NameIs(r, NameOf(v)) ==> r == StoredRecord(v)
  {
    SaveLeavesOneRowWithKey(t, v);
    var t' := Save(t, v).value;
    ListingHasEveryRow(t');
    ListingHasOnlyRows(t');
    var i :| 0 <= i < |t'| && t'[i] == BoundRow(v);
    assert RowRecord(t'[i]) in Listing(t');
    forall r | r in Listing(t') && NameIs(r, NameOf(v)) ensures r == StoredRecord(v) {
      var j :| 0 <= j < |t'| && r == RowRecord(t'[j]);
      RowRecordKey(t'[j]);
    }
  }

  // ---------------------------------------------------------------------
  // Module state: the memoized `dbPromise` and the snapshot in local storage

  /** What `dbPromise` holds: nothing yet, the live table, or the rethrown error. */
  datatype DbPromise = Unset | Resolved(table: Table) | Rejected(error: string)

  /**
   * The value stored under `vendorSqliteDatabase`: the image `db.export()`
   * produced, or text that `JSON.parse` rejects or that parses to something
   * `Uint8Array.from` throws on, with the thrown `Error`'s message. A missing
   * key and the empty string, which `if (storedDbRaw)` treats alike, are `None`.
   */
  datatype StoredDb = Image(table: Table) | Unreadable(reason: string)

  /** Whether `initSqlJs` could load `sql-wasm.wasm`, and the `Error` message when it could not. */
  datatype WasmLoad = Loaded | LoadFailed(reason: string)

  /** The whole module state: `dbPromise` and `localStorage[DB_STORAGE_KEY]`. */
  datatype ModuleState = ModuleState(dbPromise: DbPromise, stored: Option<StoredDb>)

  /** The lower-case fragments that mark a failure to fetch or compile `sql-wasm.wasm`. */
  const WasmFailureMarkers: seq<string> := [
    "failed to execute 'compile' on 'webassembly'",
    "http status code is not ok",
    "networkerror when attempting to fetch resource",
    "failed to fetch",
    "both async and sync fetching of the wasm failed",
    "could not load sql-wasm.wasm"
  ]

  const CriticalWasmMessage :=
    "CRITICAL DATABASE ERROR: Could not load 'sql-wasm.wasm'. "
    + "This file is essential for database operations. "
    + "Please ensure 'sql-wasm.wasm' (copied from 'node_modules/sql.js/dist/sql-wasm.wasm') "
    + "is placed in the 'public' directory of your Next.js project. "
    + "The application expects to fetch it from the URL '/sql-wasm.wasm'. "
    + "Verify the file exists at 'public/sql-wasm.wasm' and the server can access it."

  const GenericFailurePrefix := "Database initialization failed. Data might be lost or inaccessible. Error: "

  predicate IsWasmLoadFailure(errorMessage: string)
  {
    exists i :: 0 <= i < |WasmFailureMarkers| && Includes(ToLower(errorMessage), WasmFailureMarkers[i])
  }

  /** The message `initialize` rethrows for a caught `Error` with the given message. */
  function InitFailureMessage(errorMessage: string): string
  {
    if IsWasmLoadFailure(errorMessage) then CriticalWasmMessage else GenericFailurePrefix + errorMessage
  }

  /**
   * A message naming a WASM fetch or compile failure, in any letter case,
   * becomes the fixed guidance text; any other message is kept after the
   * generic prefix.
   */
  lemma InitFailureMessageClassifies(errorMessage: string, marker: int)
    requires 0 <= marker < |WasmFailureMarkers|
    ensures Includes(ToLower(errorMessage), WasmFailureMarkers[marker]) ==> InitFailureMessage(errorMessage) == CriticalWasmMessage
    ensures !IsWasmLoadFailure(errorMessage) ==>
      && InitFailureMessage(errorMessage)[..|GenericFailurePrefix|] == GenericFailurePrefix
      && InitFailureMessage(errorMessage)[|GenericFailurePrefix|..] == errorMessage
  {
  }

  /** `initialize`: what it resolves or rejects with, and what storage holds afterwards. */
  function Initialize(wasm: WasmLoad, stored: Option<StoredDb>): (r: (Result<Table, string>, Option<StoredDb>))
  {
    match wasm
    case LoadFailed(reason) => (Failure(InitFailureMessage(reason)), None)
    case Loaded =>
      match stored
      case Some(Image(t)) => (Success(t), stored)
      case Some(Unreadable(reason)) => (Failure(InitFailureMessage(reason)), None)
      case None => (Success([]), Some(Image([])))
  }

  /** `getDb`: initialize on the first call only; afterwards hand back the memoized outcome. */
  function GetDbStep(st: ModuleState, wasm: WasmLoad): ModuleState
  {
    if st.dbPromise.Unset? then
      var (outcome, stored) := Initialize(wasm, st.stored);
      ModuleState(if outcome.Success? then Resolved(outcome.value) else Rejected(outcome.error), stored)
    else st
  }

  /** Initialization failure removes the stored snapshot; success never does. */
  lemma InitFailureClearsSnapshot(wasm: WasmLoad, stored: Option<StoredDb>)
    ensures Initialize(wasm, stored).0.Failure? <==> Initialize(wasm, stored).1 == None && (wasm.LoadFailed? || stored != None)
    ensures Initialize(wasm, stored).0.Success? ==> Initialize(wasm, stored).1 == Some(Image(Initialize(wasm, stored).0.value))
    ensures Initialize(wasm, stored).0.Failure? <==> wasm.LoadFailed? || (stored.Some? && stored.value.Unreadable?)
    ensures Initialize(Loaded, None) == (Success([]), Some(Image([])))
  {
  }

  /** A stored snapshot is restored as it was persisted. */
  lemma ReloadRestoresTable(t: Table)
    ensures Initialize(Loaded, Some(Image(t))) == (Success(t), Some(Image(t)))
    ensures GetDbStep(ModuleState(Unset, Some(Image(t))), Loaded).dbPromise == Resolved(t)
  {
  }

  /** Once settled, `getDb` changes nothing and returns the same outcome, failure included. */
  lemma GetDbMemoized(st: ModuleState, wasm: WasmLoad, wasm': WasmLoad)
    ensures !GetDbStep(st, wasm).dbPromise.Unset?
    ensures GetDbStep(GetDbStep(st, wasm), wasm') == GetDbStep(st, wasm)
  {
  }

  /** The module-level state of `database.ts`. */
  class VendorDatabase {
    var dbPromise: DbPromise
    var stored: Option<StoredDb>
    /** How many times `initialize` has run. */
    ghost var initializeRuns: nat

    ghost predicate Valid()
      reads this
    {
      initializeRuns == if dbPromise.Unset? then 0 else 1
    }

    ghost function State(): ModuleState
      reads this
    {
      ModuleState(dbPromise, stored)
    }

    constructor (storedAtLoad: Option<StoredDb>)
      ensures Valid() && dbPromise == Unset && stored == storedAtLoad
    {
      dbPromise := Unset;
      stored := storedAtLoad;
      initializeRuns := 0;
    }

    /** `persistDb`: overwrite the stored snapshot with the whole table. */
    method PersistDb(t: Table)
      modifies this`stored
      ensures stored == Some(Image(t))
    {
      stored := Some(Image(t));
    }

    /** `initialize`, counted in `initializeRuns`. */
    method RunInitialize(wasm: WasmLoad) returns (r: Result<Table, string>)
      modifies this`stored, this`initializeRuns
      ensures (r, stored) == Initialize(wasm, old(stored))
      ensures initializeRuns == old(initializeRuns) + 1
    {
      initializeRuns := initializeRuns + 1;
      match wasm {
        case LoadFailed(reason) =>
          stored := None;
          r := Failure(InitFailureMessage(reason));
        case Loaded =>
          match stored {
            case Some(Image(t)) =>
              r := Success(t);
            case Some(Unreadable(reason)) =>
              stored := None;
              r := Failure(InitFailureMessage(reason));
            case None =>
              var empty: Table := [];
              PersistDb(empty);
              r := Success(empty);
          }
      }
    }

    method GetDb(wasm: WasmLoad) returns (r: Result<Table, string>)
      requires Valid()
      modifies this
      ensures Valid()
      ensures State() == GetDbStep(old(State()), wasm)
      ensures initializeRuns == 1
      ensures dbPromise.Resolved? ==> r == Success(dbPromise.table)
      ensures dbPromise.Rejected? ==> r == Failure(dbPromise.error)
    {
      if dbPromise.Unset? {
        var outcome := RunInitialize(wasm);
        dbPromise := if outcome.Success? then Resolved(outcome.value) else Rejected(outcome.error);
      }
      r := match dbPromise
        case Resolved(t) => Success(t)
        case Rejected(e) => Failure(e)
        case Unset => Failure("");
    }

    method GetAllVendors(wasm: WasmLoad) returns (r: Result<seq<Record>, string>)
      requires Valid()
      modifies this
      ensures Valid()
      ensures State() == GetDbStep(old(State()), wasm)
      ensures dbPromise.Resolved? ==> r == Success(Listing(dbPromise.table))
      ensures dbPromise.Rejected? ==> r == Failure(dbPromise.error)
    {
      var db := GetDb(wasm);
      if db.Failure? {
        return Failure(db.error);
      }
      var results := ExecSelectAll(db.value);
      SortedRowsAreTableRows(db.value);
      r := Success(ConvertResultsToObjects(results));
    }

    method SaveVendor(wasm: WasmLoad, vendorData: VendorRecord) returns (r: Result<(), string>)
      requires Valid()
      modifies this
      ensures Valid()
      ensures var mid := GetDbStep(old(State()), wasm);
        match mid.dbPromise
        case Resolved(t) =>
          (match Save(t, vendorData)
           case Success(t') => State() == ModuleState(Resolved(t'), Some(Image(t'))) && r == Success(())
           case Failure(e) => State() == mid && r == Failure(e))
        case Rejected(e) => State() == mid && r == Failure(e)
        case Unset => false
    {
      var db := GetDb(wasm);
      if db.Failure? {
        return Failure(db.error);
      }
      var t := db.value;
      var existing := RowsWithKey(t, Str(vendorData[VendorNameKey].s));
      var params := BindParams(VendorColumns, vendorData);
      var row := RowOf(params);
      assert row == BoundRow(vendorData);
      var updated: Table;
      if |existing| > 0 {
        updated := ExecUpdate(t, row);
      } else {
        var inserted := ExecInsert(t, row);
        if inserted.Failure? {
          return Failure(inserted.error);
        }
        updated := inserted.value;
      }
      dbPromise := Resolved(updated);
      PersistDb(updated);
      r := Success(());
    }

    method RemoveVendor(wasm: WasmLoad, vendorName: string) returns (r: Result<(), string>)
      requires Valid()
      modifies this
      ensures Valid()
      ensures var mid := GetDbStep(old(State()), wasm);
        match mid.dbPromise
        case Resolved(t) => State() == ModuleState(Resolved(ExecDelete(t, vendorName)), Some(Image(ExecDelete(t, vendorName)))) && r == Success(())
        case Rejected(e) => State() == mid && r == Failure(e)
        case Unset => false
    {
      var db := GetDb(wasm);
      if db.Failure? {
        return Failure(db.error);
      }
      var updated := ExecDelete(db.value, vendorName);
      dbPromise := Resolved(updated);
      PersistDb(updated);
      r := Success(());
    }
  }
}
