/**
 * The vendors table's schema in `src/lib/database.ts`: the single column
 * list, the `CREATE TABLE` text built from it, the named parameters bound
 * for every column, and the columns an `UPDATE` sets.
 */
module Schema {
  import opened Records
  import Seqs

  /** `VENDOR_COLUMNS`, in declaration order. */
  const VendorColumns: seq<string> := [
    "vendorName",
    "tenderNumber",
    "tenderTitle",
    "dateOfFinancialEvaluation",
    "evaluationValidityDate",
    "evaluatorNameDepartment",
    "overallResult",
    "quantitativeScore",
    "quantitativeBand",
    "quantitativeRiskCategory",
    "altmanZScore",
    "altmanZBand",
    "altmanZRiskCategory",
    "qualitativeScore",
    "qualitativeBand",
    "qualitativeRiskCategory",
    "overallFinancialEvaluationResult"
  ]

  /** Fields of `VendorInputFields` that the column list leaves out. */
  const UnstoredFields: seq<string> := ["vendorIndustry", "companySize", "keyInformation"]

  const PrimaryKeySuffix := " PRIMARY KEY"

  /** One entry of the column-definition list: `<col> TEXT[ PRIMARY KEY]`. */
  function ColumnDefinition(col: string): string
  {
    col + " TEXT" + (if col == VendorNameKey then PrimaryKeySuffix else "")
  }

  /** `parts.join(sep)`. */
  function Join(parts: seq<string>, sep: string): string
  {
    if |parts| == 0 then ""
    else if |parts| == 1 then parts[0]
    else parts[0] + sep + Join(parts[1..], sep)
  }

  /** `VENDOR_COLUMNS.map(...)`: one definition per column, in column order. */
  function ColumnDefinitions(): seq<string>
  {
    seq(|VendorColumns|, i requires 0 <= i < |VendorColumns| => ColumnDefinition(VendorColumns[i]))
  }

  const CreateTablePrefix := "CREATE TABLE IF NOT EXISTS vendors ("

  /** The DDL that `initialize` runs on a fresh database. */
  function CreateTableStatement(): string
  {
    CreateTablePrefix + Join(ColumnDefinitions(), ", ") + ");"
  }

  /** The named parameter bound for a column: `$<col>`. */
  function ParamName(col: string): string
  {
    "$" + col
  }

  /** The columns the `UPDATE` statement sets: every column but the key. */
  function UpdatedColumns(): seq<string>
  {
    Seqs.Filter(VendorColumns, col => col != VendorNameKey)
  }

  predicate EndsWith(s: string, suffix: string)
  {
    |suffix| <= |s| && s[|s| - |suffix|..] == suffix
  }

  /** Seventeen distinct column names, `vendorName` first. */
  lemma ColumnsAreDistinct()
    ensures |VendorColumns| == 17 && VendorColumns[0] == VendorNameKey
    ensures forall i, j :: 0 <= i < j < |VendorColumns| ==> VendorColumns[i] != VendorColumns[j]
  {
  }

  /** `vendorIndustry`, `companySize` and `keyInformation` have no column. */
  lemma UnstoredFieldsHaveNoColumn()
    ensures forall f :: f in UnstoredFields ==> f !in VendorColumns
  {
  }

  /** Exactly the first column definition declares `PRIMARY KEY`. */
  lemma OnlyKeyIsPrimary()
    ensures forall i :: 0 <= i < |VendorColumns| ==>
      (EndsWith(ColumnDefinition(VendorColumns[i]), PrimaryKeySuffix) <==> i == 0)
  {
    ColumnsAreDistinct();
    forall i | 0 <= i < |VendorColumns|
      ensures EndsWith(ColumnDefinition(VendorColumns[i]), PrimaryKeySuffix) <==> i == 0
    {
      var d := ColumnDefinition(VendorColumns[i]);
      if i != 0 {
        assert d == VendorColumns[i] + " TEXT";
        assert d[|d| - 1] == 'T';
      } else {
        assert d == VendorNameKey + " TEXT" + PrimaryKeySuffix;
        assert d[|d| - |PrimaryKeySuffix|..] == PrimaryKeySuffix;
      }
    }
  }

  /** The set clauses cover every column after the key, in order. */
  lemma UpdatedColumnsAreNonKey()
    ensures UpdatedColumns() == VendorColumns[1..]
  {
    assert VendorNameKey !in VendorColumns[1..];
    DropKeyColumn(VendorColumns, VendorNameKey);
  }

  /** Dropping a key that occurs only at the head leaves the tail. */
  lemma DropKeyColumn(cols: seq<string>, key: string)
    requires |cols| > 0 && cols[0] == key && key !in cols[1..]
    ensures Seqs.Filter(cols, col => col != key) == cols[1..]
  {
    var rest := cols[1..];
    Seqs.FilterKeepsAll(rest, col => col != key);
    assert cols == [cols[0]] + rest;
  }

  /** Every part of a join occurs in the joined text. */
  lemma {:induction false} JoinContainsPart(parts: seq<string>, sep: string, i: int)
    requires 0 <= i < |parts|
    ensures exists p :: OccursAt(Join(parts, sep), parts[i], p)
  {
    var j := Join(parts, sep);
    if i == 0 {
      assert OccursAt(j, parts[0], 0);
    } else {
      JoinContainsPart(parts[1..], sep, i - 1);
      var p :| OccursAt(Join(parts[1..], sep), parts[1..][i - 1], p);
      var q := |parts[0] + sep| + p;
      assert j == (parts[0] + sep) + Join(parts[1..], sep);
      assert j[q..q + |parts[i]|] == Join(parts[1..], sep)[p..p + |parts[i]|];
      assert OccursAt(j, parts[i], q);
    }
  }

  /** A join of two or more parts starts with the first part and the separator. */
  lemma JoinStartsWithFirst(parts: seq<string>, sep: string)
    requires |parts| >= 2
    ensures StartsWith(Join(parts, sep), parts[0] + sep)
  {
    assert Join(parts, sep) == (parts[0] + sep) + Join(parts[1..], sep);
  }

  /** Text wrapped around a join contains every part, and starts with the prefix, the first part and the separator. */
  lemma WrappedJoin(prefix: string, parts: seq<string>, sep: string, suffix: string)
    requires |parts| >= 2
    ensures StartsWith(prefix + Join(parts, sep) + suffix, prefix + parts[0] + sep)
    ensures EndsWith(prefix + Join(parts, sep) + suffix, suffix)
    ensures forall i :: 0 <= i < |parts| ==> Includes(prefix + Join(parts, sep) + suffix, parts[i])
  {
    var body := Join(parts, sep);
    var stmt := prefix + body + suffix;
    JoinStartsWithFirst(parts, sep);
    assert stmt[..|prefix + parts[0] + sep|] == prefix + body[..|parts[0] + sep|];
    assert stmt[|stmt| - |suffix|..] == suffix;
    forall i | 0 <= i < |parts|
      ensures Includes(stmt, parts[i])
    {
      JoinContainsPart(parts, sep, i);
      var p :| OccursAt(body, parts[i], p);
      var q := |prefix| + p;
      assert stmt[q..q + |parts[i]|] == body[p..p + |parts[i]|];
      assert OccursAt(stmt, parts[i], q);
      IncludesIffOccurs(stmt, parts[i]);
    }
  }

  /**
   * The `CREATE TABLE` text opens with the key's definition, closes the
   * column list, and contains the definition of every column.
   */
  lemma CreateTableDefinesEveryColumn()
    ensures StartsWith(CreateTableStatement(), CreateTablePrefix + "vendorName TEXT PRIMARY KEY" + ", ")
    ensures EndsWith(CreateTableStatement(), ");")
    ensures forall i :: 0 <= i < |VendorColumns| ==>
      Includes(CreateTableStatement(), ColumnDefinition(VendorColumns[i]))
  {
    var defs := ColumnDefinitions();
    assert |defs| == 17;
    assert defs[0] == ColumnDefinition(VendorNameKey);
    assert ColumnDefinition(VendorNameKey) == "vendorName TEXT PRIMARY KEY";
    WrappedJoin(CreateTablePrefix, defs, ", ", ");");
    var stmt := CreateTablePrefix + Join(defs, ", ") + ");";
    assert CreateTableStatement() == stmt;
    forall i | 0 <= i < |VendorColumns|
      ensures Includes(stmt, ColumnDefinition(VendorColumns[i]))
    {
      assert defs[i] == ColumnDefinition(VendorColumns[i]);
    }
  }

  /** Distinct columns get distinct parameter names. */
  lemma ParamNameInjective(a: string, b: string)
    ensures ParamName(a) == ParamName(b) ==> a == b
  {
    if ParamName(a) == ParamName(b) {
      assert a == ParamName(a)[1..];
    }
  }
}
