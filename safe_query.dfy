/**
 * Best-effort query execution and schema introspection (utils/safeQuery.js).
 * The driver's answer to a statement (`db.execute`) is an input; DESCRIBE
 * answers with one row per column.
 */
module SafeQuery {
  import opened Common

  /** One row of `DESCRIBE <table>`; only `Field`, the column name, is read. */
  datatype ColumnRow = ColumnRow(Field: string)

  /** What `checkTableColumns` reports about a table. */
  datatype TableInfo = TableInfo(tableExists: bool, columns: seq<string>, hasAllColumns: bool, missingColumns: seq<string>)

  /** `safeQuery`: the rows on success, the empty list on any failure; the error never escapes. */
  function Run<T>(result: DbResult<seq<T>>): (rows: seq<T>)
    ensures result.Ok? ==> rows == result.value
    ensures result.Err? ==> rows == []
  {
    match result
    case Ok(rs) => rs
    case Err(_, _) => []
  }

  /** `columns.map(col => col.Field)`. */
  function FieldNames(described: seq<ColumnRow>): (names: seq<string>)
    ensures |names| == |described|
    ensures forall k :: 0 <= k < |described| ==> names[k] == described[k].Field
  {
    if described == [] then [] else [described[0].Field] + FieldNames(described[1..])
  }

  /** `requiredColumns.filter(col => !existingColumns.includes(col))`. */
  function Missing(required: seq<string>, existing: seq<string>): (missing: seq<string>)
  {
    if required == [] then []
    else (if required[0] in existing then [] else [required[0]]) + Missing(required[1..], existing)
  }

  /** A name is missing exactly when it is required and not present. */
  lemma {:induction false} MissingMembers(required: seq<string>, existing: seq<string>)
    ensures forall c :: c in Missing(required, existing) <==> c in required && c !in existing
  {
    if required != [] {
      MissingMembers(required[1..], existing);
      assert required == [required[0]] + required[1..];
    }
  }

  /** The missing names keep the order of the required list: missing is a subsequence of required. */
  lemma {:induction false} MissingIsSubsequence(required: seq<string>, existing: seq<string>)
    ensures Subsequence(Missing(required, existing), required)
  {
    if required != [] {
      MissingIsSubsequence(required[1..], existing);
      var m := Missing(required[1..], existing);
      if required[0] !in existing {
        assert Missing(required, existing) == [required[0]] + m;
      } else {
        assert Missing(required, existing) == m;
        SubsequenceCons(m, required[1..], required[0]);
      }
    }
  }

  /** `a` is obtained from `b` by deleting elements, keeping order. */
  ghost predicate Subsequence<T>(a: seq<T>, b: seq<T>)
    decreases |b|
  {
    a == [] || (b != [] && ((a[0] == b[0] && Subsequence(a[1..], b[1..])) || Subsequence(a, b[1..])))
  }

  lemma SubsequenceCons<T>(a: seq<T>, b: seq<T>, x: T)
    requires Subsequence(a, b)
    ensures Subsequence(a, [x] + b)
  {
    assert ([x] + b)[1..] == b;
  }

  /**
   * `checkTableColumns`: on a successful DESCRIBE the table exists, its
   * columns are the described names in order, and `hasAllColumns` is the
   * `every` test; on failure the table is reported absent with every
   * required column missing.
   */
  function CheckTableColumns(describe: DbResult<seq<ColumnRow>>, required: seq<string>): (info: TableInfo)
    ensures describe.Ok? ==> info.tableExists && info.columns == FieldNames(describe.value)
    ensures describe.Ok? ==> (info.hasAllColumns <==> forall c :: c in required ==> c in info.columns)
    ensures describe.Ok? ==> info.missingColumns == Missing(required, info.columns)
    ensures describe.Err? ==> info == TableInfo(false, [], false, required)
  {
    match describe
    case Ok(rows) =>
      var existing := FieldNames(rows);
      TableInfo(true, existing, forall c :: c in required ==> c in existing, Missing(required, existing))
    case Err(_, _) => TableInfo(false, [], false, required)
  }

  /** On a successful DESCRIBE, `hasAllColumns` holds exactly when nothing is missing. */
  lemma HasAllIffNoneMissing(describe: DbResult<seq<ColumnRow>>, required: seq<string>)
    requires describe.Ok?
    ensures CheckTableColumns(describe, required).hasAllColumns <==> CheckTableColumns(describe, required).missingColumns == []
  {
    var info := CheckTableColumns(describe, required);
    MissingMembers(required, info.columns);
    if info.missingColumns != [] {
      assert info.missingColumns[0] in info.missingColumns;
    }
  }

  /** Nothing required means nothing missing, whatever the table holds. */
  lemma EmptyRequirementHolds(describe: DbResult<seq<ColumnRow>>)
    requires describe.Ok?
    ensures CheckTableColumns(describe, []).hasAllColumns
    ensures CheckTableColumns(describe, []).missingColumns == []
  {
  }

  /** The timestamp columns `getBestTimestampColumn` looks for, best first. */
  const TimestampPriority: seq<string> := ["created_at", "updated_at", "submit_time", "added_at"]

  /** The fallback when no timestamp column exists: a SQL expression, not a column. */
  const NowFallback: string := "NOW()"

  /**
   * `getBestTimestampColumn`: the first name of the priority list that the
   * table has, or `NOW()` when it has none of them (a failed DESCRIBE
   * reports no columns, so a missing table gives `NOW()` too).
   */
  method BestTimestampColumn(describe: DbResult<seq<ColumnRow>>) returns (col: string)
    ensures col in TimestampPriority || col == NowFallback
    ensures describe.Err? ==> col == NowFallback
    ensures col != NowFallback ==> col in CheckTableColumns(describe, TimestampPriority).columns
    ensures forall k :: 0 <= k < |TimestampPriority| && TimestampPriority[k] in CheckTableColumns(describe, TimestampPriority).columns
              ==> col != NowFallback && exists j :: 0 <= j <= k && col == TimestampPriority[j]
    ensures forall j :: 0 <= j < |TimestampPriority| && col == TimestampPriority[j]
              ==> forall i :: 0 <= i < j ==> TimestampPriority[i] !in CheckTableColumns(describe, TimestampPriority).columns
  {
    var tableInfo := CheckTableColumns(describe, TimestampPriority);
    var priority := TimestampPriority;
    for i := 0 to |priority|
      invariant forall k :: 0 <= k < i ==> priority[k] !in tableInfo.columns
    {
      if priority[i] in tableInfo.columns {
        return priority[i];
      }
    }
    return NowFallback;
  }
}
