/**
 * The table the transform function builds from the `results` list of a
 * listings document and the nine columns it keeps (lambda_function2.py:
 * the copy loop into `f`, `pd.DataFrame(f)` and `df[selected_cols]`).
 */
module Projection {
  import opened Wrappers

  /** A field value of a listing. Numbers, text and nulls are not told apart. */
  type Cell(==)

  /** One element of `results`: a JSON object from field name to value. */
  type Record = map<string, Cell>

  /** The columns the CSV keeps, in the order it keeps them. */
  const SelectedColumns: seq<string> :=
    ["bathrooms", "bedrooms", "city", "homeStatus", "homeType",
     "livingArea", "price", "rentZestimate", "zipcode"]

  /**
   * A table as it is handed to the CSV writer: the header, and one row per
   * record holding one cell per column, `None` where the record lacks the field.
   */
  datatype Table = Table(columns: seq<string>, rows: seq<seq<Option<Cell>>>)

  /** Selecting a column the table does not have raises a KeyError naming it. */
  datatype SchemaError = MissingColumns(missing: seq<string>)

  /** Some record of `records` has the field `column`. */
  predicate Present(records: seq<Record>, column: string)
  {
    exists i :: 0 <= i < |records| && column in records[i]
  }

  /** The cell of one record under one column. */
  function Lookup(record: Record, column: string): Option<Cell>
  {
    if column in record then Some(record[column]) else None
  }

  /**
   * `for x in data['results']: f.append(x)`: the list built by the loop is the
   * results list itself, element for element and in order.
   */
  method CopyResults(results: seq<Record>) returns (f: seq<Record>)
    ensures f == results
  {
    f := [];
    for i := 0 to |results|
      invariant f == results[..i]
    {
      f := f + [results[i]];
    }
  }

  /**
   * The columns of `pd.DataFrame(f)`: every field name that occurs in some
   * record (no columns at all for an empty list). Their order is not kept,
   * since the selection below imposes its own.
   */
  function FrameColumns(records: seq<Record>): (r: set<string>)
    ensures records == [] ==> r == {}
    ensures forall i :: 0 <= i < |records| ==> records[i].Keys <= r
  {
    if records == [] then {} else records[0].Keys + FrameColumns(records[1..])
  }

  lemma {:induction false} FrameColumnsArePresentFields(records: seq<Record>, column: string)
    ensures column in FrameColumns(records) <==> Present(records, column)
  {
    if records != [] {
      FrameColumnsArePresentFields(records[1..], column);
      if Present(records[1..], column) {
        var i :| 0 <= i < |records[1..]| && column in records[1..][i];
        assert column in records[i + 1];
      }
      if Present(records, column) && column !in records[0] {
        var i :| 0 <= i < |records| && column in records[i];
        assert i != 0;
        assert column in records[1..][i - 1];
      }
    }
  }

  /** The selected columns the frame does not have, in selection order. */
  function Absent(columns: seq<string>, frame: set<string>): (r: seq<string>)
    ensures forall c :: c in r <==> c in columns && c !in frame
  {
    if columns == [] then []
    else if columns[0] in frame then Absent(columns[1..], frame)
    else [columns[0]] + Absent(columns[1..], frame)
  }

  /** Which selected columns are absent depends only on the frame's membership of those columns. */
  lemma {:induction false} AbsentAgrees(columns: seq<string>, frame1: set<string>, frame2: set<string>)
    requires forall c :: c in columns ==> (c in frame1 <==> c in frame2)
    ensures Absent(columns, frame1) == Absent(columns, frame2)
  {
    if columns != [] {
      AbsentAgrees(columns[1..], frame1, frame2);
    }
  }

  /** One table row: the record's cell under each column in turn. */
  function Row(record: Record, columns: seq<string>): (r: seq<Option<Cell>>)
    ensures |r| == |columns|
    ensures forall j :: 0 <= j < |columns| ==> r[j] == Lookup(record, columns[j])
  {
    seq(|columns|, j requires 0 <= j < |columns| => Lookup(record, columns[j]))
  }

  /**
   * `pd.DataFrame(records)[columns]`. It fails, listing the culprits, exactly
   * when some column occurs in no record; a record that merely lacks a field
   * another record has gets an empty cell there.
   */
  function Select(records: seq<Record>, columns: seq<string>): (r: Result<Table, SchemaError>)
    ensures r.Ok? <==> forall c :: c in columns ==> Present(records, c)
    ensures r.Ok? ==> r.value.columns == columns && |r.value.rows| == |records|
    ensures r.Ok? ==> forall i :: 0 <= i < |records| ==> r.value.rows[i] == Row(records[i], columns)
    ensures r.Err? ==> r.error.missing != []
    ensures r.Err? ==> forall c :: c in r.error.missing <==> c in columns && !Present(records, c)
  {
    var frame := FrameColumns(records);
    forall c ensures c in frame <==> Present(records, c) {
      FrameColumnsArePresentFields(records, c);
    }
    var missing := Absent(columns, frame);
    if missing == [] then
      Ok(Table(columns, seq(|records|, i requires 0 <= i < |records| => Row(records[i], columns))))
    else
      assert missing[0] in missing;
      Err(MissingColumns(missing))
  }

  /** `df[selected_cols]` with the nine listing columns. */
  function Project(records: seq<Record>): (r: Result<Table, SchemaError>)
    ensures r.Ok? ==> r.value.columns == SelectedColumns && |r.value.rows| == |records|
    ensures r.Ok? ==> forall i :: 0 <= i < |records| ==> r.value.rows[i] == Row(records[i], SelectedColumns)
    ensures r.Err? <==> exists c :: c in SelectedColumns && !Present(records, c)
  {
    Select(records, SelectedColumns)
  }

  /** An empty `results` list gives a frame with no columns, so the selection fails. */
  lemma ProjectEmptyFails()
    ensures Project([]) == Err(MissingColumns(SelectedColumns))
  {
    AbsentAgrees(SelectedColumns, FrameColumns([]), {});
    AbsentFromNothing(SelectedColumns);
  }

  lemma {:induction false} AbsentFromNothing(columns: seq<string>)
    ensures Absent(columns, {}) == columns
  {
    if columns != [] {
      AbsentFromNothing(columns[1..]);
    }
  }

  /**
   * When every record has every selected field, the table has one row per
   * record, in order, each holding that record's nine values.
   */
  lemma ProjectCompleteRecords(records: seq<Record>)
    requires records != []
    requires forall i :: 0 <= i < |records| ==> forall c :: c in SelectedColumns ==> c in records[i]
    ensures Project(records).Ok?
    ensures forall i, j :: 0 <= i < |records| && 0 <= j < |SelectedColumns| ==>
      Project(records).value.rows[i][j] == Some(records[i][SelectedColumns[j]])
  {
  }

  /**
   * Fields outside the selection do not matter: two lists of records that
   * agree, record by record, on the selected columns project alike.
   */
  lemma {:induction false} SelectIgnoresOtherFields(records: seq<Record>, others: seq<Record>, columns: seq<string>)
    requires |records| == |others|
    requires forall i, c :: 0 <= i < |records| && c in columns ==> Lookup(records[i], c) == Lookup(others[i], c)
    ensures Select(records, columns) == Select(others, columns)
  {
    forall c | c in columns ensures Present(records, c) <==> Present(others, c) {
      if Present(records, c) {
        var i :| 0 <= i < |records| && c in records[i];
        assert Lookup(records[i], c) == Lookup(others[i], c);
      }
      if Present(others, c) {
        var i :| 0 <= i < |others| && c in others[i];
        assert Lookup(records[i], c) == Lookup(others[i], c);
      }
    }
    forall c | c in columns ensures c in FrameColumns(records) <==> c in FrameColumns(others) {
      FrameColumnsArePresentFields(records, c);
      FrameColumnsArePresentFields(others, c);
    }
    AbsentAgrees(columns, FrameColumns(records), FrameColumns(others));
    var r1, r2 := Select(records, columns), Select(others, columns);
    if r1.Ok? {
      forall i | 0 <= i < |records| ensures r1.value.rows[i] == r2.value.rows[i] {
        forall j | 0 <= j < |columns| ensures Row(records[i], columns)[j] == Row(others[i], columns)[j] {
          assert columns[j] in columns;
        }
      }
      assert r1.value.rows == r2.value.rows;
    }
  }
}
