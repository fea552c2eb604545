/** The read entry point (SelectQuery): it walks a result cursor of unknown
    shape and renders it as a JSON-looking array of objects. */
module Materializer {
  import opened Envelope
  import opened Driver
  import opened Gate
  import opened Text
  import Executor

  /** Whether a column's values are quoted in the output. */
  datatype ColumnType = Str | NonStr

  /** The one database type name whose values are quoted. */
  const TextTypeName: string := "VARCHAR"

  /** The column kinds, in column order. */
  function Classify(typeNames: seq<string>): (kinds: seq<ColumnType>)
    ensures |kinds| == |typeNames|
    ensures forall i :: 0 <= i < |kinds| ==> (kinds[i] == Str <==> typeNames[i] == TextTypeName)
  {
    seq(|typeNames|, i requires 0 <= i < |typeNames| => if typeNames[i] == TextTypeName then Str else NonStr)
  }

  /** One column of one row: its name, its kind and its rendered value. */
  datatype Field = Field(name: string, kind: ColumnType, value: string)

  /** `"name":"value"` for a Str column, `"name":value` otherwise; nothing
      is escaped. */
  function PairText(f: Field): string
  {
    "\"" + f.name + "\":" + (if f.kind == Str then "\"" + f.value + "\"" else f.value)
  }

  function PairTexts(fs: seq<Field>): seq<string>
  {
    seq(|fs|, i requires 0 <= i < |fs| => PairText(fs[i]))
  }

  /** A row object: "{", the pairs joined by ",", "}". A row of no columns
      gives "{" alone, never closed, as the source does. */
  function ObjectText(fs: seq<Field>): string
  {
    if |fs| == 0 then "{" else "{" + Join(PairTexts(fs), ",") + "}"
  }

  function ObjectTexts(records: seq<seq<Field>>): seq<string>
  {
    seq(|records|, k requires 0 <= k < |records| => ObjectText(records[k]))
  }

  /** The whole result: "[", the row objects joined by ",", "]". */
  function ArrayText(objects: seq<string>): string
  {
    "[" + Join(objects, ",") + "]"
  }

  /** Pairs the cells of one row with the column names and kinds. */
  function Record(names: seq<string>, kinds: seq<ColumnType>, cells: seq<string>): (fs: seq<Field>)
    requires |kinds| == |names| && |cells| == |names|
  {
    seq(|names|, i requires 0 <= i < |names| => Field(names[i], kinds[i], cells[i]))
  }

  predicate AllScanned(rows: seq<Row>, width: nat)
  {
    forall k :: 0 <= k < |rows| ==> rows[k].Scanned? && |rows[k].cells| == width
  }

  /** The records of all rows, in cursor order. */
  function Records(names: seq<string>, kinds: seq<ColumnType>, rows: seq<Row>): (records: seq<seq<Field>>)
    requires |kinds| == |names| && AllScanned(rows, |names|)
  {
    seq(|rows|, k requires 0 <= k < |rows| => Record(names, kinds, rows[k].cells))
  }

  /** The message of the first row whose scan fails, if any. */
  function FirstScanFailure(rows: seq<Row>): Option<string>
  {
    if |rows| == 0 then None
    else if rows[0].ScanFailed? then Some(rows[0].msg)
    else FirstScanFailure(rows[1..])
  }

  /** What the source does with a cursor once it has one. */
  function Materialize(c: Cursor): (o: Output)
    requires WellFormed(c)
    ensures o.status == StatusAborted
        <==> c.columns.Err? || c.columnTypes.Err? || exists k :: 0 <= k < |c.rows| && c.rows[k].ScanFailed?
    ensures o.status == StatusAborted ==> o.result == ResultInternal
    ensures o.status == StatusNotFound <==> c.columns.Ok? && c.columnTypes.Ok? && c.rows == []
    ensures o.status in {StatusOk, StatusAborted, StatusNotFound}
  {
    match c.columns
    case Err(m) => Output(StatusAborted, ResultInternal, m)
    case Ok(names) =>
      match c.columnTypes
      case Err(m) => Output(StatusAborted, ResultInternal, m)
      case Ok(types) =>
        Serialize(names, Classify(types), c.rows)
  }

  /** The walk over the rows, once the columns are known: the first failing
      scan aborts; no rows is NOT FOUND; otherwise the array of the rows. */
  function Serialize(names: seq<string>, kinds: seq<ColumnType>, rows: seq<Row>): (o: Output)
    requires |kinds| == |names| && Fits(rows, |names|)
    ensures o.status == StatusAborted <==> exists k :: 0 <= k < |rows| && rows[k].ScanFailed?
    ensures o.status == StatusAborted ==> o.result == ResultInternal && FirstScanFailure(rows) == Some(o.error)
    ensures o.status == StatusNotFound <==> rows == []
    ensures o.status == StatusNotFound ==> o == Output(StatusNotFound, ResultOk, ErrorNull)
    ensures o.status in {StatusOk, StatusAborted, StatusNotFound}
  {
    match FirstScanFailure(rows)
    case Some(m) =>
      ScanFailureWitness(rows);
      Output(StatusAborted, ResultInternal, m)
    case None =>
      NoScanFailure(rows);
      if |rows| == 0 then Output(StatusNotFound, ResultOk, ErrorNull)
      else Output(StatusOk, ArrayText(ObjectTexts(Records(names, kinds, rows))), ErrorNull)
  }

  /** The whole select call: admission, opening a handle, running the query
      (`result` is the query's cursor or its error), materializing. */
  function Select(meta: Option<seq<string>>, query: string, secret: string, open: Step, result: Attempt<Cursor>): (o: Output)
    requires result.Ok? ==> WellFormed(result.value)
    ensures o.status in {StatusOk, StatusAborted, StatusUnauthorized, StatusNotFound}
    ensures o.status == StatusUnauthorized <==> WellFormedCall(meta, query) && meta.value[0] != secret
    ensures o.status == StatusOk || o.status == StatusNotFound
        ==> WellFormedCall(meta, query) && meta.value[0] == secret && open.Succeeded? && result.Ok?
    ensures o.status == StatusAborted && o.result == ResultBadDbConnection
        <==> WellFormedCall(meta, query) && meta.value[0] == secret && open.Failed?
    ensures o.status == StatusAborted && o.result == ResultQueryError
        <==> WellFormedCall(meta, query) && meta.value[0] == secret && open.Succeeded? && result.Err?
  {
    var v := Validation(meta, query, secret);
    if Rejected(v) then Output(v.status, v.result, ErrorNull)
    else if open.Failed? then Output(StatusAborted, ResultBadDbConnection, open.msg)
    else match result
      case Err(m) => Output(StatusAborted, ResultQueryError, m)
      case Ok(c) => Materialize(c)
  }

  // ---------------------------------------------------------------------
  // Facts about the scan of the rows

  /** The first failing scan is the first ScanFailed row. */
  lemma {:induction false} FirstScanFailureAt(rows: seq<Row>, k: nat)
    requires k < |rows| && rows[k].ScanFailed?
    requires forall j :: 0 <= j < k ==> rows[j].Scanned?
    ensures FirstScanFailure(rows) == Some(rows[k].msg)
  {
    if k > 0 {
      FirstScanFailureAt(rows[1..], k - 1);
    }
  }

  /** A failing scan is a ScanFailed row. */
  lemma {:induction false} ScanFailureWitness(rows: seq<Row>)
    requires FirstScanFailure(rows).Some?
    ensures exists k :: 0 <= k < |rows| && rows[k].ScanFailed?
  {
    if rows[0].Scanned? {
      ScanFailureWitness(rows[1..]);
      var k :| 0 <= k < |rows[1..]| && rows[1..][k].ScanFailed?;
      assert rows[k + 1].ScanFailed?;
    }
  }

  /** No failing scan means every row scanned. */
  lemma {:induction false} NoScanFailure(rows: seq<Row>)
    requires FirstScanFailure(rows).None?
    ensures forall k :: 0 <= k < |rows| ==> rows[k].Scanned?
  {
    if |rows| > 0 {
      NoScanFailure(rows[1..]);
      assert forall k :: 1 <= k < |rows| ==> rows[k] == rows[1..][k - 1];
    }
  }

  /** Rows that all scan have no failing scan. */
  lemma {:induction false} AllScannedNoFailure(rows: seq<Row>, width: nat)
    requires AllScanned(rows, width)
    ensures FirstScanFailure(rows) == None
  {
    if |rows| > 0 {
      assert AllScanned(rows[1..], width) by {
        assert forall k :: 0 <= k < |rows| - 1 ==> rows[1..][k] == rows[k + 1];
      }
      AllScannedNoFailure(rows[1..], width);
    }
  }

  /** The objects of one more row. */
  lemma ObjectTextsSnoc(names: seq<string>, kinds: seq<ColumnType>, rows: seq<Row>, k: nat)
    requires |kinds| == |names| && k < |rows| && AllScanned(rows[..k + 1], |names|)
    ensures AllScanned(rows[..k], |names|) && rows[k].Scanned? && |rows[k].cells| == |names|
    ensures ObjectTexts(Records(names, kinds, rows[..k + 1]))
         == ObjectTexts(Records(names, kinds, rows[..k])) + [ObjectText(Record(names, kinds, rows[k].cells))]
  {
    assert rows[..k + 1][k] == rows[k];
    assert forall j :: 0 <= j < k ==> rows[..k + 1][j] == rows[..k][j];
  }

  // ---------------------------------------------------------------------
  // What a select call answers

  /** A cursor without rows is NOT FOUND with result OK, not an empty array. */
  lemma ZeroRowsNotFound(names: seq<string>, types: seq<string>)
    requires |types| == |names|
    ensures Materialize(Cursor(Ok(names), Ok(types), [])) == Output(StatusNotFound, ResultOk, ErrorNull)
  {
  }

  /** NOT FOUND is answered exactly when the call got through to a cursor
      with readable columns and no rows. */
  lemma NotFoundExactly(meta: Option<seq<string>>, query: string, secret: string, open: Step, result: Attempt<Cursor>)
    requires result.Ok? ==> WellFormed(result.value)
    ensures Select(meta, query, secret, open, result).status == StatusNotFound
        <==> && !Rejected(Validation(meta, query, secret)) && open.Succeeded? && result.Ok?
             && result.value.columns.Ok? && result.value.columnTypes.Ok? && result.value.rows == []
  {
  }

  /** Rows that all scan give status OK and the array of their objects, in
      cursor order. */
  lemma RowsGiveArray(names: seq<string>, types: seq<string>, rows: seq<Row>)
    requires |types| == |names| && |rows| > 0 && AllScanned(rows, |names|)
    ensures Materialize(Cursor(Ok(names), Ok(types), rows))
         == Output(StatusOk, ArrayText(ObjectTexts(Records(names, Classify(types), rows))), ErrorNull)
  {
    AllScannedNoFailure(rows, |names|);
  }

  /** A failing scan at row k aborts the call with its message; the rows
      read before it are discarded and the rows after it never read. */
  lemma ScanFailureDiscardsRows(names: seq<string>, types: seq<string>, rows: seq<Row>, k: nat)
    requires WellFormed(Cursor(Ok(names), Ok(types), rows))
    requires k < |rows| && rows[k].ScanFailed?
    requires forall j :: 0 <= j < k ==> rows[j].Scanned?
    ensures Materialize(Cursor(Ok(names), Ok(types), rows)) == Output(StatusAborted, ResultInternal, rows[k].msg)
  {
    FirstScanFailureAt(rows, k);
  }

  /** Failing to read the column names or types aborts as an internal error. */
  lemma MetadataFailureIsInternal(c: Cursor)
    requires WellFormed(c) && (c.columns.Err? || c.columnTypes.Err?)
    ensures Materialize(c).status == StatusAborted && Materialize(c).result == ResultInternal
    ensures Materialize(c).error == if c.columns.Err? then c.columns.msg else c.columnTypes.msg
  {
  }

  /** The select entry point admits, connects and reports a failing query
      exactly as the write entry points do. */
  lemma SelectAgreesWithWrites(meta: Option<seq<string>>, query: string, secret: string, open: Step, result: Attempt<Cursor>, exec: Step)
    requires result.Ok? ==> WellFormed(result.value)
    ensures Rejected(Validation(meta, query, secret)) || open.Failed?
        ==> Select(meta, query, secret, open, result) == Executor.RawQuery(meta, query, secret, open, exec)
    ensures open.Succeeded? && result.Err?
        ==> Select(meta, query, secret, open, result) == Executor.RawQuery(meta, query, secret, open, Failed(result.msg))
  {
  }

  // ---------------------------------------------------------------------
  // The imperative rendering, proved against the functions above

  /** The classification loop: one kind per column type, in order. */
  method ClassifyColumns(colTypes: seq<string>) returns (columnsType: seq<ColumnType>)
    ensures columnsType == Classify(colTypes)
  {
    columnsType := [];
    var i := 0;
    while i < |colTypes|
      invariant 0 <= i <= |colTypes|
      invariant columnsType == Classify(colTypes)[..i]
    {
      if colTypes[i] == TextTypeName {
        columnsType := columnsType + [Str];
      } else {
        columnsType := columnsType + [NonStr];
      }
      i := i + 1;
    }
  }

  /** The inner loop: one row object, built pair by pair; the last pair
      closes the object with "}", every other one is followed by ",". */
  method RenderRow(columns: seq<string>, columnsType: seq<ColumnType>, values: seq<string>) returns (column: string)
    requires |columnsType| == |columns| && |values| == |columns|
    ensures column == ObjectText(Record(columns, columnsType, values))
  {
    ghost var fields := Record(columns, columnsType, values);
    ghost var pairs := PairTexts(fields);
    column := "{";
    var i := 0;
    while i < |values|
      invariant 0 <= i <= |values|
      invariant i < |values| ==> column == "{" + Terminated(pairs[..i], ",")
      invariant i == |values| > 0 ==> column == "{" + Join(pairs, ",") + "}"
      invariant |values| == 0 ==> column == "{"
    {
      var pair := PairText(Field(columns[i], columnsType[i], values[i]));
      assert pair == pairs[i];
      if i + 1 == |values| {
        assert pairs[..i] == pairs[..|pairs| - 1];
        AppendLastPart("{", pairs, "}", ",");
        column := column + pair + "}";
      } else {
        assert pairs[..i + 1] == pairs[..i] + [pair];
        AppendPart("{", pairs[..i], pair, ",");
        column := column + pair + ",";
      }
      i := i + 1;
    }
  }

  /** The select entry point, with the driver's outcomes given as inputs. */
  method SelectQuery(meta: Option<seq<string>>, query: string, secret: string, open: Step, result: Attempt<Cursor>)
    returns (o: Output)
    requires result.Ok? ==> WellFormed(result.value)
    ensures o == Select(meta, query, secret, open, result)
  {
    var v := Validation(meta, query, secret);
    if Rejected(v) {
      return Output(v.status, v.result, ErrorNull);
    }
    if open.Failed? {
      return Output(StatusAborted, ResultBadDbConnection, open.msg);
    }
    if result.Err? {
      return Output(StatusAborted, ResultQueryError, result.msg);
    }
    o := ReadCursor(result.value);
  }

  /** The part of the select entry point after the query ran: reading the
      columns and walking the cursor. */
  method ReadCursor(rows: Cursor) returns (o: Output)
    requires WellFormed(rows)
    ensures o == Materialize(rows)
  {
    if rows.columns.Err? {
      return Output(StatusAborted, ResultInternal, rows.columns.msg);
    }
    var columns := rows.columns.value;
    if rows.columnTypes.Err? {
      return Output(StatusAborted, ResultInternal, rows.columnTypes.msg);
    }
    var columnsType := ClassifyColumns(rows.columnTypes.value);
    o := WalkRows(columns, columnsType, rows.rows);
  }

  /** The cursor loop: every row that scans is rendered and appended to the
      response followed by ","; the last "," is trimmed at the end. */
  method WalkRows(columns: seq<string>, columnsType: seq<ColumnType>, rows: seq<Row>) returns (o: Output)
    requires |columnsType| == |columns| && Fits(rows, |columns|)
    ensures o == Serialize(columns, columnsType, rows)
  {
    var emptyResponse := true;
    var jsonResponse := "[";
    ghost var objects: seq<string> := [];
    var k := 0;
    while k < |rows|
      invariant 0 <= k <= |rows|
      invariant AllScanned(rows[..k], |columns|)
      invariant objects == ObjectTexts(Records(columns, columnsType, rows[..k]))
      invariant jsonResponse == "[" + Terminated(objects, ",")
      invariant emptyResponse == (k == 0)
    {
      match rows[k]
      case ScanFailed(m) =>
        FirstScanFailureAt(rows, k);
        return Output(StatusAborted, ResultInternal, m);
      case Scanned(values) =>
        var column := RenderRow(columns, columnsType, values);
        ObjectTextsSnoc(columns, columnsType, rows, k);
        AppendPart("[", objects, column, ",");
        jsonResponse := jsonResponse + column + ",";
        emptyResponse := false;
        objects := objects + [column];
      k := k + 1;
    }
    assert rows[..k] == rows;
    AllScannedNoFailure(rows, |columns|);
    if emptyResponse {
      o := Output(StatusNotFound, ResultOk, ErrorNull);
    } else {
      TrimSeparator("[", objects, ",");
      jsonResponse := jsonResponse[..|jsonResponse| - 1] + "]";
      o := Output(StatusOk, jsonResponse, ErrorNull);
    }
  }

  // ---------------------------------------------------------------------
  // The select handler as written: `defer db.Close()` before the open error

  /** The select flow as the source has it: as in the write handlers, a
      failed open leaves a nil handle whose deferred Close panics, so the
      call gets no envelope. */
  function SelectAsWritten(meta: Option<seq<string>>, query: string, secret: string, open: Step, result: Attempt<Cursor>): (r: Executor.Reply)
    requires result.Ok? ==> WellFormed(result.value)
    ensures r.Panicked? <==> WellFormedCall(meta, query) && meta.value[0] == secret && open.Failed?
    ensures r.Replied? ==> r.output == Select(meta, query, secret, open, result)
  {
    if !Rejected(Validation(meta, query, secret)) && open.Failed? then Executor.Panicked
    else Executor.Replied(Select(meta, query, secret, open, result))
  }

  /** One input that shows it: an admitted select whose connection string
      the driver refuses gets no response as written, where the intended
      flow answers BAD DATABSE CONNECTION with the driver's message. */
  lemma SelectOpenFailureNeverAnswers(result: Attempt<Cursor>)
    requires result.Ok? ==> WellFormed(result.value)
    ensures var meta, secret, msg := Some(["k3y"]), "k3y", "invalid DSN: missing the slash separating the database name";
      && SelectAsWritten(meta, "SELECT 1", secret, Failed(msg), result) == Executor.Panicked
      && Select(meta, "SELECT 1", secret, Failed(msg), result) == Output(StatusAborted, ResultBadDbConnection, msg)
  {
  }
}
