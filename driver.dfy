/** What the model takes from the outside world: the call metadata, and the
    outcomes of the database driver's calls, given as values. */
module Driver {

  datatype Option<T> = None | Some(value: T)

  /** Outcome of a driver call that yields nothing the service uses
      (opening the handle, executing a statement). */
  datatype Step = Succeeded | Failed(msg: string)

  /** Outcome of a driver call that yields a value or an error message. */
  datatype Attempt<T> = Ok(value: T) | Err(msg: string)

  /** One advance of the cursor: the row's cells, already rendered as text,
      or the error its scan reported. */
  datatype Row = Scanned(cells: seq<string>) | ScanFailed(msg: string)

  /** The rows object of a query: its column names, its column type names and
      the rows the cursor yields, in cursor order. */
  datatype Cursor = Cursor(columns: Attempt<seq<string>>, columnTypes: Attempt<seq<string>>, rows: seq<Row>)

  /** Every row that scans has `width` cells. */
  predicate Fits(rows: seq<Row>, width: nat)
  {
    forall k :: 0 <= k < |rows| && rows[k].Scanned? ==> |rows[k].cells| == width
  }

  /** What the driver guarantees about a cursor: one type per column, and one
      cell per column in every row that scans. */
  predicate WellFormed(c: Cursor)
  {
    c.columns.Ok? && c.columnTypes.Ok? ==>
      |c.columnTypes.value| == |c.columns.value| && Fits(c.rows, |c.columns.value|)
  }
}
