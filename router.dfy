/** The read path shared by both providers: choosing the column header of the result
    (`resolveProjection`) and emitting the result rows into a `MatrixCursor`-like
    table. A row is what the cursor's row builder leaves behind: one cell per header
    column, holding the value added under that column's name, or null when the row
    never added one; a value added under a name the header lacks is dropped. */
module Router {
  import opened Wrappers
  import opened WeatherData

  /** One cell of a result row. `Unset` is what the snapshot reports for an optional
      field that was never set. */
  datatype Cell = Null | Unset | Val(v: Value)

  type Row = seq<Cell>

  /** The values one row adds, by column name. */
  type Fill = map<Column, Cell>

  /** A cursor: its header and its rows, in order. */
  datatype Table = Table(header: seq<Column>, rows: seq<Row>)

  /** A provider's three default projections. */
  datatype Defaults = Defaults(current: seq<Column>, forecast: seq<Column>, combined: seq<Column>)

  /** An explicit projection is used verbatim; a null one is replaced by the default
      for the URI type, and every type other than current or forecast (no match
      included) falls into the combined default. */
  function ResolveProjection(projection: Option<seq<Column>>, uriType: UriType, defaults: Defaults)
    : (header: seq<Column>)
    ensures projection.Some? ==> header == projection.value
    ensures projection.None? && uriType == Current ==> header == defaults.current
    ensures projection.None? && uriType == Forecast ==> header == defaults.forecast
    ensures projection.None? && uriType != Current && uriType != Forecast ==> header == defaults.combined
  {
    if projection.Some? then projection.value
    else match uriType
      case Current => defaults.current
      case Forecast => defaults.forecast
      case _ => defaults.combined
  }

  /** The cell for an optional number: its value, or `Unset` when it was never set. */
  function OptionalCell(x: Option<Double>): (c: Cell)
    ensures c == Unset <==> x.None?
    ensures x.Some? ==> c == Val(Decimal(x.value))
  {
    if x.Some? then Val(Decimal(x.value)) else Unset
  }

  /** The cell for a string that may be null. */
  function TextCell(s: Option<string>): (c: Cell)
    ensures c == Null <==> s.None?
    ensures s.Some? ==> c == Val(Text(s.value))
  {
    if s.Some? then Val(Text(s.value)) else Null
  }

  /** The row a cursor with `header` holds after one `newRow()` with the adds in `fill`. */
  function RowOf(header: seq<Column>, fill: Fill): (row: Row)
    ensures |row| == |header|
  {
    seq(|header|, i requires 0 <= i < |header| => if header[i] in fill then fill[header[i]] else Null)
  }

  /** A row has exactly the header's columns, in the header's order: each column holds
      the value added under its name, or null when none was added. */
  lemma RowCells(header: seq<Column>, fill: Fill, j: nat)
    requires j < |header|
    ensures header[j] in fill ==> RowOf(header, fill)[j] == fill[header[j]]
    ensures header[j] !in fill ==> RowOf(header, fill)[j] == Null
  {
  }

  /** Values added under columns the header does not list leave no trace. */
  lemma RowDropsUnlisted(header: seq<Column>, fill: Fill, fill': Fill)
    requires forall c :: c in header ==> (c in fill <==> c in fill') && (c in fill ==> fill[c] == fill'[c])
    ensures RowOf(header, fill) == RowOf(header, fill')
  {
    forall j | 0 <= j < |header| ensures RowOf(header, fill)[j] == RowOf(header, fill')[j] {
      assert header[j] in header;
    }
  }

  /** One row per forecast day, in stored order. */
  function DayRows(header: seq<Column>, days: seq<Fill>): (rows: seq<Row>)
    ensures |rows| == |days|
  {
    seq(|days|, i requires 0 <= i < |days| => RowOf(header, days[i]))
  }

  /** The rows a query emits from a cached snapshot whose current row adds `current`
      and whose forecast days add `days`. */
  function Rendered(header: seq<Column>, uriType: UriType, current: Fill, days: seq<Fill>): seq<Row>
  {
    (if uriType != Forecast then [RowOf(header, current)] else [])
    + (if uriType != Current then DayRows(header, days) else [])
  }

  /** How many rows a query emits for a snapshot with `n` forecast days. */
  function RowCount(uriType: UriType, n: nat): nat
  {
    match uriType
    case Current => 1
    case Forecast => n
    case _ => 1 + n
  }

  /** The current row is emitted iff the type is not forecast, and comes first; the
      forecast rows are emitted iff the type is not current, day i's row right after
      the current row, if any. */
  lemma RenderedShape(header: seq<Column>, uriType: UriType, current: Fill, days: seq<Fill>)
    ensures var rows := Rendered(header, uriType, current, days);
      && |rows| == RowCount(uriType, |days|)
      && (uriType != Forecast ==> rows[0] == RowOf(header, current))
      && (uriType == Current ==> rows == [RowOf(header, current)])
      && (uriType == Forecast ==> forall i :: 0 <= i < |days| ==> rows[i] == RowOf(header, days[i]))
      && (uriType != Current && uriType != Forecast ==>
            forall i :: 0 <= i < |days| ==> rows[1 + i] == RowOf(header, days[i]))
  {
  }

  /** The row-emitting part of `query`: the current row unless the type is forecast,
      then, unless the type is current, one row per forecast day in a loop. */
  method EmitRows(header: seq<Column>, uriType: UriType, current: Fill, days: seq<Fill>)
    returns (rows: seq<Row>)
    ensures rows == Rendered(header, uriType, current, days)
    ensures |rows| == RowCount(uriType, |days|)
    ensures uriType != Forecast ==> rows[0] == RowOf(header, current)
    ensures uriType != Current ==>
      forall i :: 0 <= i < |days| ==> rows[i + (if uriType == Forecast then 0 else 1)] == RowOf(header, days[i])
  {
    rows := [];
    if uriType != Forecast {
      rows := rows + [RowOf(header, current)];
    }
    if uriType != Current {
      var head := rows;
      for i := 0 to |days|
        invariant rows == head + DayRows(header, days[..i])
      {
        rows := rows + [RowOf(header, days[i])];
      }
      assert days[..|days|] == days;
    }
  }
}
