/** The LineageOS weather provider: a single cached snapshot, written by `bulkInsert`
    and read by `query`. This variant builds its snapshot with builders: an optional
    number is set only when the record holds something other than NaN, and the wind
    only when both its speed and its direction are numbers. Its rows carry the
    condition label derived from the condition code. */
module LineageProvider {
  import opened Wrappers
  import opened WeatherData
  import opened Batch
  import opened Router

  /** The default projection for the current URI. */
  const CurrentColumns: seq<Column> := [
    CurrentCity, CurrentCondition, CurrentConditionCode, CurrentHumidity,
    CurrentWindDirection, CurrentWindSpeed, CurrentWindSpeedUnit,
    CurrentTemperature, CurrentTemperatureUnit,
    TodaysHighTemperature, TodaysLowTemperature, CurrentTimestamp
  ]

  /** The default projection for the forecast URI. */
  const ForecastColumns: seq<Column> := [ForecastLow, ForecastHigh, ForecastConditionCode]

  /** The default projection for the combined URI (and for any unmatched one). */
  const CombinedColumns: seq<Column> := CurrentColumns + [
    ForecastLow, ForecastHigh, ForecastCondition, ForecastConditionCode
  ]

  const ProjectionDefaults := Defaults(CurrentColumns, ForecastColumns, CombinedColumns)

  /** One forecast day; an unset low or high is None. */
  datatype Day = Day(code: int, low: Option<Double>, high: Option<Double>)

  datatype Wind = Wind(speed: Double, direction: Double, unit: int)

  /** The cached weather: current conditions and the forecast days in day order. */
  datatype Snapshot = Snapshot(
    city: Option<string>,
    temperature: Double,
    temperatureUnit: int,
    timestamp: int,
    conditionCode: int,
    forecasts: seq<Day>,
    humidity: Option<Double>,
    todaysHigh: Option<Double>,
    todaysLow: Option<Double>,
    wind: Option<Wind>)

  /** The builder's rule for an optional number read as `read`: left unset when NaN,
      set to the number otherwise. */
  predicate NaNFiltered(field: Option<Double>, read: Double)
  {
    if read.NaN? then field.None? else field == Some(read)
  }

  function IfNumber(d: Double): (r: Option<Double>)
    ensures NaNFiltered(r, d)
  {
    if d.NaN? then None else Some(d)
  }

  /** Every field a forecast record is read into a primitive from is present. */
  predicate DayReadable(rec: Record)
  {
    GetWhole(rec, ForecastConditionCode).Some?
    && GetDouble(rec, ForecastLow).Some? && GetDouble(rec, ForecastHigh).Some?
  }

  /** One forecast record as the day builder turns it into a day; None when a field
      unboxed to a primitive is null. */
  function DecodeDay(rec: Record): (r: Option<Day>)
    ensures r.Some? <==> DayReadable(rec)
    ensures r.Some? ==>
      && r.value.code == GetWhole(rec, ForecastConditionCode).value
      && NaNFiltered(r.value.low, GetDouble(rec, ForecastLow).value)
      && NaNFiltered(r.value.high, GetDouble(rec, ForecastHigh).value)
  {
    var code :- GetWhole(rec, ForecastConditionCode);
    var low :- GetDouble(rec, ForecastLow);
    var high :- GetDouble(rec, ForecastHigh);
    Some(Day(code, IfNumber(low), IfNumber(high)))
  }

  /** Every field the current record is read into a primitive from is present; the
      city is read as a string and may be null. */
  predicate CurrentReadable(rec: Record)
  {
    && GetDouble(rec, CurrentTemperature).Some?
    && GetWhole(rec, CurrentTemperatureUnit).Some?
    && GetWhole(rec, CurrentTimestamp).Some?
    && GetWhole(rec, CurrentConditionCode).Some?
    && GetDouble(rec, CurrentHumidity).Some?
    && GetDouble(rec, TodaysHighTemperature).Some?
    && GetDouble(rec, TodaysLowTemperature).Some?
    && GetDouble(rec, CurrentWindSpeed).Some?
    && GetDouble(rec, CurrentWindDirection).Some?
    && GetWhole(rec, CurrentWindSpeedUnit).Some?
  }

  /** Record 0 as the snapshot builder turns it, together with the forecast days,
      into a snapshot. */
  function DecodeCurrent(rec: Record, days: seq<Day>): (r: Option<Snapshot>)
    ensures r.Some? <==> CurrentReadable(rec)
    ensures r.Some? ==>
      var s := r.value;
      && s.city == GetText(rec, CurrentCity)
      && s.temperature == GetDouble(rec, CurrentTemperature).value
      && s.temperatureUnit == GetWhole(rec, CurrentTemperatureUnit).value
      && s.timestamp == GetWhole(rec, CurrentTimestamp).value
      && s.conditionCode == GetWhole(rec, CurrentConditionCode).value
      && s.forecasts == days
      && NaNFiltered(s.humidity, GetDouble(rec, CurrentHumidity).value)
      && NaNFiltered(s.todaysHigh, GetDouble(rec, TodaysHighTemperature).value)
      && NaNFiltered(s.todaysLow, GetDouble(rec, TodaysLowTemperature).value)
    ensures r.Some? ==>
      var speed := GetDouble(rec, CurrentWindSpeed).value;
      var direction := GetDouble(rec, CurrentWindDirection).value;
      && (r.value.wind.Some? <==> !speed.NaN? && !direction.NaN?)
      && (r.value.wind.Some? ==>
            r.value.wind.value == Wind(speed, direction, GetWhole(rec, CurrentWindSpeedUnit).value))
  {
    var temperature :- GetDouble(rec, CurrentTemperature);
    var temperatureUnit :- GetWhole(rec, CurrentTemperatureUnit);
    var timestamp :- GetWhole(rec, CurrentTimestamp);
    var code :- GetWhole(rec, CurrentConditionCode);
    var humidity :- GetDouble(rec, CurrentHumidity);
    var high :- GetDouble(rec, TodaysHighTemperature);
    var low :- GetDouble(rec, TodaysLowTemperature);
    var speed :- GetDouble(rec, CurrentWindSpeed);
    var direction :- GetDouble(rec, CurrentWindDirection);
    var speedUnit :- GetWhole(rec, CurrentWindSpeedUnit);
    var wind := if !speed.NaN? && !direction.NaN? then Some(Wind(speed, direction, speedUnit)) else None;
    Some(Snapshot(GetText(rec, CurrentCity), temperature, temperatureUnit, timestamp, code,
                  days, IfNumber(humidity), IfNumber(high), IfNumber(low), wind))
  }

  /** The snapshot a bulk insert of `records` installs, or the fault it throws:
      the forecast days are read first, then record 0. */
  function DecodeBatch(records: seq<Record>): Result<Snapshot, Fault>
  {
    var days :- ForecastsOf(records, DecodeDay);
    match DecodeCurrent(records[0], days)
    case None => Err(NullUnboxed(0))
    case Some(s) => Ok(s)
  }

  /** A batch is installed exactly when it is not empty and every record in it can be
      read; otherwise the fault names the empty batch, the first unreadable forecast
      record, or record 0 once all forecast records were read. */
  lemma BatchAccepted(records: seq<Record>)
    ensures DecodeBatch(records).Ok? <==>
      && |records| >= 1
      && CurrentReadable(records[0])
      && forall i :: 1 <= i < |records| ==> DayReadable(records[i])
    ensures |records| == 0 ==> DecodeBatch(records) == Err(NegativeCapacity)
    ensures DecodeBatch(records) == Err(NullUnboxed(0)) ==>
      forall i :: 1 <= i < |records| ==> DayReadable(records[i])
    ensures DecodeBatch(records).Err? ==> DecodeBatch(records).error != InvalidUri
  {
    ForecastsOfSpec(records, DecodeDay);
  }

  /** An installed snapshot takes its current fields from record 0 and has exactly
      N-1 forecast days, day i built from record i+1. */
  lemma BatchInstalls(records: seq<Record>)
    requires DecodeBatch(records).Ok?
    ensures var s := DecodeBatch(records).value;
      && |records| >= 1
      && |s.forecasts| == |records| - 1
      && (forall i :: 0 <= i < |s.forecasts| ==> DecodeDay(records[i + 1]) == Some(s.forecasts[i]))
      && DecodeCurrent(records[0], s.forecasts) == Some(s)
  {
    ForecastsOfSpec(records, DecodeDay);
  }

  /** What the current row adds. */
  function CurrentFill(s: Snapshot, labels: int -> string): Fill
  {
    map[
      CurrentCity := TextCell(s.city),
      CurrentCondition := Val(Text(labels(s.conditionCode))),
      CurrentConditionCode := Val(Whole(s.conditionCode)),
      CurrentHumidity := OptionalCell(s.humidity),
      CurrentWindDirection := if s.wind.Some? then Val(Decimal(s.wind.value.direction)) else Unset,
      CurrentWindSpeed := if s.wind.Some? then Val(Decimal(s.wind.value.speed)) else Unset,
      CurrentWindSpeedUnit := if s.wind.Some? then Val(Whole(s.wind.value.unit)) else Unset,
      CurrentTemperature := Val(Decimal(s.temperature)),
      CurrentTemperatureUnit := Val(Whole(s.temperatureUnit)),
      TodaysHighTemperature := OptionalCell(s.todaysHigh),
      TodaysLowTemperature := OptionalCell(s.todaysLow),
      CurrentTimestamp := Val(Whole(s.timestamp))
    ]
  }

  /** What the row of one forecast day adds. */
  function DayFill(d: Day, labels: int -> string): Fill
  {
    map[
      ForecastLow := OptionalCell(d.low),
      ForecastHigh := OptionalCell(d.high),
      ForecastCondition := Val(Text(labels(d.code))),
      ForecastConditionCode := Val(Whole(d.code))
    ]
  }

  function DayFills(days: seq<Day>, labels: int -> string): (fills: seq<Fill>)
    ensures |fills| == |days|
  {
    seq(|days|, i requires 0 <= i < |days| => DayFill(days[i], labels))
  }

  /** The cursor `query` returns for the cache contents `cache`; None stands for null. */
  function QueryResult(cache: Option<Snapshot>, labels: int -> string, uri: UriType,
                       projection: Option<seq<Column>>): Option<Table>
  {
    match cache
    case None => None
    case Some(s) =>
      var header := ResolveProjection(projection, uri, ProjectionDefaults);
      Some(Table(header, Rendered(header, uri, CurrentFill(s, labels), DayFills(s.forecasts, labels))))
  }

  /** With a snapshot cached: a current URI yields exactly the current row, a forecast
      URI one row per forecast day and no current row, any other URI the current row
      followed by the forecast rows; the forecast rows follow the stored day order. */
  lemma QueryRows(s: Snapshot, labels: int -> string, uri: UriType, projection: Option<seq<Column>>)
    ensures QueryResult(Some(s), labels, uri, projection).Some?
    ensures var t := QueryResult(Some(s), labels, uri, projection).value;
      && t.header == ResolveProjection(projection, uri, ProjectionDefaults)
      && |t.rows| == RowCount(uri, |s.forecasts|)
      && (uri == Current ==> t.rows == [RowOf(t.header, CurrentFill(s, labels))])
      && (uri == Forecast ==>
            forall i :: 0 <= i < |s.forecasts| ==> t.rows[i] == RowOf(t.header, DayFill(s.forecasts[i], labels)))
      && (uri != Current && uri != Forecast ==>
            && t.rows[0] == RowOf(t.header, CurrentFill(s, labels))
            && forall i :: 0 <= i < |s.forecasts| ==>
                 t.rows[1 + i] == RowOf(t.header, DayFill(s.forecasts[i], labels)))
  {
    var header := ResolveProjection(projection, uri, ProjectionDefaults);
    RenderedShape(header, uri, CurrentFill(s, labels), DayFills(s.forecasts, labels));
  }

  /** An unmatched URI is not a fault: it reads exactly like the combined URI. */
  lemma NoMatchReadsAsCombined(cache: Option<Snapshot>, labels: int -> string, projection: Option<seq<Column>>)
    ensures QueryResult(cache, labels, NoMatch, projection) == QueryResult(cache, labels, CurrentAndForecast, projection)
  {
  }

  /** In any header, the row of a forecast day holds the day's low, high, condition
      label and condition code under their columns and null under every other one. */
  lemma DayRowCells(header: seq<Column>, d: Day, labels: int -> string, j: nat)
    requires j < |header|
    ensures var cell := RowOf(header, DayFill(d, labels))[j];
      match header[j]
      case ForecastLow => cell == OptionalCell(d.low)
      case ForecastHigh => cell == OptionalCell(d.high)
      case ForecastCondition => cell == Val(Text(labels(d.code)))
      case ForecastConditionCode => cell == Val(Whole(d.code))
      case _ => cell == Null
  {
  }

  /** In any header, the current row holds the snapshot's city, condition label and
      code, humidity, wind, temperature and unit, today's high and low and timestamp
      under their columns, and null under the forecast columns and any other name. */
  lemma CurrentRowCells(header: seq<Column>, s: Snapshot, labels: int -> string, j: nat)
    requires j < |header|
    ensures var cell := RowOf(header, CurrentFill(s, labels))[j];
      match header[j]
      case CurrentCity => cell == TextCell(s.city)
      case CurrentCondition => cell == Val(Text(labels(s.conditionCode)))
      case CurrentConditionCode => cell == Val(Whole(s.conditionCode))
      case CurrentHumidity => cell == OptionalCell(s.humidity)
      case CurrentWindDirection =>
        cell == if s.wind.Some? then Val(Decimal(s.wind.value.direction)) else Unset
      case CurrentWindSpeed =>
        cell == if s.wind.Some? then Val(Decimal(s.wind.value.speed)) else Unset
      case CurrentWindSpeedUnit =>
        cell == if s.wind.Some? then Val(Whole(s.wind.value.unit)) else Unset
      case CurrentTemperature => cell == Val(Decimal(s.temperature))
      case CurrentTemperatureUnit => cell == Val(Whole(s.temperatureUnit))
      case TodaysHighTemperature => cell == OptionalCell(s.todaysHigh)
      case TodaysLowTemperature => cell == OptionalCell(s.todaysLow)
      case CurrentTimestamp => cell == Val(Whole(s.timestamp))
      case _ => cell == Null
  {
  }

  /** The default projections keep every value a row adds, except one: the forecast
      default lacks the forecast condition column, so a forecast query without a
      projection drops the condition label that the combined default carries. */
  lemma DefaultProjectionsCoverRows(s: Snapshot, d: Day, labels: int -> string)
    ensures forall c :: c in CurrentFill(s, labels) ==> c in CurrentColumns && c in CombinedColumns
    ensures forall c :: c in DayFill(d, labels) ==> c in CombinedColumns
    ensures forall c :: c in DayFill(d, labels) && c != ForecastCondition ==> c in ForecastColumns
    ensures ForecastCondition in DayFill(d, labels) && ForecastCondition !in ForecastColumns
  {
  }

  /** Read after write: once a batch of N records is installed, a combined query
      without a projection returns N rows: record 0's current row, then one row per
      forecast record in the order supplied. */
  lemma WriteThenRead(records: seq<Record>, labels: int -> string)
    requires DecodeBatch(records).Ok?
    ensures var t := QueryResult(Some(DecodeBatch(records).value), labels, CurrentAndForecast, None).value;
      && t.header == CombinedColumns
      && |t.rows| == |records|
      && t.rows[0] == RowOf(CombinedColumns, CurrentFill(DecodeBatch(records).value, labels))
      && forall i :: 1 <= i < |records| ==>
           DecodeDay(records[i]).Some? &&
           t.rows[i] == RowOf(CombinedColumns, DayFill(DecodeDay(records[i]).value, labels))
  {
    var s := DecodeBatch(records).value;
    BatchInstalls(records);
    QueryRows(s, labels, CurrentAndForecast, None);
    forall i | 1 <= i < |records|
      ensures DecodeDay(records[i]).Some?
      ensures QueryResult(Some(s), labels, CurrentAndForecast, None).value.rows[i]
        == RowOf(CombinedColumns, DayFill(DecodeDay(records[i]).value, labels))
    {
      assert DecodeDay(records[(i - 1) + 1]) == Some(s.forecasts[i - 1]);
    }
  }

  /** The provider: one cache slot, empty until the first successful bulk insert. */
  class Provider {
    var cache: Option<Snapshot>
    /** The change notifications sent so far, one URI per notification. */
    ghost var notified: seq<UriType>
    /** The condition-code-to-label lookup of the provider's resources. */
    const labels: int -> string

    constructor (labels: int -> string)
      ensures cache == None && notified == [] && this.labels == labels
    {
      cache := None;
      notified := [];
      this.labels := labels;
    }

    /** Null while nothing is cached; otherwise a cursor over the resolved header with
        the rows the URI type selects. */
    method Query(uri: UriType, projection: Option<seq<Column>>) returns (r: Option<Table>)
      ensures r == QueryResult(cache, labels, uri, projection)
      ensures r.None? <==> cache.None?
      ensures r.Some? ==>
        && r.value.header == ResolveProjection(projection, uri, ProjectionDefaults)
        && |r.value.rows| == RowCount(uri, |cache.value.forecasts|)
    {
      var header := ResolveProjection(projection, uri, ProjectionDefaults);
      if cache.None? {
        return None;
      }
      var s := cache.value;
      var rows := EmitRows(header, uri, CurrentFill(s, labels), DayFills(s.forecasts, labels));
      r := Some(Table(header, rows));
    }

    /** Single inserts are not supported: the answer is null. */
    method Insert(uri: UriType, values: Record) returns (r: Option<UriType>)
      ensures r.None?
    {
      r := None;
    }

    /** Replaces the cached snapshot with the one built from `records` and notifies the
        three weather URIs, answering the number of records. A URI other than the
        combined one, an empty batch or an unreadable record throws, and then nothing
        changes and nothing is notified. */
    method BulkInsert(uri: UriType, records: seq<Record>) returns (r: Result<nat, Fault>)
      modifies this
      ensures uri != CurrentAndForecast ==> r == Err(InvalidUri)
      ensures uri == CurrentAndForecast ==>
        r == (if DecodeBatch(records).Ok? then Ok(|records|) else Err(DecodeBatch(records).error))
      ensures r.Ok? ==>
        && cache == Some(DecodeBatch(records).value)
        && notified == old(notified) + [CurrentAndForecast, Current, Forecast]
      ensures r.Err? ==> cache == old(cache) && notified == old(notified)
    {
      if uri != CurrentAndForecast {
        return Err(InvalidUri);
      }
      var count := |records|;
      var days := ReadForecasts(records, DecodeDay);
      if days.Err? {
        return Err(days.error);
      }
      var s := DecodeCurrent(records[0], days.value);
      if s.None? {
        return Err(NullUnboxed(0));
      }
      cache := s;
      notified := notified + [CurrentAndForecast, Current, Forecast];
      r := Ok(count);
    }

    /** Deletion is not supported: no rows are affected. */
    method Delete(uri: UriType) returns (n: int)
      ensures n == 0
    {
      n := 0;
    }

    /** Updates are not supported: no rows are affected. */
    method Update(uri: UriType, values: Record) returns (n: int)
      ensures n == 0
    {
      n := 0;
    }
  }
}
