/** The CyanogenMod weather provider: the same cache slot and read path as the
    LineageOS one, with a snapshot that also carries the city id. Its snapshot is
    built by plain constructors, so every number is stored as read, NaN included,
    and its rows carry no condition label. */
module CyanogenProvider {
  import opened Wrappers
  import opened WeatherData
  import opened Batch
  import opened Router

  /** The default projection for the current URI. */
  const CurrentColumns: seq<Column> := [
    CurrentCityId, CurrentCity, CurrentConditionCode, CurrentHumidity,
    CurrentWindDirection, CurrentWindSpeed, CurrentWindSpeedUnit,
    CurrentTemperature, CurrentTemperatureUnit, CurrentTimestamp
  ]

  /** The default projection for the forecast URI. */
  const ForecastColumns: seq<Column> := [ForecastLow, ForecastHigh, ForecastConditionCode]

  /** The default projection for the combined URI (and for any unmatched one). */
  const CombinedColumns: seq<Column> := CurrentColumns + ForecastColumns

  const ProjectionDefaults := Defaults(CurrentColumns, ForecastColumns, CombinedColumns)

  datatype Day = Day(low: Double, high: Double, code: int)

  /** The cached weather: current conditions and the forecast days in day order. */
  datatype Snapshot = Snapshot(
    cityId: Option<string>,
    city: Option<string>,
    conditionCode: int,
    temperature: Double,
    temperatureUnit: int,
    humidity: Double,
    windSpeed: Double,
    windDirection: Double,
    windSpeedUnit: int,
    forecasts: seq<Day>,
    timestamp: int)

  /** Every field of a forecast record is present: all three are primitives. */
  predicate DayReadable(rec: Record)
  {
    GetDouble(rec, ForecastLow).Some? && GetDouble(rec, ForecastHigh).Some?
    && GetWhole(rec, ForecastConditionCode).Some?
  }

  /** One forecast record as the day constructor receives it: values copied as read,
      with no NaN filtering. */
  function DecodeDay(rec: Record): (r: Option<Day>)
    ensures r.Some? <==> DayReadable(rec)
    ensures r.Some? ==>
      && Some(r.value.low) == GetDouble(rec, ForecastLow)
      && Some(r.value.high) == GetDouble(rec, ForecastHigh)
      && Some(r.value.code) == GetWhole(rec, ForecastConditionCode)
  {
    var low :- GetDouble(rec, ForecastLow);
    var high :- GetDouble(rec, ForecastHigh);
    var code :- GetWhole(rec, ForecastConditionCode);
    Some(Day(low, high, code))
  }

  /** Every primitive field of the current record is present; the city id and the
      city are strings and may be null. */
  predicate CurrentReadable(rec: Record)
  {
    && GetWhole(rec, CurrentConditionCode).Some?
    && GetDouble(rec, CurrentTemperature).Some?
    && GetWhole(rec, CurrentTemperatureUnit).Some?
    && GetDouble(rec, CurrentHumidity).Some?
    && GetDouble(rec, CurrentWindSpeed).Some?
    && GetDouble(rec, CurrentWindDirection).Some?
    && GetWhole(rec, CurrentWindSpeedUnit).Some?
    && GetWhole(rec, CurrentTimestamp).Some?
  }

  /** Record 0, with the forecast days, as the snapshot constructor receives it. */
  function DecodeCurrent(rec: Record, days: seq<Day>): (r: Option<Snapshot>)
    ensures r.Some? <==> CurrentReadable(rec)
    ensures r.Some? ==>
      var s := r.value;
      && s.cityId == GetText(rec, CurrentCityId)
      && s.city == GetText(rec, CurrentCity)
      && Some(s.conditionCode) == GetWhole(rec, CurrentConditionCode)
      && Some(s.temperature) == GetDouble(rec, CurrentTemperature)
      && Some(s.temperatureUnit) == GetWhole(rec, CurrentTemperatureUnit)
      && Some(s.humidity) == GetDouble(rec, CurrentHumidity)
      && Some(s.windSpeed) == GetDouble(rec, CurrentWindSpeed)
      && Some(s.windDirection) == GetDouble(rec, CurrentWindDirection)
      && Some(s.windSpeedUnit) == GetWhole(rec, CurrentWindSpeedUnit)
      && s.forecasts == days
      && Some(s.timestamp) == GetWhole(rec, CurrentTimestamp)
  {
    var code :- GetWhole(rec, CurrentConditionCode);
    var temperature :- GetDouble(rec, CurrentTemperature);
    var temperatureUnit :- GetWhole(rec, CurrentTemperatureUnit);
    var humidity :- GetDouble(rec, CurrentHumidity);
    var windSpeed :- GetDouble(rec, CurrentWindSpeed);
    var windDirection :- GetDouble(rec, CurrentWindDirection);
    var windSpeedUnit :- GetWhole(rec, CurrentWindSpeedUnit);
    var timestamp :- GetWhole(rec, CurrentTimestamp);
    Some(Snapshot(GetText(rec, CurrentCityId), GetText(rec, CurrentCity), code, temperature,
                  temperatureUnit, humidity, windSpeed, windDirection, windSpeedUnit, days, timestamp))
  }

  /** The snapshot a bulk insert of `records` installs, or the fault it throws:
      the forecast days are read first, then record 0. */
  function DecodeBatch(records: seq<Record>): Result<Snapshot, Fault>
  {
    var days :- ForecastsOf(records, DecodeDay);
    match DecodeCurrent(records[0], days)
    case None => Err(NullUnboxed(0))
    case Some(s) => Ok(s)
  }

  /** A batch is installed exactly when it is not empty and every record in it can be
      read; otherwise the fault names the empty batch, the first unreadable forecast
      record, or record 0 once all forecast records were read. */
  lemma BatchAccepted(records: seq<Record>)
    ensures DecodeBatch(records).Ok? <==>
      && |records| >= 1
      && CurrentReadable(records[0])
      && forall i :: 1 <= i < |records| ==> DayReadable(records[i])
    ensures |records| == 0 ==> DecodeBatch(records) == Err(NegativeCapacity)
    ensures DecodeBatch(records) == Err(NullUnboxed(0)) ==>
      forall i :: 1 <= i < |records| ==> DayReadable(records[i])
    ensures DecodeBatch(records).Err? ==> DecodeBatch(records).error != InvalidUri
  {
    ForecastsOfSpec(records, DecodeDay);
  }

  /** An installed snapshot takes its current fields, city id included, from record 0
      and has exactly N-1 forecast days, day i copied from record i+1. */
  lemma BatchInstalls(records: seq<Record>)
    requires DecodeBatch(records).Ok?
    ensures var s := DecodeBatch(records).value;
      && |records| >= 1
      && |s.forecasts| == |records| - 1
      && (forall i :: 0 <= i < |s.forecasts| ==> DecodeDay(records[i + 1]) == Some(s.forecasts[i]))
      && DecodeCurrent(records[0], s.forecasts) == Some(s)
  {
    ForecastsOfSpec(records, DecodeDay);
  }

  /** What the current row adds. */
  function CurrentFill(s: Snapshot): Fill
  {
    map[
      CurrentCityId := TextCell(s.cityId),
      CurrentCity := TextCell(s.city),
      CurrentConditionCode := Val(Whole(s.conditionCode)),
      CurrentHumidity := Val(Decimal(s.humidity)),
      CurrentWindDirection := Val(Decimal(s.windDirection)),
      CurrentWindSpeed := Val(Decimal(s.windSpeed)),
      CurrentWindSpeedUnit := Val(Whole(s.windSpeedUnit)),
      CurrentTemperature := Val(Decimal(s.temperature)),
      CurrentTemperatureUnit := Val(Whole(s.temperatureUnit)),
      CurrentTimestamp := Val(Whole(s.timestamp))
    ]
  }

  /** What the row of one forecast day adds. */
  function DayFill(d: Day): Fill
  {
    map[
      ForecastLow := Val(Decimal(d.low)),
      ForecastHigh := Val(Decimal(d.high)),
      ForecastConditionCode := Val(Whole(d.code))
    ]
  }

  function DayFills(days: seq<Day>): (fills: seq<Fill>)
    ensures |fills| == |days|
  {
    seq(|days|, i requires 0 <= i < |days| => DayFill(days[i]))
  }

  /** The cursor `query` returns for the cache contents `cache`; None stands for null. */
  function QueryResult(cache: Option<Snapshot>, uri: UriType, projection: Option<seq<Column>>): Option<Table>
  {
    match cache
    case None => None
    case Some(s) =>
      var header := ResolveProjection(projection, uri, ProjectionDefaults);
      Some(Table(header, Rendered(header, uri, CurrentFill(s), DayFills(s.forecasts))))
  }

  /** With a snapshot cached: the current row (with the city id) is emitted iff the
      URI type is not forecast, the forecast rows iff it is not current, the current
      row first and the forecast rows in stored day order. */
  lemma QueryRows(s: Snapshot, uri: UriType, projection: Option<seq<Column>>)
    ensures QueryResult(Some(s), uri, projection).Some?
    ensures var t := QueryResult(Some(s), uri, projection).value;
      && t.header == ResolveProjection(projection, uri, ProjectionDefaults)
      && |t.rows| == RowCount(uri, |s.forecasts|)
      && (uri == Current ==> t.rows == [RowOf(t.header, CurrentFill(s))])
      && (uri == Forecast ==>
            forall i :: 0 <= i < |s.forecasts| ==> t.rows[i] == RowOf(t.header, DayFill(s.forecasts[i])))
      && (uri != Current && uri != Forecast ==>
            && t.rows[0] == RowOf(t.header, CurrentFill(s))
            && forall i :: 0 <= i < |s.forecasts| ==> t.rows[1 + i] == RowOf(t.header, DayFill(s.forecasts[i])))
  {
    var header := ResolveProjection(projection, uri, ProjectionDefaults);
    RenderedShape(header, uri, CurrentFill(s), DayFills(s.forecasts));
  }

  /** An unmatched URI is not a fault: it reads exactly like the combined URI. */
  lemma NoMatchReadsAsCombined(cache: Option<Snapshot>, projection: Option<seq<Column>>)
    ensures QueryResult(cache, NoMatch, projection) == QueryResult(cache, CurrentAndForecast, projection)
  {
  }

  /** In any header, the row of a forecast day holds the day's low, high and
      condition code under their columns and null under every other one. */
  lemma DayRowCells(header: seq<Column>, d: Day, j: nat)
    requires j < |header|
    ensures var cell := RowOf(header, DayFill(d))[j];
      match header[j]
      case ForecastLow => cell == Val(Decimal(d.low))
      case ForecastHigh => cell == Val(Decimal(d.high))
      case ForecastConditionCode => cell == Val(Whole(d.code))
      case _ => cell == Null
  {
  }

  /** In any header, the current row holds the snapshot's city id, city, condition
      code, humidity, wind, temperature and unit and timestamp under their columns,
      and null under the forecast columns and any other name. */
  lemma CurrentRowCells(header: seq<Column>, s: Snapshot, j: nat)
    requires j < |header|
    ensures var cell := RowOf(header, CurrentFill(s))[j];
      match header[j]
      case CurrentCityId => cell == TextCell(s.cityId)
      case CurrentCity => cell == TextCell(s.city)
      case CurrentConditionCode => cell == Val(Whole(s.conditionCode))
      case CurrentHumidity => cell == Val(Decimal(s.humidity))
      case CurrentWindDirection => cell == Val(Decimal(s.windDirection))
      case CurrentWindSpeed => cell == Val(Decimal(s.windSpeed))
      case CurrentWindSpeedUnit => cell == Val(Whole(s.windSpeedUnit))
      case CurrentTemperature => cell == Val(Decimal(s.temperature))
      case CurrentTemperatureUnit => cell == Val(Whole(s.temperatureUnit))
      case CurrentTimestamp => cell == Val(Whole(s.timestamp))
      case _ => cell == Null
  {
  }

  /** Each default projection keeps every value the rows it is used for add. */
  lemma DefaultProjectionsCoverRows(s: Snapshot, d: Day)
    ensures forall c :: c in CurrentFill(s) ==> c in CurrentColumns && c in CombinedColumns
    ensures forall c :: c in DayFill(d) ==> c in ForecastColumns && c in CombinedColumns
  {
  }

  /** Read after write: once a batch of N records is installed, a combined query
      without a projection returns N rows: record 0's current row, then one row per
      forecast record in the order supplied. */
  lemma WriteThenRead(records: seq<Record>)
    requires DecodeBatch(records).Ok?
    ensures var t := QueryResult(Some(DecodeBatch(records).value), CurrentAndForecast, None).value;
      && t.header == CombinedColumns
      && |t.rows| == |records|
      && t.rows[0] == RowOf(CombinedColumns, CurrentFill(DecodeBatch(records).value))
      && forall i :: 1 <= i < |records| ==>
           DecodeDay(records[i]).Some? &&
           t.rows[i] == RowOf(CombinedColumns, DayFill(DecodeDay(records[i]).value))
  {
    var s := DecodeBatch(records).value;
    BatchInstalls(records);
    QueryRows(s, CurrentAndForecast, None);
    forall i | 1 <= i < |records|
      ensures DecodeDay(records[i]).Some?
      ensures QueryResult(Some(s), CurrentAndForecast, None).value.rows[i]
        == RowOf(CombinedColumns, DayFill(DecodeDay(records[i]).value))
    {
      assert DecodeDay(records[(i - 1) + 1]) == Some(s.forecasts[i - 1]);
    }
  }

  /** The provider: one cache slot, empty until the first successful bulk insert. */
  class Provider {
    var cache: Option<Snapshot>
    /** The change notifications sent so far, one URI per notification. */
    ghost var notified: seq<UriType>

    constructor ()
      ensures cache == None && notified == []
    {
      cache := None;
      notified := [];
    }

    /** Null while nothing is cached; otherwise a cursor over the resolved header with
        the rows the URI type selects. */
    method Query(uri: UriType, projection: Option<seq<Column>>) returns (r: Option<Table>)
      ensures r == QueryResult(cache, uri, projection)
      ensures r.None? <==> cache.None?
      ensures r.Some? ==>
        && r.value.header == ResolveProjection(projection, uri, ProjectionDefaults)
        && |r.value.rows| == RowCount(uri, |cache.value.forecasts|)
    {
      var header := ResolveProjection(projection, uri, ProjectionDefaults);
      if cache.None? {
        return None;
      }
      var s := cache.value;
      var rows := EmitRows(header, uri, CurrentFill(s), DayFills(s.forecasts));
      r := Some(Table(header, rows));
    }

    /** Single inserts are not supported: the answer is null. */
    method Insert(uri: UriType, values: Record) returns (r: Option<UriType>)
      ensures r.None?
    {
      r := None;
    }

    /** Replaces the cached snapshot with the one built from `records` and notifies the
        three weather URIs, answering the number of records. A URI other than the
        combined one, an empty batch or an unreadable record throws, and then nothing
        changes and nothing is notified. */
    method BulkInsert(uri: UriType, records: seq<Record>) returns (r: Result<nat, Fault>)
      modifies this
      ensures uri != CurrentAndForecast ==> r == Err(InvalidUri)
      ensures uri == CurrentAndForecast ==>
        r == (if DecodeBatch(records).Ok? then Ok(|records|) else Err(DecodeBatch(records).error))
      ensures r.Ok? ==>
        && cache == Some(DecodeBatch(records).value)
        && notified == old(notified) + [CurrentAndForecast, Current, Forecast]
      ensures r.Err? ==> cache == old(cache) && notified == old(notified)
    {
      if uri != CurrentAndForecast {
        return Err(InvalidUri);
      }
      var count := |records|;
      var days := ReadForecasts(records, DecodeDay);
      if days.Err? {
        return Err(days.error);
      }
      var s := DecodeCurrent(records[0], days.value);
      if s.None? {
        return Err(NullUnboxed(0));
      }
      cache := s;
      notified := notified + [CurrentAndForecast, Current, Forecast];
      r := Ok(count);
    }

    /** Deletion is not supported: no rows are affected. */
    method Delete(uri: UriType) returns (n: int)
      ensures n == 0
    {
      n := 0;
    }

    /** Updates are not supported: no rows are affected. */
    method Update(uri: UriType, values: Record) returns (n: int)
      ensures n == 0
    {
      n := 0;
    }
  }
}
