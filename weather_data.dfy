/** The vocabulary shared by both providers: column names, the values a bulk-insert
    record carries, the typed getters that read them, the kinds of URI and the
    ways a call can fail. */
module WeatherData {
  import opened Wrappers

  /** The column names of the weather contract. `Named` stands for any other name a
      caller may put in an explicit projection. */
  datatype Column =
    | CurrentCityId | CurrentCity | CurrentCondition | CurrentConditionCode
    | CurrentHumidity | CurrentWindDirection | CurrentWindSpeed | CurrentWindSpeedUnit
    | CurrentTemperature | CurrentTemperatureUnit
    | TodaysHighTemperature | TodaysLowTemperature | CurrentTimestamp
    | ForecastLow | ForecastHigh | ForecastCondition | ForecastConditionCode
    | Named(name: string)

  /** A floating-point reading. Nothing here does arithmetic on it: all that matters
      is whether it is NaN. */
  datatype Double = NaN | Num(x: real)

  /** A value stored in a record (a `ContentValues` entry). */
  datatype Value = Text(s: string) | Whole(n: int) | Decimal(d: Double)

  /** One flat record of a bulk insert; a missing key reads as null. */
  type Record = map<Column, Value>

  /** `getAsDouble` / `getAsFloat`: the stored number, or null when the key is
      missing or holds text. */
  function GetDouble(rec: Record, col: Column): (r: Option<Double>)
    ensures r.Some? <==> col in rec && !rec[col].Text?
    ensures col in rec && rec[col].Decimal? ==> r == Some(rec[col].d)
    ensures col in rec && rec[col].Whole? ==> r == Some(Num(rec[col].n as real))
  {
    if col !in rec then None
    else match rec[col]
      case Decimal(d) => Some(d)
      case Whole(n) => Some(Num(n as real))
      case Text(_) => None
  }

  /** `getAsInteger` / `getAsLong`: the stored whole number, or null. */
  function GetWhole(rec: Record, col: Column): (r: Option<int>)
    ensures r.Some? <==> col in rec && rec[col].Whole?
    ensures r.Some? ==> rec[col] == Whole(r.value)
  {
    if col in rec && rec[col].Whole? then Some(rec[col].n) else None
  }

  /** `getAsString`: the stored text, or null. */
  function GetText(rec: Record, col: Column): (r: Option<string>)
    ensures r.Some? <==> col in rec && rec[col].Text?
    ensures r.Some? ==> rec[col] == Text(r.value)
  {
    if col in rec && rec[col].Text? then Some(rec[col].s) else None
  }

  /** What the URI matcher makes of a URI: one of the three registered paths,
      or no match. */
  datatype UriType = CurrentAndForecast | Current | Forecast | NoMatch

  /** Why a bulk insert throws. `NegativeCapacity`: an empty batch makes the forecast
      list's initial capacity -1. `NullUnboxed(k)`: a field of record k that is read
      into a primitive is null. */
  datatype Fault = InvalidUri | NegativeCapacity | NullUnboxed(record: nat)
}
