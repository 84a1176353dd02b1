# Weather provider cache, modelled in Dafny

The repository is an Android content provider in two near-identical copies
(`org.lineageos.weather.provider` and `org.cyanogenmod.weather.provider`). Each copy
keeps the most recent weather snapshot in a single cache slot and serves it back
through `query`:

- **Write path.** `bulkInsert` takes an ordered batch of flat records. Record 0 is
  always the current conditions. Records 1..N-1 are the forecast days, in order. The
  method builds one snapshot, overwrites the slot and notifies the three weather URIs.
- **Read path.** `query` matches the URI to a type: current+forecast, current,
  forecast or no match. `resolveProjection` picks the column header. The current row
  and then one row per forecast day are emitted into a `MatrixCursor`. The answer is
  null while the slot is empty.

The model has six modules:

- `Wrappers` (`wrappers.dfy`): `Option` and `Result`.
- `WeatherData` (`weather_data.dfy`): the column names, the values of a record, the
  typed getters of `ContentValues`, the URI types and the faults `bulkInsert` throws.
- `Batch` (`batch.dfy`): the forecast loop of `bulkInsert`. It is shared by both
  copies and takes each copy's own day decoder as a parameter.
- `Router` (`router.dfy`): `resolveProjection`, the cursor's row semantics and the
  row-emitting loop of `query`, shared by both copies. A row has one cell per header
  column. A column the row never fills is null. A value added under a column the
  header lacks is dropped.
- `LineageProvider` and `CyanogenProvider`: each copy's projection tables, snapshot
  type, record decoding and a `Provider` class whose field `cache: Option<Snapshot>`
  is the static slot.

The spec functions `DecodeBatch` (the snapshot a batch installs, or the fault) and
`QueryResult` (the cursor a query returns) are stated in each provider module. The
class methods are proved against them. The lemmas state what the source promises
about them.

Behaviour worth knowing, as the code has it:

- An unrecognised query URI does not fault. `resolveProjection`'s `default:` falls
  into the combined projection, and both "not forecast" and "not current" hold, so
  it reads exactly like the combined URI (`NoMatchReadsAsCombined`). A stricter
  design would treat an unknown selector as a caller error that must fault. The
  code does not do that, and the model follows the code. Only `bulkInsert` rejects
  URIs other than the combined one.
- An empty batch throws before the slot is assigned: the forecast list is allocated
  with capacity N-1 = -1 (`NegativeCapacity`).
- A field read into a Java primitive (`double`, `int`, `long`, `float`) that is
  absent throws on unboxing (`NullUnboxed`). Forecast records are read before
  record 0, so the fault names the first unreadable forecast record, and record 0
  only when every forecast record was readable. The city (and, in the CyanogenMod
  copy, the city id) is read as a string and may be null.
- The LineageOS copy sets forecast low/high, humidity and today's high/low only when
  they are not NaN. It sets the wind only when both speed and direction are not NaN.
  The wind speed unit is still read, and must be present, either way. The
  CyanogenMod copy copies every value as read.
- The LineageOS forecast-only default projection lacks the forecast condition
  column, although forecast rows fill it and the combined default lists it. A
  forecast query without a projection therefore drops the condition label
  (`LineageProvider.DefaultProjectionsCoverRows`). The model keeps the table as
  written.

## Model

| member | source | states |
|---|---|---|
| Router.ResolveProjection | src/org/lineageos/weather/provider/WeatherContentProvider.java:161-175 | An explicit projection is returned verbatim; a null one becomes the current default for current, the forecast default for forecast, and the combined default for every other type, no match included |
| Router.RowCells | src/org/lineageos/weather/provider/WeatherContentProvider.java:123-142 | A row has the header's columns in the header's order; each holds the value added under its name, or null when none was added |
| Router.RowDropsUnlisted | src/org/cyanogenmod/weather/provider/WeatherContentProvider.java:113-139 | Values added under columns the header does not list do not affect the row |
| Router.RenderedShape | src/org/lineageos/weather/provider/WeatherContentProvider.java:127-154 | A current row iff the type is not forecast, first; forecast rows iff the type is not current, in day order; 1, N or 1+N rows |
| Router.EmitRows | src/org/cyanogenmod/weather/provider/WeatherContentProvider.java:117-140 | The emission loop yields exactly the specified rows: count by type, current row first, day i's row at its position |
| Router.OptionalCell | src/org/lineageos/weather/provider/WeatherContentProvider.java:134-141 | An optional number shows as unset exactly when it was never set, and as its value otherwise |
| Router.TextCell | src/org/cyanogenmod/weather/provider/WeatherContentProvider.java:120-121 | A string cell is null exactly when the stored string is null, and holds the text otherwise |
| WeatherData.GetDouble | src/org/lineageos/weather/provider/WeatherContentProvider.java:200 | A numeric read yields a value iff the key is present and holds a number: the stored double, or a whole number converted to a double |
| WeatherData.GetWhole | src/org/lineageos/weather/provider/WeatherContentProvider.java:197-198 | A whole-number read yields the stored whole number, or null |
| WeatherData.GetText | src/org/lineageos/weather/provider/WeatherContentProvider.java:212 | A string read yields the stored text, or null |
| Batch.DecodeEachSpec | src/org/lineageos/weather/provider/WeatherContentProvider.java:195-207 | Decoding a run of records succeeds iff every record decodes; then one day per record, in order; otherwise it stops at the first unreadable record |
| Batch.FirstFailure | src/org/cyanogenmod/weather/provider/WeatherContentProvider.java:181-185 | A failure at position k after a readable prefix fails the whole run at k |
| Batch.ForecastsOfSpec | src/org/lineageos/weather/provider/WeatherContentProvider.java:191-207 | Records 1..N-1 become exactly N-1 days in order; an empty batch fails with negative capacity; otherwise the fault names the first unreadable forecast record |
| Batch.ReadForecasts | src/org/cyanogenmod/weather/provider/WeatherContentProvider.java:177-185 | The allocation and index loop produce exactly the forecast days of the batch, or its fault |
| LineageProvider.IfNumber | src/org/lineageos/weather/provider/WeatherContentProvider.java:219-226 | A number read as NaN leaves the optional field unset; any other number sets it |
| LineageProvider.DecodeDay | src/org/lineageos/weather/provider/WeatherContentProvider.java:196-206 | A forecast record decodes iff code, low and high are present; low and high are set only when not NaN |
| LineageProvider.DecodeCurrent | src/org/lineageos/weather/provider/WeatherContentProvider.java:209-236 | Record 0 decodes iff its primitive fields are present; city, temperature, unit, timestamp and code are copied; humidity and today's high/low are NaN-filtered; the wind is set iff speed and direction are both not NaN |
| LineageProvider.BatchAccepted | src/org/lineageos/weather/provider/WeatherContentProvider.java:188-236 | A batch is installed iff it is non-empty and all its records are readable; the fault is negative capacity for an empty batch, and record 0 is blamed only after all forecast records were read |
| LineageProvider.BatchInstalls | src/org/lineageos/weather/provider/WeatherContentProvider.java:193-217 | An installed snapshot has N-1 forecast days, day i from record i+1, and current fields from record 0 |
| LineageProvider.QueryRows | src/org/lineageos/weather/provider/WeatherContentProvider.java:125-155 | With a cached snapshot: current URI gives exactly the current row, forecast URI one row per day and no current row, any other URI the current row then the days, in stored order |
| LineageProvider.NoMatchReadsAsCombined | src/org/lineageos/weather/provider/WeatherContentProvider.java:122-167 | An unmatched URI returns the same result as the combined URI, for every cache and projection |
| LineageProvider.CurrentRowCells | src/org/lineageos/weather/provider/WeatherContentProvider.java:129-142 | The current row carries city, condition label and code, humidity, wind direction, speed and unit (unset without wind), temperature and unit, today's high and low and timestamp under their columns, null under forecast and other columns |
| LineageProvider.DayRowCells | src/org/lineageos/weather/provider/WeatherContentProvider.java:147-153 | A forecast row carries the day's low, high, condition label and condition code under their columns, null elsewhere |
| LineageProvider.DefaultProjectionsCoverRows | src/org/lineageos/weather/provider/WeatherContentProvider.java:57-95 | The current and combined defaults list every column their rows fill; the forecast default lists all but the condition label, which it drops |
| LineageProvider.WriteThenRead | src/org/lineageos/weather/provider/WeatherContentProvider.java:209-217 | After installing N records, a combined query without projection returns N rows: record 0's current row, then records 1..N-1 in order |
| LineageProvider.Provider.constructor | src/org/lineageos/weather/provider/WeatherContentProvider.java:106 | The slot starts empty and nothing has been notified |
| LineageProvider.Provider.Query | src/org/lineageos/weather/provider/WeatherContentProvider.java:114-159 | Null iff the slot is empty; otherwise the resolved header and the rows the URI type selects |
| LineageProvider.Provider.Insert | src/org/lineageos/weather/provider/WeatherContentProvider.java:182-185 | Always null; the cache is not touched |
| LineageProvider.Provider.BulkInsert | src/org/lineageos/weather/provider/WeatherContentProvider.java:187-248 | Non-combined URI: throws, cache and notifications unchanged; otherwise installs the decoded snapshot, notifies the three URIs and returns N, or throws with the cache untouched |
| LineageProvider.Provider.Delete | src/org/lineageos/weather/provider/WeatherContentProvider.java:250-253 | Always 0; the cache is not touched |
| LineageProvider.Provider.Update | src/org/lineageos/weather/provider/WeatherContentProvider.java:255-258 | Always 0; the cache is not touched |
| CyanogenProvider.DecodeDay | src/org/cyanogenmod/weather/provider/WeatherContentProvider.java:181-185 | A forecast record decodes iff low, high and code are present; they are copied as read, NaN included |
| CyanogenProvider.DecodeCurrent | src/org/cyanogenmod/weather/provider/WeatherContentProvider.java:187-198 | Record 0 decodes iff its primitive fields are present; every field, city id included, is copied as read |
| CyanogenProvider.BatchAccepted | src/org/cyanogenmod/weather/provider/WeatherContentProvider.java:174-198 | A batch is installed iff it is non-empty and all its records are readable; fault order as in the LineageOS copy |
| CyanogenProvider.BatchInstalls | src/org/cyanogenmod/weather/provider/WeatherContentProvider.java:179-198 | An installed snapshot has N-1 forecast days, day i from record i+1, and current fields, city id included, from record 0 |
| CyanogenProvider.QueryRows | src/org/cyanogenmod/weather/provider/WeatherContentProvider.java:115-141 | The current row with city id iff the type is not forecast, first; forecast rows iff the type is not current, in stored order |
| CyanogenProvider.NoMatchReadsAsCombined | src/org/cyanogenmod/weather/provider/WeatherContentProvider.java:112-153 | An unmatched URI returns the same result as the combined URI |
| CyanogenProvider.CurrentRowCells | src/org/cyanogenmod/weather/provider/WeatherContentProvider.java:119-129 | The current row carries city id, city, condition code, humidity, wind direction, speed and unit, temperature and unit and timestamp under their columns, null under forecast and other columns |
| CyanogenProvider.DayRowCells | src/org/cyanogenmod/weather/provider/WeatherContentProvider.java:134-139 | A forecast row carries the day's low, high and condition code under their columns, null elsewhere |
| CyanogenProvider.DefaultProjectionsCoverRows | src/org/cyanogenmod/weather/provider/WeatherContentProvider.java:52-85 | Each default projection lists every column the rows it serves fill |
| CyanogenProvider.WriteThenRead | src/org/cyanogenmod/weather/provider/WeatherContentProvider.java:187-198 | After installing N records, a combined query without projection returns record 0's row, then records 1..N-1 in order |
| CyanogenProvider.Provider.constructor | src/org/cyanogenmod/weather/provider/WeatherContentProvider.java:96 | The slot starts empty and nothing has been notified |
| CyanogenProvider.Provider.Query | src/org/cyanogenmod/weather/provider/WeatherContentProvider.java:104-145 | Null iff the slot is empty; otherwise the resolved header and the rows the URI type selects |
| CyanogenProvider.Provider.Insert | src/org/cyanogenmod/weather/provider/WeatherContentProvider.java:168-171 | Always null; the cache is not touched |
| CyanogenProvider.Provider.BulkInsert | src/org/cyanogenmod/weather/provider/WeatherContentProvider.java:173-210 | Non-combined URI: throws, cache and notifications unchanged; otherwise installs the snapshot, notifies the three URIs and returns N, or throws with the cache untouched |
| CyanogenProvider.Provider.Delete | src/org/cyanogenmod/weather/provider/WeatherContentProvider.java:212-215 | Always 0; the cache is not touched |
| CyanogenProvider.Provider.Update | src/org/cyanogenmod/weather/provider/WeatherContentProvider.java:217-220 | Always 0; the cache is not touched |

## Left out

- Android plumbing: `onCreate`, `getType`, `getContext()` and the `UriMatcher`. A URI is modelled as the type the matcher gives it.
- Concurrency: the `synchronized` block and the fact that the slot is a process-wide `static` field. The model is one sequential object, so the "no partial snapshot under concurrent reads" property is not stated; all-or-nothing replacement is stated for a single call.
- Change notifications: `notifyChange` is a call into the platform with no result. It is recorded as a ghost trace of notified URI types.
- Condition labels: `mapWeatherCodeToString` looks up resources. It is the provider's `labels` function, fixed at construction.
- Floating point: doubles and floats are one opaque number type. Only NaN is distinguished, and float-versus-double precision is not modelled.
- `ContentValues` getters: a value of another kind reads as null. The model keeps the whole-number-to-double conversion. It does not model text parsing, `toString` on numbers, or `intValue` truncation.
- `WeatherInfo`, `DayForecast` and their builders and constructors are not part of this model. Getters are assumed to return what was set. What they report for an unset optional field is the cell `Unset`. Any validation the builders or constructors do (a null city, an unknown unit) is not modelled. The CyanogenMod constructors are assumed to take primitive numbers, so a missing number faults on unboxing.
- Integer widths: Java `int` and `long` are unbounded integers. The 32-bit return count and narrowing in `getAsInteger` are not modelled.
- `selection`, `selectionArgs` and `sortOrder` of `query`, `delete` and `update` are ignored by the source and are left out of the signatures.
- Column names: the cursor matches columns by string equality. The model resolves every name of an explicit projection to its contract column first, so `Named` only ever stands for a name that is not one of the contract's columns; two spellings of the same column are not modelled.
- A null `contentValues` array (a `NullPointerException` before anything happens) is not modelled: a batch is a sequence.
