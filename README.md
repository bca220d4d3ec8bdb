# Olympic thermostat dashboard — Dafny model

This project models the client-side logic of the Olympic thermostat dashboard,
a React Native app. It covers:

- the data hooks that fetch and post thermostat readings: temperature, humidity,
  temperature setpoint, occupancy, date/time, weather, BTU meter and water meter;
- the coordinator that refreshes all of them;
- the decisions the home screen, the demo screen and the water-detector card make;
- the authentication store;
- the navigation helpers;
- date-locale selection;
- the JavaScript type-check utilities.

Each hook is a `class` whose fields are the hook's state variables. Next to each
class is a `State()` datatype view and the specification functions it is proved
against. A fetch that awaits a transport call is split in two:

- a `Begin…` method for the synchronous part (the loading flag goes up and the
  call is issued);
- a `Complete…(result)` method for what runs after the await.

The transport's answer is an input, `Outcome = Ok(data) | Err(error) | BadData |
Thrown(exception)`. A ghost `calls` log records which endpoints each store called.
Interval timers are a small `IntervalTimers` class that maps live ids to periods.

Two conventions run through the model:

- JavaScript's `null`/`undefined` are kept apart: `Nullable = Undefined | Null | Value`.
- Numbers are `real`. `toFixed`, `Math.round`, `parseFloat` and the date formatting
  are symbolic or passed in as functions.

The code is followed wherever the repository's prose describes something else. In
particular, the setpoint and occupancy writes apply only after an `ok` reply. There is
no optimistic update and no rollback.

## Model

| member | source | states |
|---|---|---|
| Js.Nullable.Or | app/screens/HomeScreen.tsx:198 | `x ?? fallback` gives the value when there is one and the fallback for both `null` and `undefined` |
| Js.ToText | app/components/hooks/api-queries/useTemperature.ts:26-28 | `${err}` of a non-Error value is its own text. For an `Error` the text starts with the name and ends with the message, and is empty only when both are |
| Js.ToFixedOnNullish | app/components/hooks/api-mutations/useTempSetpoint.ts:52 | calling `toFixed` on a nullish value throws a TypeError whose message ends in "null" exactly for `null` and in "undefined" for `undefined` |
| Js.ErrorMessage | app/components/hooks/api-queries/useTemperature.ts:26-28 | the `Error: ${err}` message is never empty |
| Js.FirstIndexOf | app/utils/formatDate.ts:20 | `indexOf` finds the first occurrence, or reports that there is none: the prefix before it has no such character |
| Js.FirstIndexOfAfterPrefix | app/utils/formatDate.ts:20 | the first separator after a separator-free prefix is at the prefix's length |
| Transport.MapOk | app/components/hooks/api-queries/useHumidity.ts:13-15 | converting an `ok` payload keeps every outcome's kind and converts only the data |
| Metric.Completed | app/components/hooks/api-queries/useTemperature.ts:18-31 | after any outcome loading is off. The value is kept exactly on `ok`, otherwise it is `null`. A non-ok reply records the fixed message, a throw records `Error: …` |
| Metric.FetchIdempotent | app/components/hooks/api-queries/useTemperature.ts:16-32 | repeating a fetch with the same outcome changes nothing more |
| Metric.ErrorNeverCleared | app/components/hooks/api-queries/useTemperature.ts:20-28 | no outcome clears an error once set, so a message survives later successes |
| Metric.FetchForgetsPreviousValue | app/components/hooks/api-queries/useTemperature.ts:20-28 | the value after a fetch depends only on the outcome, not on the earlier state |
| Timers.IntervalTimers.constructor | app/components/hooks/api-queries/useBTUMeter.ts:108-113 | before any effect runs, no interval is registered |
| Timers.IntervalTimers.SetInterval | app/components/hooks/api-queries/useBTUMeter.ts:113 | registers a fresh id with its period and nothing else |
| Timers.IntervalTimers.ClearInterval | app/components/hooks/api-queries/useBTUMeter.ts:116 | removes exactly that id |
| TemperatureHook.TemperatureStore.constructor | app/components/hooks/api-queries/useTemperature.ts:10-13 | the reading starts `undefined`, not loading, with no error; the refresh interval is the one given, 10000 by default |
| TemperatureHook.TemperatureStore.BeginFetchTemp | app/components/hooks/api-queries/useTemperature.ts:17-19 | loading goes up and one `getTemp` call is issued |
| TemperatureHook.TemperatureStore.CompleteFetchTemp | app/components/hooks/api-queries/useTemperature.ts:19-31 | the state becomes `Metric.Completed` of the outcome |
| TemperatureHook.TemperatureStore.FetchTemp | app/components/hooks/api-queries/useTemperature.ts:16-32 | the whole fetch is `Metric.Fetched`, with one call |
| HumidityHook.HumidityStore.constructor | app/components/hooks/api-queries/useHumidity.ts:4-7 | the humidity starts `undefined` |
| HumidityHook.HumidityStore.BeginFetchHumidity | app/components/hooks/api-queries/useHumidity.ts:10-12 | loading goes up and one `getHumidity` call is issued |
| HumidityHook.HumidityStore.CompleteFetchHumidity | app/components/hooks/api-queries/useHumidity.ts:12-25 | the `ok` text is parsed to a number before it is stored; the rest follows `Metric.Completed` |
| HumidityHook.HumidityStore.FetchHumidity | app/components/hooks/api-queries/useHumidity.ts:9-26 | the whole fetch, with one call |
| Setpoint.Shifted | app/components/hooks/api-queries/useTempSetpoint.ts:40-41 | the updater moves a present setpoint by exactly the step and turns `null`/`undefined` into `null` |
| Setpoint.ShiftRoundTrip | app/components/hooks/api-queries/useTempSetpoint.ts:40-41 | a step up then a step down restores any setpoint that is not `undefined` |
| LocalTempSetpointHook.LocalTempSetpointStore.constructor | app/components/hooks/api-queries/useTempSetpoint.ts:11-13 | the setpoint starts at 0 |
| LocalTempSetpointHook.LocalTempSetpointStore.BeginFetchTempSp | app/components/hooks/api-queries/useTempSetpoint.ts:16-18 | loading goes up and one `getTempSetpoint` call is issued |
| LocalTempSetpointHook.LocalTempSetpointStore.CompleteFetchTempSp | app/components/hooks/api-queries/useTempSetpoint.ts:18-30 | the state becomes `Metric.Completed` of the outcome |
| LocalTempSetpointHook.LocalTempSetpointStore.FetchTempSp | app/components/hooks/api-queries/useTempSetpoint.ts:15-31 | the whole fetch, with one call |
| LocalTempSetpointHook.LocalTempSetpointStore.IncrementTempSp | app/components/hooks/api-queries/useTempSetpoint.ts:40 | the local `+` moves the setpoint by 0.5, with no call and no other change |
| LocalTempSetpointHook.LocalTempSetpointStore.DecrementTempSp | app/components/hooks/api-queries/useTempSetpoint.ts:41 | the local `−` moves the setpoint by −0.5, with no call and no other change |
| LocalTempSetpointHook.IncrementThenDecrement | app/components/hooks/api-queries/useTempSetpoint.ts:40-41 | `+` then `−` restores the whole state when the setpoint is not `undefined` |
| TempSetpointHook.IncrementPayload | app/components/hooks/api-mutations/useTempSetpoint.ts:34-37 | the POST carries the sum to one decimal, or the text `'0'` exactly when the setpoint is nullish or zero or the sum is zero |
| TempSetpointHook.DecrementPayload | app/components/hooks/api-mutations/useTempSetpoint.ts:49-52 | no POST (a TypeError) exactly when the setpoint is nullish. A zero setpoint posts `0.0`; otherwise the sum is posted |
| TempSetpointHook.DecrementSentDiffersFromStored | app/components/hooks/api-mutations/useTempSetpoint.ts:49-54 | the decrement posts the sum but stores the difference; the two differ by twice the step |
| TempSetpointHook.TempSetpointStore.constructor | app/components/hooks/api-mutations/useTempSetpoint.ts:11-13 | the setpoint starts at 0, not loading, with no error |
| TempSetpointHook.TempSetpointStore.BeginFetchTempSp | app/components/hooks/api-mutations/useTempSetpoint.ts:16-18 | loading goes up and one `getTempSetpoint` call is issued |
| TempSetpointHook.TempSetpointStore.CompleteFetchTempSp | app/components/hooks/api-mutations/useTempSetpoint.ts:18-30 | the state becomes `Metric.Completed` of the outcome |
| TempSetpointHook.TempSetpointStore.FetchTempSp | app/components/hooks/api-mutations/useTempSetpoint.ts:15-31 | the whole fetch, with one call |
| TempSetpointHook.TempSetpointStore.IncrementTempSp | app/components/hooks/api-mutations/useTempSetpoint.ts:33-46 | one POST of `IncrementPayload`. Only `ok` moves the setpoint; a throw records its message; loading is untouched |
| TempSetpointHook.TempSetpointStore.DecrementTempSp | app/components/hooks/api-mutations/useTempSetpoint.ts:48-61 | a nullish setpoint throws before any POST and records the TypeError. Otherwise there is one POST, and only `ok` moves the setpoint down |
| OccupancyHook.OccupancyStore.constructor | app/components/hooks/api-mutations/useOccupancy.ts:5-7 | occupancy starts as the code `'0'` |
| OccupancyHook.OccupancyStore.BeginFetchOccupancy | app/components/hooks/api-mutations/useOccupancy.ts:10-12 | loading goes up and one `getOccupancy` call is issued |
| OccupancyHook.OccupancyStore.CompleteFetchOccupancy | app/components/hooks/api-mutations/useOccupancy.ts:12-25 | `Metric.Completed` with the temperature hook's failure message, as written |
| OccupancyHook.OccupancyStore.FetchOccupancy | app/components/hooks/api-mutations/useOccupancy.ts:9-26 | the whole fetch, with one call |
| OccupancyHook.OccupancyStore.ChangeOccupancy | app/components/hooks/api-mutations/useOccupancy.ts:28-40 | one POST. `ok` stores the value; a throw stores `''` and records the error; any other reply changes nothing |
| WeatherHook.Weather.With | app/components/hooks/api-queries/useWeather.ts:23 | the spread update sets one field and keeps the other |
| WeatherHook.Completed | app/components/hooks/api-queries/useWeather.ts:20-31 | after any outcome loading is off. Only `ok` writes the fetched field, and the other field is never touched. A failure sets the fixed message or `Error: …`; `ok` leaves the error as it was |
| WeatherHook.ErrorNeverCleared | app/components/hooks/api-queries/useWeather.ts:22-28 | no weather fetch clears an error once set |
| WeatherHook.FetchOrderMattersOnlyForError | app/components/hooks/api-queries/useWeather.ts:18-48 | the two fetches give the same weather in either order. The whole state agrees unless both fail; then the later failure's message wins |
| WeatherHook.WeatherStore.constructor | app/components/hooks/api-queries/useWeather.ts:11-16 | both fields start empty, with no error |
| WeatherHook.WeatherStore.BeginFetch | app/components/hooks/api-queries/useWeather.ts:19-21 | loading goes up and the field's endpoint is called once |
| WeatherHook.WeatherStore.CompleteFetch | app/components/hooks/api-queries/useWeather.ts:21-31 | the state becomes `Completed` for that field |
| WeatherHook.WeatherStore.FetchWeatherTemp | app/components/hooks/api-queries/useWeather.ts:18-32 | the outdoor-temperature fetch |
| WeatherHook.WeatherStore.FetchWeatherStatus | app/components/hooks/api-queries/useWeather.ts:34-48 | the status fetch |
| DateTimeHook.RemoveFirstComma | app/components/hooks/api-queries/useDateTime.ts:38-45 | without a comma the text is unchanged. Otherwise exactly one comma is removed and every other character keeps its count |
| DateTimeHook.RemoveFirstCommaSplits | app/components/hooks/api-queries/useDateTime.ts:45 | the first comma is the one removed |
| DateTimeHook.RemoveFirstCommaTwice | app/components/hooks/api-queries/useDateTime.ts:45 | only the first comma goes, so later ones survive a single replace |
| DateTimeHook.CaughtMessage | app/components/hooks/api-queries/useDateTime.ts:57-58 | an `Error` gives its message; any other thrown value gives the fixed unknown-error text |
| DateTimeHook.Completed | app/components/hooks/api-queries/useDateTime.ts:34-61 | after any outcome loading is off. An `ok` reply that formats becomes the displayed `PST` date/time with no error; every other path keeps the old time and records the transport error, the fixed text, or the caught message |
| DateTimeHook.ReplacedOrErrored | app/components/hooks/api-queries/useDateTime.ts:30-62 | each fetch either replaces the date/time or records an error, never both. The error is clear exactly when the reply was `ok` and formatting worked |
| DateTimeHook.DateTimeStore.constructor | app/components/hooks/api-queries/useDateTime.ts:21-28 | empty fields, not loading, error `null` |
| DateTimeHook.DateTimeStore.BeginFetchDateTime | app/components/hooks/api-queries/useDateTime.ts:31-35 | loading goes up, the error is reset to `null`, and one call is issued |
| DateTimeHook.DateTimeStore.CompleteFetchDateTime | app/components/hooks/api-queries/useDateTime.ts:35-61 | the state becomes `Completed` |
| DateTimeHook.DateTimeStore.FetchDateTime | app/components/hooks/api-queries/useDateTime.ts:30-62 | the whole fetch, with one call |
| BtuMeterHook.BtuData.With | app/components/hooks/api-queries/useBTUMeter.ts:38 | the spread update sets one reading and keeps the other three |
| BtuMeterHook.FieldFetched | app/components/hooks/api-queries/useBTUMeter.ts:34-89 | a field fetch touches only its own reading and error key. `ok` stores the reading and blanks the error; `error` records the message; a throw records `Error: …`; bad data changes nothing |
| BtuMeterHook.FieldFetchesCommute | app/components/hooks/api-queries/useBTUMeter.ts:34-89 | fetches of two different fields give the same state in either order |
| BtuMeterHook.OtherFetchKeepsSlice | app/components/hooks/api-queries/useBTUMeter.ts:34-89 | a fetch of another field leaves this field's reading and error key alone |
| BtuMeterHook.SameFetchKeepsSlice | app/components/hooks/api-queries/useBTUMeter.ts:34-89 | a field's slice after its fetch depends only on its slice before it |
| BtuMeterHook.RefreshedFieldwise | app/components/hooks/api-queries/useBTUMeter.ts:92-106 | after a refresh loading is off, and each field is exactly what its own fetch alone would leave |
| BtuMeterHook.RefreshOrderIrrelevant | app/components/hooks/api-queries/useBTUMeter.ts:95-100 | running the four fetches in reverse order gives the same refreshed state |
| BtuMeterHook.BtuMeterStore.constructor | app/components/hooks/api-queries/useBTUMeter.ts:18-31 | all four readings start `null`, with no errors and no interval; the refresh interval is the one given, 10000 by default |
| BtuMeterHook.BtuMeterStore.FetchField | app/components/hooks/api-queries/useBTUMeter.ts:34-89 | the state becomes `FieldFetched`, with one call to that field's endpoint |
| BtuMeterHook.BtuMeterStore.RefreshAllBtuData | app/components/hooks/api-queries/useBTUMeter.ts:92-106 | the state becomes `Refreshed`, with the four calls in source order |
| BtuMeterHook.BtuMeterStore.Mount | app/components/hooks/api-queries/useBTUMeter.ts:109-121 | one refresh. An interval, and a cleanup, exist exactly when the period is positive |
| BtuMeterHook.BtuMeterStore.Unmount | app/components/hooks/api-queries/useBTUMeter.ts:114-118 | clears the ref's interval, if any, and nothing else |
| BtuMeterHook.BtuMeterStore.OnInterval | app/components/hooks/api-queries/useBTUMeter.ts:113 | each tick of a live interval is one refresh |
| BtuMeterHook.MountThenUnmount | app/components/hooks/api-queries/useBTUMeter.ts:109-121 | mount then unmount leaves no timer behind and makes exactly one refresh's calls |
| WaterMeterHook.ValveFetched | app/components/hooks/api-queries/useWaterMeter.ts:25-37 | only `ok` writes the valve. `ok` and bad data leave the errors as they were; `error` blanks the valve error; a throw records `Error: …` |
| WaterMeterHook.ValveFetchDropsMessage | app/components/hooks/api-queries/useWaterMeter.ts:31-33 | the transport's error message never reaches the state: any two messages give the same state |
| WaterMeterHook.DetectorFetched | app/components/hooks/api-queries/useWaterMeter.ts:39-52 | like the BTU fields: `ok` stores and blanks the error, `error` records the message, a throw records `Error: …` |
| WaterMeterHook.ValvePosted | app/components/hooks/api-queries/useWaterMeter.ts:54-66 | only `ok` writes the posted value. A thrown POST records `Error …`, without the colon the fetches use |
| WaterMeterHook.PostThenFailedFetch | app/components/hooks/api-queries/useWaterMeter.ts:25-66 | after a successful POST, a failed valve fetch keeps the posted value and shows no error |
| WaterMeterHook.FetchesCommute | app/components/hooks/api-queries/useWaterMeter.ts:72 | the valve and detector fetches give the same state in either order |
| WaterMeterHook.Refreshed | app/components/hooks/api-queries/useWaterMeter.ts:69-78 | loading is off after a refresh |
| WaterMeterHook.WaterMeterStore.constructor | app/components/hooks/api-queries/useWaterMeter.ts:14-23 | both statuses start `null`, with no errors and no interval; the refresh interval is the one given, 10000 by default |
| WaterMeterHook.WaterMeterStore.FetchShutoffValveStatus | app/components/hooks/api-queries/useWaterMeter.ts:25-37 | the state becomes `ValveFetched`, with one call |
| WaterMeterHook.WaterMeterStore.FetchDetectorStatus | app/components/hooks/api-queries/useWaterMeter.ts:39-52 | the state becomes `DetectorFetched`, with one call |
| WaterMeterHook.WaterMeterStore.PostWaterShutoffValve | app/components/hooks/api-queries/useWaterMeter.ts:54-66 | the state becomes `ValvePosted`, with one POST |
| WaterMeterHook.WaterMeterStore.RefreshAllWaterData | app/components/hooks/api-queries/useWaterMeter.ts:69-78 | the state becomes `Refreshed`, with both calls in order |
| WaterMeterHook.WaterMeterStore.Mount | app/components/hooks/api-queries/useWaterMeter.ts:81-93 | one refresh. An interval exists exactly when the period is positive |
| WaterMeterHook.WaterMeterStore.Unmount | app/components/hooks/api-queries/useWaterMeter.ts:86-90 | clears the ref's interval, if any |
| WaterMeterHook.WaterMeterStore.OnInterval | app/components/hooks/api-queries/useWaterMeter.ts:85 | each tick of a live interval is one refresh |
| WaterMeterHook.MountThenUnmount | app/components/hooks/api-queries/useWaterMeter.ts:81-93 | mount then unmount leaves no timer behind |
| RefreshAllData.Coordinator.constructor | app/components/hooks/api-queries/useRefreshAllData.ts:3-17 | the coordinator holds the stores whose fetch functions it is given |
| RefreshAllData.Coordinator.Refresh | app/components/hooks/api-queries/useRefreshAllData.ts:18-37 | each of the thirteen fetches runs exactly once, each store ends in its own fetch's state, and no interval changes |
| RefreshAllData.Coordinator.RefreshReadings | app/components/hooks/api-queries/useRefreshAllData.ts:21-25 | temperature, humidity, occupancy, setpoint and date/time each end in their fetch's state, one call each |
| RefreshAllData.Coordinator.RefreshDevices | app/components/hooks/api-queries/useRefreshAllData.ts:26-33 | water, BTU and weather each end in their fetches' state, with their calls in order |
| RefreshAllData.Coordinator.RefreshBtuFields | app/components/hooks/api-queries/useRefreshAllData.ts:28-31 | the four BTU field fetches, without the BTU hook's loading bracket |
| HomeScreen.CodesDistinct | app/screens/HomeScreen.tsx:37-42 | the four occupancy codes are pairwise distinct |
| HomeScreen.CurrentValue | app/screens/HomeScreen.tsx:198 | a nullish occupancy compares as OFF (`'7'`) |
| HomeScreen.SelectedModes | app/components/OccupancyButton.tsx:23 | a button is selected exactly when its code equals the current value, and at most one is |
| HomeScreen.NullishSelectsOff | app/screens/HomeScreen.tsx:194-221 | with no occupancy, OFF is the selected button |
| HomeScreen.UnknownCodeSelectsNone | app/screens/HomeScreen.tsx:194-221 | any other code, such as the initial `'0'` or `''`, selects no button |
| HomeScreen.ModeSelectsItself | app/screens/HomeScreen.tsx:194-221 | a stored mode code selects exactly its own button |
| HomeScreen.IsLoading | app/screens/HomeScreen.tsx:59 | the content shows exactly when the temperature, setpoint, date/time and humidity hooks have all finished loading |
| HomeScreen.IsLoadingIgnoresOthers | app/screens/HomeScreen.tsx:59 | only the temperature, setpoint, date/time and humidity flags decide the spinner |
| HomeScreen.IndoorTempHeading | app/screens/HomeScreen.tsx:125-129 | the placeholder shows exactly for `null`; `undefined` takes the value branch with nothing to show |
| HomeScreen.TextFooter | app/screens/HomeScreen.tsx:138-160 | a string footer (the outdoor reading, the date) shows its text, and the placeholder shows exactly when the text is empty |
| HomeScreen.HumidityFooter | app/screens/HomeScreen.tsx:148-152 | the placeholder shows exactly when the humidity is nullish; zero is shown |
| HomeScreen.Footers | app/screens/HomeScreen.tsx:136-162 | each of the three footers falls back to its placeholder on its own: outdoor and date when empty, humidity when nullish; a humidity of 0 is shown |
| HomeScreen.MetricOf | app/screens/HomeScreen.tsx:75 | a present reading shows to one decimal; a null one shows the number 0 |
| HomeScreen.MeterMetrics | app/screens/HomeScreen.tsx:72-89 | the meter card lists rate, accumulated consumption, monthly cost and water consumption, with their label keys |
| HomeScreen.MeterMetricsIgnoreSupplyTemp | app/screens/HomeScreen.tsx:72-89 | the supply temperature is never shown, the water row repeats the consumption row, and the initial state shows four zeros |
| HomeScreen.Dashboard.constructor | app/screens/HomeScreen.tsx:46-57 | the screen starts with no interval |
| HomeScreen.Dashboard.Mount | app/screens/HomeScreen.tsx:105-107 | one full refresh, then one fresh ten-minute interval |
| HomeScreen.Dashboard.Unmount | app/screens/HomeScreen.tsx:108 | the cleanup clears that interval |
| HomeScreen.Dashboard.OnInterval | app/screens/HomeScreen.tsx:107 | each tick is one full refresh |
| HomeScreen.Dashboard.PressIncrease | app/screens/HomeScreen.tsx:184 | `+` posts the increment payload for 0.5 with one call, moves the setpoint only on `ok`, records `Error: …` on a throw and keeps the error otherwise, and leaves the loading flag alone |
| HomeScreen.Dashboard.PressDecrease | app/screens/HomeScreen.tsx:176 | `−` on a nullish setpoint records the `toFixed` TypeError and posts nothing; otherwise it posts the decrement payload for 0.5 with one call, moves the setpoint down only on `ok` and records `Error: …` on a throw. The loading flag is left alone |
| HomeScreen.Dashboard.PressMode | app/screens/HomeScreen.tsx:199 | one POST. `ok` stores the pressed mode's code, so exactly that button is selected. A throw stores `''`, so none is, and records `Error: …`. Any other reply leaves the occupancy and the error as they were. The loading flag is never touched |
| HomeScreen.MountThenUnmount | app/screens/HomeScreen.tsx:105-109 | mount then unmount leaves the timers as they were |
| WaterDetectorCard.StatusLabel | app/components/WaterDetectorCard.tsx:25-41 | a status selects its alarm key exactly when it is `Active` and its normal key otherwise |
| WaterDetectorCard.StatusColour | app/components/WaterDetectorCard.tsx:14-17 | a status is shown red exactly when it is `Active` |
| WaterDetectorCard.Render | app/components/WaterDetectorCard.tsx:14-41 | the valve shows closed and red exactly when its status is `Active`, open otherwise; the detector shows leak and red exactly when its status is `Active`, no leak otherwise |
| WaterDetectorCard.LabelsAgreeWithColours | app/components/WaterDetectorCard.tsx:14-41 | closed goes with red and open with green; leak goes with red and no leak with green |
| WaterDetectorCard.HalvesIndependent | app/components/WaterDetectorCard.tsx:14-41 | each half of the card depends only on its own status |
| WaterDetectorCard.InactiveOrUnknownIsNormal | app/components/WaterDetectorCard.tsx:14-41 | `null`, `Inactive` and any unexpected value show an open valve and no leak |
| DemoHomeScreen.Completed | app/screens/DemoHomeScreen.tsx:21-29 | `ok` stores the reading and other replies record the message; both clear the flag. A throw skips everything after the await |
| DemoHomeScreen.ThrowLeavesSpinner | app/screens/DemoHomeScreen.tsx:17-33 | after a thrown fetch the spinner stays up with no error |
| DemoHomeScreen.ReturnedResultClearsSpinner | app/screens/DemoHomeScreen.tsx:19-29 | every returned result clears the flag. Only a non-ok result leaves an error, and it keeps the old reading |
| DemoHomeScreen.HeadingOf | app/screens/DemoHomeScreen.tsx:47 | dashes exactly when the reading is falsy (missing or zero) |
| DemoHomeScreen.Render | app/screens/DemoHomeScreen.tsx:40-56 | spinner first, then a non-empty error, then the cards |
| DemoHomeScreen.ZeroReadingShowsDashes | app/screens/DemoHomeScreen.tsx:47 | a reading of exactly 0 shows `--` |
| DemoHomeScreen.MountFetchRenders | app/screens/DemoHomeScreen.tsx:17-56 | from the initial state, the mount fetch renders the cards on `ok`, the fixed message on other replies, and the spinner after a throw |
| DemoHomeScreen.DemoHomeStore.constructor | app/screens/DemoHomeScreen.tsx:13-15 | the reading starts `undefined` |
| DemoHomeScreen.DemoHomeStore.BeginFetchTemp | app/screens/DemoHomeScreen.tsx:19-21 | the flag goes up, the error is cleared, and one call is issued |
| DemoHomeScreen.DemoHomeStore.CompleteFetchTemp | app/screens/DemoHomeScreen.tsx:21-29 | the state becomes `Completed` |
| DemoHomeScreen.DemoHomeStore.FetchTemp | app/screens/DemoHomeScreen.tsx:18-30 | the whole fetch, with one call |
| AuthenticationStore.MatchesAt | app/models/AuthenticationStore.ts:24 | a match at `@` index `i` and `.` index `j` splits the email as local part, `@`, domain, `.`, suffix, each part non-empty |
| AuthenticationStore.EmailShape | app/models/AuthenticationStore.ts:24 | every string in the pattern's language has at least five characters, an `@` and a `.` |
| AuthenticationStore.IsEmailAddress | app/models/AuthenticationStore.ts:24 | an accepted email has at least five characters and exactly one `@` |
| AuthenticationStore.IsEmailAddressMatchesPattern | app/models/AuthenticationStore.ts:24 | the direct check accepts exactly the language of `/^[^\s@]+@[^\s@]+\.[^\s@]+$/` |
| AuthenticationStore.ValidationErrorOf | app/models/AuthenticationStore.ts:21-27 | blank exactly for the empty email; short exactly for 1–5 characters; invalid exactly for a longer email that fails the pattern |
| AuthenticationStore.ValidationErrorEmptyIff | app/models/AuthenticationStore.ts:21-27 | the email is accepted exactly when it has at least six characters and matches the pattern |
| AuthenticationStore.RemoveSpaces | app/models/AuthenticationStore.ts:42 | the result has no space and is never longer |
| AuthenticationStore.RemoveSpacesConcat | app/models/AuthenticationStore.ts:42 | the global replace works piecewise over concatenation |
| AuthenticationStore.RemoveSpacesIdentity | app/models/AuthenticationStore.ts:42 | a string with no space is left as it is |
| AuthenticationStore.RemoveSpacesIdempotent | app/models/AuthenticationStore.ts:41-43 | setting an already stripped email changes nothing |
| AuthenticationStore.RemoveSpacesKeepsOthers | app/models/AuthenticationStore.ts:42 | only spaces are removed; every other character keeps its count |
| AuthenticationStore.AuthenticationStore.constructor | app/models/AuthenticationStore.ts:5-8 | no token and an empty email |
| AuthenticationStore.AuthenticationStore.IsAuthenticated | app/models/AuthenticationStore.ts:14-16 | `!!authToken`: no token and the empty token do not authenticate; any non-empty token does |
| AuthenticationStore.AuthenticationStore.ValidationError | app/models/AuthenticationStore.ts:21-27 | the store's message is one of the three messages or empty, and empty exactly when the email has at least six characters and matches the pattern |
| AuthenticationStore.AuthenticationStore.SetAuthToken | app/models/AuthenticationStore.ts:34-36 | stores the token, with `undefined` clearing it. The user is authenticated exactly for a non-empty token |
| AuthenticationStore.AuthenticationStore.SetAuthEmail | app/models/AuthenticationStore.ts:41-43 | stores the email with its spaces removed and keeps the token |
| AuthenticationStore.AuthenticationStore.Logout | app/models/AuthenticationStore.ts:47-50 | clears both fields. The user is then unauthenticated and the email is blank |
| NavigationUtilities.GetActiveRouteName | app/navigators/navigationUtilities.ts:35-52 | missing or empty routes fail with "no routes found"; every failure carries one of the two messages |
| NavigationUtilities.IndexDefaultsToZero | app/navigators/navigationUtilities.ts:42 | a missing index means index 0 |
| NavigationUtilities.IndexOutOfRangeFails | app/navigators/navigationUtilities.ts:42-45 | an index with no route behind it fails with "route not found at index" |
| NavigationUtilities.ActiveRouteOfNested | app/navigators/navigationUtilities.ts:42-51 | through any depth of nested navigators, whatever each one's active index and sibling routes, the active name is the innermost active route's |
| NavigationUtilities.NavigationRestoredDefaultState | app/navigators/navigationUtilities.ts:116-123 | restoration is enabled (`false`) exactly for `always`, `dev` in development and `prod` in release |
| NavigationUtilities.NotFromDeepLink | app/navigators/navigationUtilities.ts:170 | `!initialUrl`: no URL counts as not opened from a deep link, a non-empty URL counts as a deep link, and a failed lookup never restores |
| NavigationUtilities.NavigationPersistence.constructor | app/navigators/navigationUtilities.ts:131-139 | no initial state and no route name; `isRestored` starts from the default |
| NavigationUtilities.NavigationPersistence.OnNavigationStateChange | app/navigators/navigationUtilities.ts:141-163 | a state with an active route is saved and its name remembered. `undefined`, or a state that throws, changes nothing |
| NavigationUtilities.NavigationPersistence.RestoreState | app/navigators/navigationUtilities.ts:165-179 | the stored state is taken only without a deep link. The flag goes up only if still mounted, even after a failed lookup |
| NavigationUtilities.NavigationPersistence.OnMount | app/navigators/navigationUtilities.ts:181-185 | restoration runs only when not already restored |
| NavigationUtilities.SaveThenRestore | app/navigators/navigationUtilities.ts:141-179 | a saved state is the one restored on a launch without a deep link |
| NavigationUtilities.OnBackPress | app/navigators/navigationUtilities.ts:74-100 | not ready means unhandled. It exits exactly when the active route may exit, goes back exactly when it may not but can go back, and the press is handled exactly when one of these happens |
| NavigationUtilities.GoBackAction | app/navigators/navigationUtilities.ts:216-222 | handled, with a back command, exactly when ready and able to go back |
| NavigationUtilities.NavigateAction | app/navigators/navigationUtilities.ts:196-210 | fails with the not-ready message exactly when not ready; otherwise navigates to the name with the params passed on unchanged |
| NavigationUtilities.ResetRootAction | app/navigators/navigationUtilities.ts:229-243 | fails exactly when not ready. It resets to the given state, or to the empty root by default |
| NavigationUtilities.BackPressAgreesWithGoBack | app/navigators/navigationUtilities.ts:74-222 | when the current route may not exit, the back button behaves as `goBack` |
| FormatDate.PrimaryTag | app/utils/formatDate.ts:20 | the primary tag is a hyphen-free prefix of the language, ends at the first hyphen, and is all of it when there is no hyphen |
| FormatDate.PrimaryTagOfSubtagged | app/utils/formatDate.ts:20 | subtags after the first hyphen are dropped |
| FormatDate.LocaleFor | app/utils/formatDate.ts:20-21 | a language without a hyphen is its own tag, and any locale but en-US comes from a two-letter primary tag that ends the language or is followed by a hyphen |
| FormatDate.LocaleForTag | app/utils/formatDate.ts:21-46 | each of ar, ko, es, fr, hi and ja selects its own locale; `en` and every other tag select en-US |
| FormatDate.RegionalVariantSameLocale | app/utils/formatDate.ts:20-46 | a regional variant selects the same locale as its bare language |
| FormatDate.CanadianFrenchIsFrench | app/utils/formatDate.ts:20-46 | `fr-CA` and `fr` both select French |
| FormatDate.WithLocale | app/utils/formatDate.ts:59-62 | the loaded locale overrides any caller locale, and every other option is kept |
| FormatDate.DateFormatting.constructor | app/utils/formatDate.ts:12 | no locale before the first load |
| FormatDate.DateFormatting.LoadDateFnsLocale | app/utils/formatDate.ts:19-47 | the module locale becomes the one chosen for the language's primary tag |
| FormatDate.DateFormatting.FormatDate | app/utils/formatDate.ts:58-64 | formats the given date with `MMM dd, yyyy` by default and the module locale in the options |
| FormatDate.LoadThenFormat | app/utils/formatDate.ts:19-64 | after a load, every call carries the loaded locale whatever the caller passed |
| JsValues.TypeOf | app/utils/primitiveTypetUtils.ts:19-21 | `typeof` answers "object" exactly for `null` and objects, and "function" exactly for functions |
| PrimitiveTypeUtils.IsBoolean | app/utils/primitiveTypetUtils.ts:9-11 | holds exactly for `true` and `false` |
| PrimitiveTypeUtils.IsNumber | app/utils/primitiveTypetUtils.ts:19-21 | holds exactly for numbers |
| PrimitiveTypeUtils.IsNull | app/utils/primitiveTypetUtils.ts:29-31 | `null`, whose `typeof` is "object" |
| PrimitiveTypeUtils.IsString | app/utils/primitiveTypetUtils.ts:39-41 | holds exactly for strings |
| PrimitiveTypeUtils.IsSymbol | app/utils/primitiveTypetUtils.ts:49-51 | holds exactly for symbols |
| PrimitiveTypeUtils.IsUndefined | app/utils/primitiveTypetUtils.ts:59-61 | holds exactly when `typeof` is "undefined" |
| PrimitiveTypeUtils.TypeOfChecksDependOnTagOnly | app/utils/primitiveTypetUtils.ts:19-51 | values with the same `typeof` tag pass the same number, string and symbol checks |
| PrimitiveTypeUtils.NullIsNotUndefined | app/utils/primitiveTypetUtils.ts:29-61 | `isNull` holds only for `null`, and it never holds together with `isUndefined` |
| PrimitiveTypeUtils.AtMostOneCheckHolds | app/utils/primitiveTypetUtils.ts:9-61 | a value passes at most one of the six checks; bigints, functions and objects pass none |
| NonPrimitiveTypeUtils.IsArray | app/utils/nonPrimitiveTypetUtils.ts:9-11 | holds exactly for array objects, whatever their prototype |
| NonPrimitiveTypeUtils.IsFunction | app/utils/nonPrimitiveTypetUtils.ts:19-21 | holds exactly for functions |
| NonPrimitiveTypeUtils.IsObject | app/utils/nonPrimitiveTypetUtils.ts:29-31 | holds exactly for (non-null) objects |
| NonPrimitiveTypeUtils.IsPlainObject | app/utils/nonPrimitiveTypetUtils.ts:40-47 | implies `isObject`; holds exactly for objects whose prototype is `Object.prototype` or `null` |
| NonPrimitiveTypeUtils.NullIsNotObject | app/utils/nonPrimitiveTypetUtils.ts:29-31 | `typeof null` is "object", yet `null` is neither an object nor a plain object |
| NonPrimitiveTypeUtils.FunctionIsNotObject | app/utils/nonPrimitiveTypetUtils.ts:19-31 | no value is both a function and an object |
| NonPrimitiveTypeUtils.PlainObjectExamples | app/utils/nonPrimitiveTypetUtils.ts:33-47 | `{}` and `Object.create(null)` are plain; `[]` is an array object that is not plain; any other prototype is not plain |

## Left out

- Transport: the HTTP client (apisauce, its 10-second timeout, the URL) is a network client. Its answer is an input `Outcome`. Only `getTemp` (app/services/api/api.ts:44-57) is visible; the other endpoints are known only by name.
- Concurrency: `Promise.all` interleavings, replies that arrive after unmount, and wall-clock timer firing are not modelled. A refresh applies its fetches one after another in source order. The BTU, water and weather commutation lemmas show that the order cannot change the result, except for which error message weather keeps. Timers are modelled as register and clear only.
- Floating point: `toFixed`, `Math.round` and `parseFloat` are kept symbolic, and numbers are reals, so NaN and the infinities do not occur.
- Date libraries: date-fns (`parse`, `format`, `parseISO`) and `toLocaleDateString` are library calls. The date/time hook receives the locale formatting as a function; `formatDate` returns the call it would make.
- Storage: persisted navigation state is one slot per persistence key. JSON encoding and storage failures are not modelled; `storage.load` returning `null` is the empty slot.
- Platform plumbing: `BackHandler` subscription, `Linking` and `Platform.OS` are not modelled. The back handler is modelled with the `canExit` function it is given; the `iosExit` placeholder is overwritten by the first effect anyway. The console logging is not modelled either.
- Rendering and translation: layout, styles, icons and `t(...)` lookups are not modelled. Views are reduced to the values, label keys and placeholders they choose.
- HomeScreen wiring: the screen calls `useRefreshAllData()` with no argument (app/screens/HomeScreen.tsx:57), so the call site would fail. The coordinator is modelled over the fetch functions its signature lists, held as the hooks' stores.
- HomeScreen.Dashboard.Mount: the BTU and water hooks' own mount effects are modelled on their stores, but they are not composed into the screen's mount.
- WaterDetectorCard: the card's own `useWaterMeter` instance, and its mount/unmount while the screen's spinner shows, are not modelled. The card is rendered from a `WaterData` value.
- Js.ToFixedOnNullish: the TypeError text is the Hermes engine's wording; other engines word it differently.
- AuthenticationStore.ValidationErrorOf: lengths count code points (`char`), not UTF-16 code units, so `length < 6` can differ for text outside the Basic Multilingual Plane.
- NavigationUtilities.GetActiveRouteName: the index is an integer. A fractional index, which JavaScript would look up as a missing property, is not modelled.
- NavigationUtilities.NavigationPersistence.RestoreState: the `isMounted()` probe is a parameter; the awaits inside it are not interleaved with other work.
- JsValues.JsValue: proxies, cross-realm arrays and boxed primitives are not modelled. Symbols and functions carry only an identity.
- The demo navigator, the community, blank and settings screens, the theme, the i18n tables, `openLinkInBrowser` and `useIsMounted` are not part of this model.
