# Alert engine of the solar/battery monitoring service

This project models the alert-evaluation engine of a small Flask service (`app.py`). The service
receives sensor readings from an ESP32 device: inverter load, power, solar voltage, current and
power, battery percentage and light intensity. For each reading it evaluates five alert rules,
merges the reading with the current weather and the alerts into one record, and forwards that
record to a telemetry sink.

The engine remembers two values between requests: the previous battery percentage and the
previous irradiance estimate (`light_intensity / 120`). Each request produces five independent
outputs:

- a battery alert (overcharge at 100 % or more, critically low below 15 %);
- a solar-underperformance alert from an if/elif chain over irradiance bands;
- a three-way inverter overload status;
- a sudden-sunlight-drop alert from the irradiance slope;
- a charging-anomaly alert from the battery-percentage slope.

Arithmetic is over Dafny's `real`, so the threshold comparisons are exact.

Modules:

- `Wrappers` (wrappers.dfy): `Option` and `Result`.
- `Telemetry` (telemetry.dfy): the `Reading` and `Weather` records and Python truthiness.
- `AlertRules` (rules.dfy): each rule as a function whose contract states what it decides.
  `Evaluation` runs them in the source's order, including the two places where the source raises.
- `Payload` (payload.dfy): `safe_first`, the weather extraction, and the comprehension that
  drops `None` values from the merged record.
- `Clock` (clock.dfy): the time gap between requests, both as written and corrected.
- `Engine` (engine.dfy): class `Monitor`. Its fields are the module-level globals that
  `generate_alerts` and `receive_data` assign. Its `prevTime` field is the corrected global of
  the finding below: the handler reads and writes it, and takes the gap before storing the new
  time. Its methods are proved against the functions above. The module also specifies how the
  remembered values evolve over a run of requests.

The model follows the code as written:

- A missing light intensity makes `light_intensity / 120` (app.py:26) raise. The request gets the
  400 reply and the remembered values are untouched. The rules are not silently suppressed.
- A missing solar power with a present solar voltage raises at app.py:40, after the battery alert
  has been set. The model keeps that partial alert record (`Outcome.Raised`). The `None > 0` at
  app.py:88 can never be reached, because app.py:40 raises first.
- The slope rules test the gap by truthiness (app.py:74, 86). Only a gap of exactly zero
  suppresses them; a negative gap does not (`AlertRules.NegativeGapStillAlerts`).
- Solar voltage and solar current are also tested by truthiness in the charging rule (app.py:82-83),
  so a zero value counts as missing. The solar rule tests only `is not None` (app.py:39).
- The strong band is `900 <= irradiance <= 1200`. Above 1200 no band matches and no solar alert is
  raised.
- The interval bounds 0.14 and 0.22 are accepted by both adjoining bands.

## Model

| member | source | states |
|---|---|---|
| AlertRules.BatteryRule | app.py:32-36 | overcharge exactly when the percentage is known and ≥ 100 (100 included), critically low exactly when < 15, no alert exactly when missing or in [15, 100) |
| AlertRules.SolarRule | app.py:42-57 | the if/elif chain gives the verdict of the band holding the irradiance: an alert for that band exactly when the ratio is outside its closed interval; below 150 an alert exactly when the ratio exceeds 0.05; nothing above 1200 |
| AlertRules.BandsDisjoint | app.py:42-52 | no irradiance lies in two bands, so the order of the chain never decides between bands |
| AlertRules.SharedBoundariesAccepted | app.py:46-52 | at every irradiance of the low or very-low band ratio 0.14 gives no alert, and at every irradiance of the moderate or low band ratio 0.22 gives none |
| AlertRules.BatteryMessageIdentifiesAlert | app.py:34-36 | the two battery messages differ, so the text sent names the alert |
| AlertRules.SolarMessageIdentifiesAlert | app.py:42-57 | the five solar messages differ, so the text sent names the band |
| AlertRules.MessagesDistinct | app.py:34-92 | no battery, solar, sunlight or charging message equals another rule's |
| AlertRules.StrongBandReportedAt950 | app.py:42-46 | at 950 W/m² and 250 W the strong band's alert is reported, even though 0.25 lies in the moderate interval |
| AlertRules.OverloadRule | app.py:60-71 | a status exactly when power and load are both known; Overload exactly when power > load, High Load Warning exactly when load·0.9 < power ≤ load, Load Normal otherwise; carries the power and load |
| AlertRules.SunlightRule | app.py:74-78 | alert exactly when a previous irradiance is known, the gap is non-zero and (irradiance − previous)/gap < −0.1; never without a previous irradiance or with a zero gap |
| AlertRules.NegativeGapStillAlerts | app.py:74-78 | a negative gap does not suppress the sunlight rule |
| AlertRules.ChargingRule | app.py:81-92 | alert exactly when solar voltage and current are non-zero and present, both battery percentages are known, the gap is non-zero, solar power > 0 and (battery − previous)/gap < 0.05; never without a previous percentage |
| AlertRules.Irradiance | app.py:26 | the irradiance estimate times 120 is the light intensity, and it is non-negative exactly when the light intensity is; app.py:165 stores the same value |
| AlertRules.Completes | app.py:26-40 | the condition under which neither app.py:26 nor app.py:40 raises; it has no contract of its own and is pinned by `AlertRules.Evaluation`, which raises exactly when it fails |
| AlertRules.Evaluation | app.py:19-92 | raises exactly when light intensity is missing, or solar voltage is present without solar power; on a raise only the battery alert may already be set, and none at all when light intensity is missing |
| AlertRules.CompletedAlertsAreTheRules | app.py:25-92 | a completed evaluation's five outputs are the five rules, each on its own inputs |
| AlertRules.NoSolarVoltageNoSolarAlert | app.py:39 | no solar alert when the solar voltage is missing |
| AlertRules.AboveStrongBandNoSolarAlert | app.py:42-57 | irradiance above 1200 never gives a solar alert |
| AlertRules.NoBaselineNoSlopeAlerts | app.py:74-92 | with no remembered values (the first call), or with a zero gap, neither slope alert fires |
| AlertRules.PreviousValuesOnlyAffectSlopeRules | app.py:31-71 | the remembered values change neither the battery, solar nor overload outputs, nor whether the evaluation raises |
| Engine.Step | app.py:161-165 | after a completed evaluation the remembered percentage is the reading's and the remembered irradiance is light_intensity/120, whatever alerts fired; after a raise nothing changes |
| Engine.RunWithoutCompletionKeepsState | app.py:161-165 | a run of requests none of which completes leaves the remembered values as they started |
| Engine.RunRemembersLastCompleted | app.py:161-165 | after any run of requests the remembered values are those of the last request that completed |
| Engine.NoSlopeAlertBeforeFirstCompletedRequest | app.py:74-92 | until a request completes from the initial state, neither slope alert can fire |
| Engine.FirstRequestNoSlopeAlerts | app.py:29-92 | corrected clock: the first request's zero gap suppresses both slope rules, whatever values are remembered |
| Engine.Monitor.constructor | app.py:8-15 | all remembered values, alerts and the stored record start empty |
| Engine.Monitor.GenerateAlerts | app.py:19-92 | clears the five alert globals and assigns them as `Evaluation` says, returning the error where the source raises |
| Engine.Monitor.CheckBattery | app.py:32-36 | sets the battery alert as `BatteryRule` says |
| Engine.Monitor.CheckSolar | app.py:40-57 | sets the solar alert as `SolarRule` says for ratio solar_power/1000 |
| Engine.Monitor.CheckOverload | app.py:60-71 | sets the overload status as `OverloadRule` says |
| Engine.Monitor.CheckSunlight | app.py:74-78 | sets the sunlight alert from the remembered irradiance as `SunlightRule` says |
| Engine.Monitor.CheckCharging | app.py:81-92 | sets the charging alert from the remembered percentage as `ChargingRule` says |
| Engine.Monitor.Evaluate | app.py:161-165 | runs the evaluation, then overwrites the remembered values with the reading's (new state = `Step` of the old) and changes nothing else; on an error they stay unchanged |
| Engine.Monitor.Receive | app.py:154-205 | corrected clock: takes the gap since the stored time and then stores the request time; evaluates with that gap; when the evaluation raises, returns its failure and leaves the stored record unchanged; otherwise stores the merged record, and returns it exactly when the post to the sink returned, the sink failure otherwise |
| Payload.SafeFirst | app.py:98-100 | the first element of a non-empty list, nothing for an empty or missing list |
| Payload.SafeFirstOfCons | app.py:98-100 | the element put at the front of a list is its safe first element |
| Payload.Series | app.py:114-117 | `hourly.get(name, [])`, a missing series reading as empty; no contract of its own, pinned through `Payload.FetchWeather` and `Payload.FetchWeatherTakesCurrentHour` |
| Payload.FetchWeather | app.py:113-120 | each weather value is the safe first element of its series, a missing series counting as empty; a failed request clears all four |
| Payload.FetchWeatherTakesCurrentHour | app.py:113-117 | a response whose four series start with values yields exactly those values |
| Payload.DropMissing | app.py:168-199 | the record holds exactly the keys whose value is present, each with its value unchanged |
| Payload.DropMissingOfLift | app.py:168-199 | dropping from a dict whose values are all present gives that dict back |
| Payload.DropMissingIdempotent | app.py:168-199 | a record with its missing values dropped has nothing more to drop |
| Payload.NamesDistinct | app.py:170-196 | the 26 key names of the dict literal are pairwise distinct, so no two entries of the record share a name |
| Payload.Field | app.py:170-196 | the dict literal's value for each key; no contract of its own, pinned key by key by `Payload.AlertValuesAreTheAlerts` and the four `…Carry…` lemmas through `Payload.BuildAt` |
| Payload.Fields | app.py:170-196 | the dict literal with all 26 keys; no contract of its own, pinned by `Payload.BuildAt` |
| Payload.Build | app.py:168-199 | the comprehension over the dict literal; no contract of its own, pinned by `Payload.BuildAt`, which states it key by key, and by `Payload.DropMissing` |
| Payload.BuildAt | app.py:168-199 | key by key, the merged record holds a key exactly when the dict literal's value for it is present, with that value |
| Payload.AlertKeysPresentExactlyWhenRaised | app.py:192-196 | each alert key is in the record exactly when that alert was raised |
| Payload.AlertValuesAreTheAlerts | app.py:192-196 | each of the five raised alerts, and the overload status, is sent as computed |
| Payload.InverterKeysCarryReading | app.py:171-177 | each of the seven inverter keys is present exactly when its reading value is known, and then holds it unchanged |
| Payload.SolarKeysCarryReading | app.py:178-183 | each of the six solar, battery and light keys is present exactly when its reading value is known, and then holds it unchanged |
| Payload.WeatherKeysCarryWeather | app.py:184-187 | each of the four weather keys is present exactly when its weather value is known, and then holds it unchanged |
| Payload.DeviceKeysCarryReading | app.py:188-191 | the device address, latitude, longitude and room are present exactly when known, and then hold them unchanged |
| Payload.WeatherFailureDropsOnlyWeather | app.py:118-120 | a failed weather fetch removes only weather keys and leaves every other entry of the record as it is |
| Clock.StoredTimeAfterRequestAsWritten | app.py:155 | as written: the assignment binds a local, so the module-level time is left as it was; no contract of its own, pinned by `Clock.AsWrittenEveryRequestRaises` |
| Clock.TimegapAsWritten | app.py:29 | the gap exists exactly when a previous time is stored, and is then the time elapsed since it |
| Clock.AsWrittenEveryRequestRaises | app.py:155 | as written, the stored time stays missing after any number of requests, so the gap computation raises on every request |
| Clock.StoredTimeAfterRequest | app.py:155 | corrected: the stored time after a request is that request's time |
| Clock.Timegap | app.py:29 | corrected: the gap is the time since the stored time, and zero on the first request |
| Clock.GapIsIntervalSincePreviousRequest | app.py:29 | corrected: every gap after the first is the interval between consecutive requests |
| Clock.FirstGapIsZero | app.py:29 | corrected: the first request's gap is zero |

## Findings

| source | as written | input that shows it | evidently intended | confidence | as-written member | corrected member |
|---|---|---|---|---|---|---|
| app.py:155 | `prev_time = time.time()` binds a local, because `prev_time` is missing from the `global` lines at app.py:126-130. The module-level `prev_time` stays `None`, so `time.time() - prev_time` at app.py:29 raises a TypeError. Every POST gets the 400 reply, and lines 164-199 are never reached. Even with the `global`, line 155 runs before line 161, so the gap would measure the weather fetch. | any POST whose reading has a light intensity, for example the very first one | the gap is the seconds since the previous request, taken before the stored time is overwritten; the first request has gap zero | high (not executed) | Clock.AsWrittenEveryRequestRaises | Clock.Timegap |

## Left out

- HTTP plumbing: the Flask routes, JSON request parsing, the reply bodies and status codes
  (app.py:124-152, 207-228). An `Err` result stands for the 400 reply of the `except` at
  app.py:219-221. The home route's read-back is the `payload` field itself.
- The Open-Meteo request (app.py:106-111) is left out. `Payload.FetchWeather` takes the decoded
  `hourly` object, or `None` for any failure of the request or of decoding it.
- Engine.Monitor.Receive: the ThingsBoard POST (app.py:202-205) is a foreign HTTP call. Only whether it returned
  is modelled, as the `delivered` parameter; the URL, the token, the five-second timeout and the
  status code it returns are not.
- Wall-clock time (app.py:29, 155) becomes the `now` parameter of `Engine.Monitor.Receive`, or the
  gap parameter of `Evaluate`.
- The `:.2f` formatting of the overload strings (app.py:67-71) is not modelled. The status is a
  datatype carrying the power and the load.
- Alert values in the record are the alert datatypes. Their message strings are
  `AlertRules.BatteryMessage`, `SolarMessage`, `SunlightMessage` and `ChargingMessage`.
- IEEE floating-point rounding is not modelled: the arithmetic is exact over `real`.
- JSON values of the wrong type (a string where a number is expected) are not modelled. The
  exceptions they would raise are not modelled either; every numeric field is a real or missing.
- The series elements of the forecast are numbers; a JSON `null` element inside a series is not
  modelled.
- The reading and weather globals (app.py:9-13), which the handler assigns at app.py:135-152 and
  in `fetch_weather`, are not kept as fields. They are reassigned on every request before use, so
  the model passes them as parameters.
- `print` diagnostics and the `app.run` entry point (app.py:119, 220, 232-233) are left out.
- Concurrency is left out. The globals are unsynchronised; the model has a single sequential
  caller.
