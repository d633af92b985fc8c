# Rig and drilling telemetry core, in Dafny

The oil-and-gas rig dashboard is driven by two mock telemetry generators and two in-memory
stores. This project models that core and proves what it promises:

- the **rig-station generator** (`mocks/rigStationData.ts`): weighted random statuses, and the
  periodic tick. Each tick nudges every sensor, clamps it into its range and classifies it by
  the 5% / 15% band rule. It then escalates statuses from sensors to equipment to station (worst of
  the children, with sticky `maintenance` and `offline`) and perturbs the environment and
  production figures. The tick always starts from the seed stations.
- the **drilling generator** (`mocks/drillingData.ts`): sensor creation, trend and depth-log
  generation, and the drilling tick. A tick leaves non-drilling wells frozen. On a drilling well it
  advances depth and time, refreshes sixteen channels, and pushes each onto its trend buffer. It
  also recomputes the rate of penetration (ROP) and appends to five 96-point logs that move in
  lock-step.
- the **two stores** (`store/drillingStore.ts`, `store/rigStore.ts`): each is a class whose methods
  overwrite its fields, as the store actions do. The selection rule of `toggleParameter` and the
  map-by-id updates of alerts and tasks are stated on pure functions over the lists.
- the **display helpers**:
  - the relative-time text of an alert and its colour (`components/AlertItem.tsx`);
  - the live chart's timeframe filter, value range, axis labels and first/last statistics
    (`components/drilling/LiveChart.tsx`).

Conventions:

- Values are `real`, and timestamps are `int` milliseconds.
- The clock `new Date()` is a parameter `now`.
- Every `Math.random()` draw is a parameter:
  - the draws are grouped in records (`WellDraws`, `StationDraws`);
  - `IsDraw(r)` says `0 <= r < 1`.
- `Math.round(x)` is modelled exactly on reals as `Floor(x + 0.5)`, so
  `Math.round(x * 100) / 100` is `Round2(x)`.

The modules follow the program.

| module | file |
|---|---|
| `SensorModel` (shared clamp, band rule, rounding) | `sensor_model.dfy` |
| `RigTypes` | `rig_types.dfy` (from `types/index.ts`) |
| `DrillingTypes` | `drilling_types.dfy` (from `types/drilling.ts`) |
| `RigStationData` | `rig_station_data.dfy` |
| `DrillingData` | `drilling_data.dfy` |
| `DrillingStore` | `drilling_store.dfy` |
| `RigStore` | `rig_store.dfy` |
| `AlertItem` | `alert_item.dfy` |
| `LiveChart` | `live_chart.dfy` |
| `Wrappers`, `Sequences` (general helpers) | `common.dfy` |

Two behaviours of the code that a reader may not expect:

- **Trend length.** A drilling sensor's trend grows to 21 values. mocks/drillingData.ts:346-350
  drops the oldest entry only when the trend already holds more than 20, and then pushes, so a
  20-value trend becomes 21 and stays there (`DrillingData.TrendReachesBound`).
- **Rig update without a guard.** `updateSensorData` (store/rigStore.ts:53-57) has no
  empty-collection guard, unlike `updateWellData` (store/drillingStore.ts:55). It always
  replaces the stations with a fresh tick of the seed stations (`RigStore.Store.UpdateSensorData`).

## Model

| member | source | states |
|---|---|---|
| SensorModel.JsRound | mocks/rigStationData.ts:5 | `Math.round` gives an integer within half a unit of its argument, halves rounding up |
| SensorModel.Round2 | mocks/rigStationData.ts:581 | rounding to two decimals moves a value by at most 0.005 |
| SensorModel.Round1 | mocks/drillingData.ts:78 | rounding to one decimal moves a value by at most 0.05 |
| SensorModel.Round0 | mocks/drillingData.ts:443 | rounding to a whole number moves a value by at most 0.5 |
| SensorModel.Round2Monotone | mocks/rigStationData.ts:581 | rounding to two decimals never reverses the order of two values |
| SensorModel.Round1Monotone | mocks/drillingData.ts:459 | rounding to one decimal never reverses the order of two values |
| SensorModel.Round2KeepsCents | mocks/rigStationData.ts:581 | a value with at most two decimals is left unchanged by the rounding |
| SensorModel.Round1KeepsTenths | mocks/drillingData.ts:459 | a value with at most one decimal is left unchanged by the rounding |
| SensorModel.Round1IsTenths | mocks/drillingData.ts:459 | what rounding to one decimal returns has at most one decimal |
| SensorModel.Round1Separates | mocks/drillingData.ts:459 | values at least 0.1 apart stay strictly ordered after rounding to one decimal |
| SensorModel.Round2InRange | mocks/rigStationData.ts:581 | a value inside a range, rounded, lies inside the rounded range |
| SensorModel.CenteredDraw | mocks/drillingData.ts:340 | a draw centred on 0 (`(r - 0.5) * w`) lies within half the width either way |
| SensorModel.Clamp | mocks/rigStationData.ts:563 | `max(min, min(max, v))` lies in `[min, max]`, is `v` inside it, the near end outside it, and `min` when the range is inverted |
| SensorModel.ClampStaysNear | mocks/rigStationData.ts:560-563 | clamping a nudged in-range value never moves it further from where it started than the nudge |
| SensorModel.Classify | mocks/rigStationData.ts:565-577 | the band rule: a value at either end of its range is critical, and the midpoint of a non-empty range is normal (its full meaning is `ClassifyByEdgeDistance`) |
| SensorModel.ClassifyByEdgeDistance | mocks/rigStationData.ts:565-577 | status depends only on the distance to the nearer end: critical iff at most 5% of the range, warning iff more than 5% but at most 15%, normal otherwise |
| SensorModel.ClassifyMirror | mocks/rigStationData.ts:568-577 | the band rule treats both ends alike: mirrored values get the same status |
| SensorModel.ClassifyEmptyRange | mocks/rigStationData.ts:567-574 | a sensor whose min equals its max is always critical |
| SensorModel.ClassifyImprovesTowardsMiddle | mocks/rigStationData.ts:568-577 | moving from the low end towards the middle never worsens the status |
| SensorModel.ClassifyExamples | mocks/drillingData.ts:15-26 | 50 on [0, 100] is normal, 4 and 95 critical, 12 and 85 warning |
| Sequences.KeepLast | mocks/drillingData.ts:382 | `slice(-n)` keeps the last `n` elements in order, or all of them when there are fewer |
| RigStationData.PickWeighted | mocks/rigStationData.ts:12-18 | the accumulating loop returns the first status whose running weight total exceeds the draw, else the fallback (reference function `WeightedPick`) |
| RigStationData.RandomStatus | mocks/rigStationData.ts:9-19 | draws below 0.7 give normal, below 0.9 warning, below 1.0 critical; anything else falls back to normal |
| RigStationData.RandomEquipmentStatus | mocks/rigStationData.ts:22-32 | the cumulative weights 0.6, 0.75, 0.8, 0.95, 1.0 pick operational, maintenance, offline, warning, critical; otherwise operational |
| RigStationData.RandomValue | mocks/rigStationData.ts:4-6 | `randomValue`: a draw scaled into the interval and rounded to cents; `RandomValueInRange` and `RandomValueNear` state where it lies |
| RigStationData.RandomValueInRange | mocks/rigStationData.ts:4-6 | a random value between two bounds lies between the rounded bounds |
| RigStationData.RandomValueNear | mocks/rigStationData.ts:560 | a symmetric random nudge of bound `f` lies within `f` either way, up to the cent rounding |
| RigStationData.RigPerturbed | mocks/rigStationData.ts:559-563 | the nudged and clamped value lies in the sensor's `[min, max]` |
| RigStationData.UpdateRigSensor | mocks/rigStationData.ts:557-585 | only value, status and timestamp change; the stored value is the clamped nudge rounded to cents, the status is the band of the clamped nudge, and the stored value lies between the rounded bounds |
| RigStationData.UpdateRigSensorInBounds | mocks/rigStationData.ts:563-581 | when min and max have at most two decimals, the stored value lies in `[min, max]` |
| RigStationData.RigNudgeBounded | mocks/rigStationData.ts:559-563 | from an in-range value one tick moves a sensor by at most 5% of its range (plus 0.005) |
| RigStationData.Escalate | mocks/rigStationData.ts:588-598 | critical iff a child is critical; warning iff none critical and one warning; maintenance and offline kept otherwise; else operational |
| RigStationData.WorstIsMaximum | mocks/rigStationData.ts:589-590 | the worst rank is 2 iff some child has rank 2, and at least 1 iff some child has rank at least 1 |
| RigStationData.EquipmentStatusFrom | mocks/rigStationData.ts:587-598 | the equipment status from its new sensors by `Escalate`; `EquipmentStatusIsWorstOf` shows it is the worst sensor's status with the sticky overrides |
| RigStationData.StationStatusFrom | mocks/rigStationData.ts:607-618 | the station status from its new equipment by `Escalate`; `StationStatusIsWorstOf` shows it is the worst equipment's status with the sticky overrides |
| RigStationData.EquipmentStatusIsWorstOf | mocks/rigStationData.ts:587-598 | the equipment status equals the status of its worst sensor, with the sticky overrides (reference definition by severity ranks) |
| RigStationData.StationStatusIsWorstOf | mocks/rigStationData.ts:607-618 | the station status equals the status of its worst equipment, by the same rule |
| RigStationData.EscalateIsStable | mocks/rigStationData.ts:592-598 | escalating again over the same children changes nothing |
| RigStationData.UpdateEquipment | mocks/rigStationData.ts:556-605 | every sensor is updated in order, the status follows from the new sensors, all other fields are copied |
| RigStationData.UpdateEnvironment | mocks/rigStationData.ts:620-627 | each environmental field redrawn from its band around the old value; the bands are stated by `EnvironmentStaysInBands` |
| RigStationData.UpdateProduction | mocks/rigStationData.ts:629-635 | each production field redrawn from its band around the old value; the bands are stated by `ProductionStaysInBands` |
| RigStationData.EnvironmentStaysInBands | mocks/rigStationData.ts:620-627 | wind within ±10%, humidity and temperature ±5%, pressure ±1%, seismic activity in `[0, 1.5×]`, up to rounding |
| RigStationData.ProductionStaysInBands | mocks/rigStationData.ts:629-635 | oil, gas and water within ±5% and efficiency within ±2%, up to rounding |
| RigStationData.UpdateStation | mocks/rigStationData.ts:555-643 | every equipment is updated in order, the station status follows from it, environment and production are perturbed, the rest is copied |
| RigStationData.GenerateUpdatedSensorData | mocks/rigStationData.ts:554-647 | one tick of every seed station, in order, each with its own draws |
| RigStationData.GenerateKeepsShape | mocks/rigStationData.ts:555-643 | the number and order of stations, equipment and sensors are kept, and so are ids, names, units, bounds, location, crew and safety status |
| RigStationData.GenerateClampsAndClassifies | mocks/rigStationData.ts:557-585 | after a tick every sensor's status is the band of its clamped value, its value lies between the rounded bounds, and it is stamped `now` |
| RigStationData.GenerateEscalates | mocks/rigStationData.ts:587-618 | after a tick every equipment status and station status follows the escalation rule from the new children |
| DrillingData.TrendSeries | mocks/drillingData.ts:47-56 | the series the trend loop builds, as a reference; `TrendSeriesElements` states its length and entries and `GenerateTrendData` is proved equal to it |
| DrillingData.TrendSeriesElements | mocks/drillingData.ts:42-59 | the unshifted series has one entry per step, newest first, each the rounded walk at that step, inside the rounded range |
| DrillingData.GenerateTrendData | mocks/drillingData.ts:42-59 | exactly `points` values, the k-th being the rounded random walk after `points - k` clamped steps, each between the rounded bounds |
| DrillingData.DepthBack | mocks/drillingData.ts:75-77 | with draws in `[0, 1)`, the depth `i` quarter-hours back is between 0.5·i m and 2·i m shallower than the current depth |
| DrillingData.GenerateDepthLog | mocks/drillingData.ts:62-82 | both arrays have `points` entries; timestamps are 15 minutes apart ending at `now`; depths are the current depth minus the accumulated decreases, rounded; both increase strictly with the index |
| DrillingData.CreateDrillingSensor | mocks/drillingData.ts:5-39 | the given fields are kept, the value is not clamped, the status is the band rule; a given trend is kept, otherwise the 20 generated values are the rounded random walk from the value, the latest step first, inside the rounded range |
| DrillingData.DrillingPerturbed | mocks/drillingData.ts:338-343 | the nudged and clamped channel value lies in `[min, max]` |
| DrillingData.PushTrend | mocks/drillingData.ts:346-350 | the oldest value is dropped only when the trend holds more than 20; the new value is last and the rest is kept in order |
| DrillingData.TrendStaysBounded | mocks/drillingData.ts:346-350 | a trend of at most 21 values stays at most 21 under any number of pushes |
| DrillingData.TrendReachesBound | mocks/drillingData.ts:346-350 | enough pushes bring a trend to exactly 21 values, not 20 |
| DrillingData.UpdateSensor | mocks/drillingData.ts:337-372 | only value, status, timestamp and trend change; the stored value is the clamped nudge rounded to cents, the status is the band of the clamped nudge; the value lies between the rounded bounds and is pushed onto the trend |
| DrillingData.UpdateSensorInBounds | mocks/drillingData.ts:343-367 | when min and max have at most two decimals, the stored channel value lies in `[min, max]` |
| DrillingData.DrillingNudgeBounded | mocks/drillingData.ts:338-343 | from an in-range value one tick moves a channel by at most 1.5% of its range |
| DrillingData.AppendDepthLog | mocks/drillingData.ts:375-384 | push onto both depth-log arrays, then keep the last 96 when the depth array is longer; `AppendDepthLogWindow` and `AppendDepthLogEnds` state the result |
| DrillingData.AppendParameterLog | mocks/drillingData.ts:399-412 | push onto all three parameter-log arrays, then keep the last 96 when the values array is longer; `AppendParameterLogWindow` and `AppendParameterLogEnds` state the result |
| DrillingData.KeepLastAppend | mocks/drillingData.ts:380-384 | push then `slice(-96)` gives `min(n + 1, 96)` entries ending with the new one, earlier entries in their original order |
| DrillingData.AppendDepthLogWindow | mocks/drillingData.ts:375-384 | a depth-log append keeps both arrays in step and each is a window append of its new sample |
| DrillingData.AppendParameterLogWindow | mocks/drillingData.ts:399-412 | a parameter-log append keeps the three arrays in step and each is a window append of its new sample |
| DrillingData.AppendDepthLogEnds | mocks/drillingData.ts:375-384 | after an append the depth log is in step, one longer up to 96, and ends with the new depth at `now` |
| DrillingData.AppendParameterLogEnds | mocks/drillingData.ts:399-412 | after an append a parameter log is in step, one longer up to 96, and ends with the new sample, depth and time |
| DrillingData.RopEstimate | mocks/drillingData.ts:386-390 | the ROP formula, defined when the depth log has a last point at a time other than `now`; `RopEstimateIsRate` states its meaning |
| DrillingData.RopEstimateIsRate | mocks/drillingData.ts:386-390 | the ROP is the depth gained since the last depth-log point per hour elapsed since it, within the one-decimal rounding |
| DrillingData.DepthIncrease | mocks/drillingData.ts:328 | a tick drills between 0.1 m and 0.4 m (0.4 excluded) |
| DrillingData.NewDepth | mocks/drillingData.ts:328-329 | the new depth is between 0.1 m and 0.4 m (0.4 excluded) deeper than the current depth |
| DrillingData.WobSample | mocks/drillingData.ts:415 | the weight-on-bit log sample is within 1.05 of the current reading (a nudge under 1 plus the one-decimal rounding) |
| DrillingData.TorqueSample | mocks/drillingData.ts:429 | the torque log sample is within 1.55 of the current reading (a nudge under 1.5 plus the one-decimal rounding) |
| DrillingData.RpmSample | mocks/drillingData.ts:443 | the rotary-speed log sample is within 5.5 of the current reading (a nudge under 5 plus the whole-number rounding) |
| DrillingData.UpdateWell | mocks/drillingData.ts:322-325 | a well that is not drilling is returned unchanged |
| DrillingData.UpdateDrillingData | mocks/drillingData.ts:320-321 | every well ticks in order with its own draws and the same `now` |
| DrillingData.DrillingTickAdvances | mocks/drillingData.ts:327-334 | depth grows by 0.1 to 0.4 before rounding and strictly after it; elapsed time grows and remaining time shrinks by one minute, up to rounding; the well stays drilling |
| DrillingData.DrillingTickCopiesUntouched | mocks/drillingData.ts:457-484 | the identity, target, mud, casing, directional, formation, bit and fluid fields are copied unchanged |
| DrillingData.DrillingTickRop | mocks/drillingData.ts:386-397 | the ROP channel is the old one with its value replaced by the unclamped estimate and its timestamp by `now`; every other field is unchanged |
| DrillingData.DrillingTickRefreshesChannels | mocks/drillingData.ts:463-478 | each of the sixteen listed channels stores its clamped nudge rounded to cents, is reclassified by the band of the clamped nudge, and pushes the stored value to its trend |
| DrillingData.LogsTickedInStep | mocks/drillingData.ts:374-455 | logs that were in step at n points are in step at `min(n + 1, 96)` and each ends with the new depth, `now` and its sample |
| DrillingData.DrillingTickLogs | mocks/drillingData.ts:374-455 | the tick appends the new depth to the depth log and the ROP, WOB, torque and RPM samples to their logs |
| DrillingData.DrillingTickLogsInStep | mocks/drillingData.ts:374-455 | the five logs of a drilling well move in lock-step through the tick |
| DrillingData.DrillingTickStaysReady | mocks/drillingData.ts:386-390 | after a tick at `now` the ROP can be computed again at any later time other than `now` |
| DrillingStore.FirstWellId | store/drillingStore.ts:43 | the selected id is the first well's id, absent when there are no wells or that id is empty |
| DrillingStore.Without | store/drillingStore.ts:78-80 | the filter keeps exactly the other parameters, and changes nothing when the parameter is absent |
| DrillingStore.WithoutIsSubsequence | store/drillingStore.ts:78-80 | the filter keeps the remaining parameters in their original order |
| DrillingStore.NoDuplicatesWithout | store/drillingStore.ts:78-80 | filtering a selection without duplicates leaves none |
| DrillingStore.Toggled | store/drillingStore.ts:69-86 | the new selection of `toggleParameter`; `ToggledMembership`, `ToggledKeepsSelection` and `ToggleTwiceRestores` state what it does |
| DrillingStore.ToggledKeepsSelection | store/drillingStore.ts:69-86 | a non-empty selection without duplicates stays non-empty and without duplicates |
| DrillingStore.ToggledMembership | store/drillingStore.ts:71-84 | a selected parameter (not the only one) is removed and the others kept in order; an unselected one is appended at the end; the only one stays |
| DrillingStore.ToggleTwiceRestores | store/drillingStore.ts:69-86 | toggling an unselected parameter twice restores the selection |
| DrillingStore.Store.constructor | store/drillingStore.ts:25-31 | no wells, nothing selected, not loading, no error, last six hours, the four default parameters |
| DrillingStore.Store.BeginFetchWells | store/drillingStore.ts:34 | loading starts and the error is cleared; nothing else changes |
| DrillingStore.Store.FinishFetchWells | store/drillingStore.ts:40-44 | the wells are the seed, loading stops, the first well is selected |
| DrillingStore.Store.FetchWells | store/drillingStore.ts:33-51 | after a fetch the wells are the seed, the first well is selected, not loading, no error |
| DrillingStore.Store.UpdateWellData | store/drillingStore.ts:53-59 | nothing changes without wells; otherwise every well ticks; the other fields are kept |
| DrillingStore.Store.SelectWell | store/drillingStore.ts:61-63 | only the selected well changes |
| DrillingStore.Store.SetChartTimeframe | store/drillingStore.ts:65-67 | only the timeframe changes |
| DrillingStore.Store.ToggleParameter | store/drillingStore.ts:69-86 | the selection becomes the toggled selection and stays non-empty and without duplicates; nothing else changes |
| RigStore.FirstStationId | store/rigStore.ts:43 | the selected id is the first station's id, absent when there are none or that id is empty |
| RigStore.MarkRead | store/rigStore.ts:63-69 | same length and order; an alert becomes read iff its id matches or it was read; nothing else about any alert changes |
| RigStore.MarkReadLowersUnread | store/rigStore.ts:63-69 | the unread count drops by exactly the number of unread alerts with that id |
| RigStore.MarkReadIdempotent | store/rigStore.ts:63-69 | marking twice equals marking once |
| RigStore.MarkReadCommutes | store/rigStore.ts:63-69 | the order in which two alerts are marked does not matter |
| RigStore.MarkReadUnknownId | store/rigStore.ts:63-69 | an id that no alert has changes nothing |
| RigStore.MarkReadExample | store/rigStore.ts:65-67 | with one unread and one read alert, marking the unread one leaves none unread |
| RigStore.SetTaskStatus | store/rigStore.ts:71-77 | same length and order; matching tasks get the new status, which may be any status; nothing else changes |
| RigStore.SetTaskStatusLastWins | store/rigStore.ts:71-77 | setting a status twice keeps only the second |
| RigStore.SetTaskStatusSame | store/rigStore.ts:71-77 | setting a task to the status it has changes nothing, and so does an id no task has |
| RigStore.SetTaskStatusCommutes | store/rigStore.ts:71-77 | updates of two different tasks do not interfere |
| RigStore.Store.constructor | store/rigStore.ts:22-29 | no stations, alerts or tasks, nothing selected, not loading, no error |
| RigStore.Store.BeginFetchStations | store/rigStore.ts:32 | loading starts and the error is cleared; nothing else changes |
| RigStore.Store.FinishFetchStations | store/rigStore.ts:38-44 | stations, alerts and tasks are seeded together, loading stops, the first station is selected |
| RigStore.Store.FetchStations | store/rigStore.ts:31-51 | after a fetch everything is seeded, the first station is selected, not loading, no error |
| RigStore.Store.UpdateSensorData | store/rigStore.ts:53-57 | the stations become a fresh tick of the seed stations, whatever the store held, with no guard; nothing else changes |
| RigStore.Store.SelectStation | store/rigStore.ts:59-61 | only the selected station changes |
| RigStore.Store.MarkAlertAsRead | store/rigStore.ts:63-69 | the alerts become the marked alerts and the unread count drops accordingly; nothing else changes |
| RigStore.Store.UpdateMaintenanceTaskStatus | store/rigStore.ts:71-77 | the tasks become the updated tasks; nothing else changes |
| AlertItem.RelativeTimeOf | components/AlertItem.tsx:20-30 | under a minute (future times included) is "just now", then minutes under an hour, hours under a day, days otherwise |
| AlertItem.RelativeTimeCounts | components/AlertItem.tsx:21-30 | the nested floor divisions count whole minutes (1 to 59), whole hours (1 to 23) and whole days of the age |
| AlertItem.NatToString | components/AlertItem.tsx:24 | a count renders as a non-empty string of decimal digits |
| AlertItem.ParseNatToString | components/AlertItem.tsx:24 | the rendered digits read back as the count |
| AlertItem.RenderReadsBack | components/AlertItem.tsx:24-30 | the text is the count's digits followed by the unit letter and " ago", and both can be read back |
| AlertItem.Render | components/AlertItem.tsx:23-30 | the text of a bucket; `RenderReadsBack` shows the count and unit can be read back from it |
| AlertItem.FormatRelativeTime | components/AlertItem.tsx:17-31 | `formatRelativeTime`: the text for the age `now − timestamp`; the boundary lemmas below pin its outputs |
| AlertItem.FormatHourBoundary | components/AlertItem.tsx:21-27 | 59 minutes is "59m ago" and 60 minutes is "1h ago" |
| AlertItem.FormatDayBoundary | components/AlertItem.tsx:26-30 | 1439 minutes is "23h ago" and 1440 minutes is "1d ago" |
| AlertItem.FormatJustNow | components/AlertItem.tsx:20-23 | a future timestamp and one 59.999 s old are both "Just now" |
| AlertItem.AlertColor | components/AlertItem.tsx:46-56 | critical maps to danger, warning to warning and info to info, each iff |
| AlertItem.AlertColorInjective | components/AlertItem.tsx:46-56 | different alert types never share a colour |
| LiveChart.WindowMs | components/drilling/LiveChart.tsx:41-52 | every timeframe reaches a positive time back: one hour, six hours or one day |
| LiveChart.FilterSince | components/drilling/LiveChart.tsx:54 | a point is kept iff it is no older than the cutoff |
| LiveChart.FilterSinceIsSubsequence | components/drilling/LiveChart.tsx:54 | the kept points stay in their original order |
| LiveChart.FilterSinceNests | components/drilling/LiveChart.tsx:41-54 | a later cutoff keeps a subsequence of what an earlier cutoff keeps |
| LiveChart.FilterSinceAppend | components/drilling/LiveChart.tsx:54 | filtering a series with one more point filters the shorter series and then keeps the new point exactly when it is no older than the cutoff, so every copy of a point inside the window is kept |
| LiveChart.GetFilteredData | components/drilling/LiveChart.tsx:35-55 | `getFilteredData`; `GetFilteredDataKeepsWindow` states which points it keeps |
| LiveChart.GetFilteredDataKeepsWindow | components/drilling/LiveChart.tsx:35-55 | no data gives nothing; otherwise a point is kept iff it is inside the window, and the kept points keep their order (the copies of repeated points are counted by `FilterSinceAppend`) |
| LiveChart.TimeframesNest | components/drilling/LiveChart.tsx:41-54 | the last hour is part of the last six hours, which are part of the last day |
| LiveChart.MinValue | components/drilling/LiveChart.tsx:63 | `Math.min` over the values is one of them and no greater than any |
| LiveChart.MaxValue | components/drilling/LiveChart.tsx:64 | `Math.max` over the values is one of them and no less than any |
| LiveChart.CalculateRange | components/drilling/LiveChart.tsx:60-72 | no data gives (0, 100); otherwise the lower end is never below 0 |
| LiveChart.CalculateRangeWidens | components/drilling/LiveChart.tsx:66-69 | both ends move out by a tenth of the spread, the lower end stopping at 0; ordered non-negative bounds stay inside a range at most 1.2 times as wide |
| LiveChart.CalculateRangeCoversData | components/drilling/LiveChart.tsx:60-72 | without overrides, every non-negative value lies inside the chart's range |
| LiveChart.XStep | components/drilling/LiveChart.tsx:87 | the step between x-label indices is at least 1 |
| LiveChart.StridedShape | components/drilling/LiveChart.tsx:90-94 | the loop picks the multiples of the step below n, at most five, stopping early only past the data |
| LiveChart.XLabels | components/drilling/LiveChart.tsx:83-103 | the reference label indices; `XLabelsShape` states their shape and `XLabelIndices` is proved equal to them |
| LiveChart.XLabelIndices | components/drilling/LiveChart.tsx:83-103 | the loop and the last-point append produce exactly the reference indices `XLabels(n)` |
| LiveChart.XLabelsShape | components/drilling/LiveChart.tsx:83-103 | at most five labels, none iff no data, the first at index 0, all inside the data, multiples of the step, and the last point when fewer than five multiples fit |
| LiveChart.XLabelsExamples | components/drilling/LiveChart.tsx:87-100 | 3 points label 0, 1, 2, 2 (the last repeated); 16 points label 0, 4, 8, 12, 15; 17 points 0, 4, 8, 12, 16 |
| LiveChart.YLabelSpacing | components/drilling/LiveChart.tsx:113-114 | neighbouring y-labels are a quarter of the range apart |
| LiveChart.YLabelValues | components/drilling/LiveChart.tsx:108-119 | five values from max down to min, evenly spaced by a quarter of the range |
| LiveChart.CurrentStats | components/drilling/LiveChart.tsx:124-135 | no data gives (0, 0, up); otherwise the current value is the last, the change is non-negative, up iff last ≥ first, and first ± change gives back the last |
| LiveChart.CurrentStatsSinglePoint | components/drilling/LiveChart.tsx:124-135 | a single point has moved nowhere: change 0, counted as up |

## Left out

- IEEE floating point: values are exact reals. So `Math.round` never meets a representation error, and the weighted sums 0.7 + 0.2 + 0.1 are exactly 1.
- RigStationData.RandomStatus: because the weighted sums are exact, its `'normal'` fallback after the loop is reached only for a draw of 1 or more, which `Math.random()` never returns.
- The asynchronous part of `fetchWells` and `fetchStations` is left out. The one-second delay is not modelled; each fetch is split into the state change before the delay (`BeginFetch…`) and the one after it (`FinishFetch…`).
- The `catch` branches of both fetches are left out: assigning the seed data cannot throw, so they are unreachable. `error` is only ever cleared.
- The mock seed arrays (`mockRigStations`, `mockWellDrillingData`, `mockAlerts`, `mockMaintenanceTasks`) are constructor parameters of the stores, not transcribed literals.
- The rig store's `analyticsData` field is left out: it holds a static mock object that no action changes.
- `generateParameterLog` is not a separate member: it only builds a record, so it is the `ParameterLog` constructor. The per-parameter key (`rop`, `wob`, …) becomes the `values` field.
- Timers and polling, zustand's `create`/`set`, and React rendering, styles and the chart's pixel geometry are left out.
- `getAlertIcon` is left out, and so are the other alert-row visuals: they are JSX with the same switch as `getAlertColor`.
- AlertItem.AlertColor: the `default` branch ("anything else is info") cannot arise, because alert types are a closed datatype. The same holds for the `default` timeframe of `getFilteredData` (`LiveChart.WindowMs`).
- A drilling tick reads the clock once: the one `now` stands for the separate `new Date()` reads at mocks/drillingData.ts:369, 377, 388, 396, 404, 420, 434 and 448, which in the source can differ by milliseconds. So `LogsTickedInStep` and `DrillingTickStaysReady` state as equal timestamps that the source may write a few milliseconds apart. The rig tick is treated the same way (mocks/rigStationData.ts:583).
- Time formatting is not modelled: `toISOString`, `toLocaleTimeString` (`formatTime`) and the y-labels' `toFixed(1)`. Timestamps are integers, the x-labels are the indices of the points they label, and the y-labels are the unformatted values.
- The `!data` null check of `getFilteredData` and the `sensor.trend || []` default are not modelled: sequences are never null.
- DrillingData.UpdateWell: for a drilling well it requires `TickReady`, which `RopComputable` defines. It means the depth log has a last point whose time differs from `now`. Otherwise the source divides by zero or reads past the array and stores NaN or Infinity as the ROP; that case is not modelled.
- DrillingData.UpdateSensor: the trend's `shift()` and `push()` on a fresh copy are modelled as a value (`PushTrend`). The copy is never shared, so nothing about aliasing is lost.
- The thin presentational components (status badges, gauges, cards) are left out, and so are the theme store and the colour constants.
