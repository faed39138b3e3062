# Asbestos monitoring engine in Dafny

This project models the in-memory engine of the asbestos monitoring service.

- **Ingestion.** Sensors post readings of an airborne asbestos concentration (fibres per cubic centimetre), plus temperature, humidity and pressure. The engine stamps a reading that has no timestamp and stores it. It then checks the reading against two thresholds:
  - at 1.0 or above it raises a DANGER alert;
  - at 0.5 or above it raises a WARNING alert.
- **Analysis.** The message consumer is meant to run an analysis step on every published reading (see "## Left out" for why, as written, it never does). Once the reading's location has 50 stored readings:
  - the step fits a single anomaly model for the whole process, the first time only;
  - it scores the reading;
  - it computes a trend tag, a rolling average and a 3-point prediction over the location's last ten readings;
  - it appends one analysis result;
  - it raises an ANOMALY alert when the score is below -0.5.
- **Queries.** The read side lists the latest readings, alerts and analysis results, each with an optional filter and Python's `xs[-limit:]` slice. It also reports a per-location status built from each location's newest reading.

The modules are:

- `Types` (`types.dfy`): the records and constants.
- `Seqs` (`seqs.dfy`): the Python list idioms the code relies on. These are list comprehension filters, the `xs[-limit:]` slice with its negative-index rules, `sum`, and a dict filled in by a loop.
- `Store` (`store.dfy`): one location's view of the stored readings.
- `Thresholds` (`thresholds.dfy`): the alert tiers.
- `Analysis` (`analysis.dfy`): trend, average and prediction.
- `Engine` (`monitor.dfy`): the class `Monitor`. Its `seq` fields and its `modelTrained` flag stand for the module-level lists and the global flag, and its methods change them in place.
- `Queries` (`queries.dfy`): the four read endpoints. The status endpoint's loop is a method with a `while` loop.
- `Scenario` (`scenario.dfy`): end-to-end runs of the engine.

The anomaly model is a parameter `Scorer`: a function from the training rows and a feature vector to a score. The isolation forest is built with a fixed random seed, so its score depends only on those two inputs. Clock reads are parameters.

## Model

| member | source | states |
|---|---|---|
| Types.Stamp | asbestos-monitoring-system.py:98-99 | The stored reading keeps the posted timestamp when there is one, and otherwise takes the clock's time. Every other field is copied unchanged. |
| Seqs.Filter | asbestos-monitoring-system.py:175-176 | The list comprehension keeps exactly the elements that satisfy the condition. The result is never longer than the input, and every kept element comes from the input. |
| Seqs.FilterIsSubsequence | asbestos-monitoring-system.py:254 | A filtered list is the input list with some elements removed, and the order is preserved. |
| Seqs.FilterAppend | asbestos-monitoring-system.py:108 | Filtering a list after an append gives the old filtered list, plus the new element if it matches. |
| Seqs.TakeLast | asbestos-monitoring-system.py:258 | `xs[-limit:]` is a suffix of `xs`. It holds the last `min(limit, n)` entries for a positive limit, the whole list for a limit of 0, and the list minus its first `abs(limit)` entries for a negative limit. |
| Seqs.IsLatestIsUnique | asbestos-monitoring-system.py:258 | The suffix described by the slice rules is unique, so those rules pin down the query result. |
| Seqs.MapOfInsert | asbestos-monitoring-system.py:286-300 | Handling one more key in the status loop adds that key's entry when it has one and leaves the dict unchanged otherwise. |
| Store.ReadingsAt | asbestos-monitoring-system.py:175-176 | A location's readings are exactly the stored readings with that location, in storage order. |
| Store.ReadingsAtAppend | asbestos-monitoring-system.py:108 | Storing a reading extends its own location's readings by that reading and leaves every other location's readings unchanged. |
| Store.LocationHasReadings | asbestos-monitoring-system.py:283-289 | Every location in the set of locations has at least one reading, so the loop's `continue` is never taken. |
| Thresholds.Classify | asbestos-monitoring-system.py:293-298 | The tier is DANGER iff the level is at least 1.0, WARNING iff the level is in [0.5, 1.0), and SAFE iff the level is below 0.5. |
| Thresholds.ThresholdAlert | asbestos-monitoring-system.py:116-135 | There is no alert iff the level is below 0.5. Otherwise the severity is DANGER iff the level is at least 1.0 (both boundaries go to the higher tier), and the alert carries the reading's sensor, location, time and level. |
| Thresholds.ClassifyMonotone | asbestos-monitoring-system.py:293-298 | A higher level never gets a milder tier. |
| Thresholds.AlertAgreesWithTier | asbestos-monitoring-system.py:118-135 | The threshold alert and the status tier agree: no alert iff SAFE, WARNING iff WARNING, DANGER iff DANGER. |
| Thresholds.RampAlerts | asbestos-monitoring-system.py:118-135 | For levels 0.05 + 0.01·i: no alert below i = 45, WARNING for 45 ≤ i < 95, and DANGER from i = 95. |
| Analysis.ClassifyTrend | asbestos-monitoring-system.py:193-205 | The trend is "insufficient data" iff fewer than five levels are given. It fails (division by zero) iff exactly five are given. |
| Analysis.Summarize | asbestos-monitoring-system.py:193-218 | The result fails iff the window is empty or has exactly five readings. Otherwise it carries the location, time and score, the trend of the window's levels, their mean, and the mean of the last three (or the incoming level when there are fewer than three). |
| Analysis.WarmWindowIsSummarized | asbestos-monitoring-system.py:179-196 | Once a location has 50 readings its window holds exactly ten. So the summary never fails and the trend is never "insufficient data". |
| Analysis.TrendOfTen | asbestos-monitoring-system.py:195-203 | For ten levels: increasing iff mean(last 5) > 1.1·mean(first 5); otherwise decreasing iff mean(last 5) < 0.9·mean(first 5); otherwise stable. |
| Analysis.RecentAboveIsIncreasing | asbestos-monitoring-system.py:198-199 | If every one of the last five levels is above 1.1 times every one of the first five, the trend is increasing. |
| Analysis.RecentBelowIsDecreasing | asbestos-monitoring-system.py:200-201 | If the levels are non-negative and every one of the last five is below 0.9 times every one of the first five, the trend is decreasing. |
| Analysis.TrendIgnoresScale | asbestos-monitoring-system.py:193-205 | Scaling every level by the same positive factor leaves the trend unchanged. |
| Analysis.ConstantWindow | asbestos-monitoring-system.py:193-214 | Ten equal levels c give average = prediction = c. The trend is stable for c ≥ 0 and increasing for c < 0. |
| Analysis.SummaryWithinRange | asbestos-monitoring-system.py:208-214 | If every level of the window lies in [lo, hi], so do the average and the prediction. |
| Analysis.StepPatterns | asbestos-monitoring-system.py:198-201 | A step from 1 to 2 is increasing, and a step from 2 to 1 is decreasing. |
| Engine.TrainingSet | asbestos-monitoring-system.py:182-185 | The training rows are the features of the location's last min(100, n) readings, in order. |
| Engine.AnomalyAlerts | asbestos-monitoring-system.py:225-235 | At most one ANOMALY alert is raised, exactly when the score is below -0.5. It carries the reading's sensor, location and level and the clock's time. |
| Engine.Monitor.constructor | asbestos-monitoring-system.py:88-94 | The engine starts with empty lists and an untrained model. |
| Engine.Monitor.ProcessSensorData | asbestos-monitoring-system.py:96-112 | Ingestion appends exactly one stamped reading to the end of the store, with no deduplication. The alert log grows by that reading's threshold alert. Analysis results and the model are unchanged, and the engine invariant is kept. The caller's reading comes back with its missing timestamp filled in. |
| Engine.Monitor.CheckThresholds | asbestos-monitoring-system.py:114-141 | The alert log grows by exactly the threshold alert of the reading, or by nothing below 0.5. Nothing else changes. |
| Engine.Monitor.PerformAnalysis | asbestos-monitoring-system.py:162-235 | Below 50 readings for the location, nothing changes. Otherwise: the model becomes trained, and it is fitted on the location's training set only if it was untrained, whatever the location. The store is unchanged. One summary of the location's last ten readings is appended. The alert log grows by the ANOMALY alerts of the score. The engine invariant is kept. |
| Engine.SubmitTwice | asbestos-monitoring-system.py:96-141 | Posting the same reading object twice, at two clock times, stores two readings and raises two alerts when the level is at least 0.5, and none otherwise. Both stored readings carry the first call's time, or the posted time if there was one. |
| Queries.Upper | asbestos-monitoring-system.py:264 | `upper()` keeps the length and maps exactly the lower-case ASCII letters to upper case. |
| Queries.TagIsUpperCase | asbestos-monitoring-system.py:264 | The severity tags are already upper case, so querying with a tag matches that tag. |
| Queries.SeverityIgnoresCase | asbestos-monitoring-system.py:264 | The alerts query returns the same list for a severity and for its upper-cased spelling. |
| Queries.LatestMatchesIsSubsequence | asbestos-monitoring-system.py:253-258 | A filtered and sliced list keeps the list's order. |
| Queries.GetReadings | asbestos-monitoring-system.py:250-258 | The result is an order-preserving subsequence of the store. With a non-empty location, every entry is at that location. The result is the slice `[-limit:]` of the matches, or of the whole store when no location is given, with a default limit of 100. |
| Queries.GetAlerts | asbestos-monitoring-system.py:260-268 | The result is an order-preserving subsequence of the alert log. With a non-empty severity, every entry's tag equals the upper-cased severity. The result is the slice `[-limit:]` of those matches, or of the whole log, with a default limit of 50. |
| Queries.GetAnalysis | asbestos-monitoring-system.py:270-278 | The result is an order-preserving subsequence of the analysis results. With a non-empty location, every entry is for that location. The result is the slice `[-limit:]` of those matches, or of all results, with a default limit of 20. |
| Queries.DefaultLimits | asbestos-monitoring-system.py:251-278 | Without filters or a limit, the queries return the last 100 readings, the last 50 alerts and the last 20 analysis results (or all of them when there are fewer). |
| Queries.StoredReadingIsNewest | asbestos-monitoring-system.py:250-258 | For every non-negative limit, a reading just stored is the last entry its location's query returns (a limit of 0 returns all matches). For the empty location the query is unfiltered, and the reading is the last entry of the whole store. |
| Queries.LatestIndex | asbestos-monitoring-system.py:291 | `max(key=timestamp)` picks a reading with the greatest timestamp, and the first such reading. |
| Queries.LatestIndexIsUnique | asbestos-monitoring-system.py:291 | Only one index is both a maximum and earlier than every other maximum. |
| Queries.LocationStatusOf | asbestos-monitoring-system.py:291-304 | A location's status entry has the tier of its level. Its time is the greatest timestamp of the location's readings. Its level is that of the first reading, in storage order, with that time. |
| Queries.StatusMapCoversLocations | asbestos-monitoring-system.py:283-304 | The status has one entry for each location with a reading, and no other. Each entry's tier, level and time come from the first newest reading of that location, in storage order. |
| Queries.SensorsAtMostReadings | asbestos-monitoring-system.py:309-310 | There are never more distinct sensor ids than stored readings. |
| Queries.GetSystemStatus | asbestos-monitoring-system.py:280-312 | The loop over the set of locations builds exactly the status map, whatever order the set yields. The report is "operational", with the number of distinct sensors, the number of readings and the number of alerts. |
| Scenario.AnomalyAlertsHidden | asbestos-monitoring-system.py:264 | ANOMALY alerts never show up under a WARNING or DANGER severity filter. |
| Scenario.RampThresholdAlert | asbestos-monitoring-system.py:118-140 | A ramp reading below i = 95 adds one WARNING alert exactly when i ≥ 45, and never a DANGER alert. |
| Scenario.Ramp | asbestos-monitoring-system.py:96-235 | Sixty readings at one location with levels 0.05 + 0.01·i, each ingested and then analysed, give 11 analysis results, 15 WARNING alerts and no DANGER alert, whatever the anomaly scores. |

## Left out

- Kafka: the producer's `send`, the consumer and its message loop are transport. The model describes the intended pipeline: every `send` succeeds, and the analysis step is called directly on each stored reading, as if every published reading came back unchanged.
- The pipeline as written does not run. The startup hook (asbestos-monitoring-system.py:238-242) hands a fresh `BackgroundTasks` object to `start_kafka_consumer`, which only registers the consumer loop on it (line 153). Nothing ever runs that task, so `perform_analysis` is never called.
- Failed sends: the producer serialises with `json.dumps` (line 84), which rejects the `datetime` timestamp. So `send` raises before each append (lines 102-108, 139-140, 221-222), and as written nothing is ever stored. The model assumes the serialisation succeeds.
- FastAPI: routing, the startup hook, background tasks and the server entry point are web plumbing. Only the list logic inside the handlers is modelled, and the response envelopes (`{"readings": ...}` and so on) are dropped.
- IsolationForest: `fit` and `decision_function` are a foreign library. The score is the `Scorer` parameter applied to the recorded training rows (`trainedOn`).
- Logging, environment configuration and pydantic validation are left out. They are side effects or library code.
- Alert message texts are left out. Only the severity tag is modelled.
- Concurrency: the consumer and the request handlers share the module-level lists. The model runs every operation as a sequential call on one `Monitor`.
- Float rounding: levels, the 1.1 and 0.9 trend factors, and the averages are exact reals. Boundary cases may come out differently with IEEE doubles.
- Non-finite levels: NaN and ±infinity are not modelled, because levels are reals. In the code a NaN level fails both threshold tests (lines 118 and 127), so it raises no alert, and its location is reported SAFE (lines 293-298). A faulty sensor that reports NaN is therefore shown as safe. Both trend comparisons (lines 198 and 200) are false for NaN, so the trend is "stable". `Thresholds.Classify`'s SAFE clause holds only for the finite levels the model covers.
- The clock: `datetime.now()` becomes the parameters `now`, `analysisTime` and `alertTime`, and timestamps are integers.
- Incomparable timestamps: the model assumes every timestamp can be compared with every other. A posted timestamp with a UTC offset becomes an aware datetime, while `datetime.now()` (line 99) is naive. If both kinds occur at one location, `max` (line 291) raises and `/status/` fails; the model always reports an entry.
- Engine.Monitor.ProcessSensorData: the timestamp is written into the caller's reading object (line 99). The model returns that updated reading as `stamped`, not as a shared object. Aliasing beyond the caller's own handle is not captured.
- Queries.Upper: only ASCII letters are upper-cased. Python's Unicode case mapping is not modelled.
- Types.SAFE_THRESHOLD: the constant is kept but, as in the code, no branch uses it.
- Division by zero: the trend over exactly five readings and the average over an empty window would raise. `Summarize` returns `None` for them, and `Analysis.WarmWindowIsSummarized` shows that neither happens once a location has 50 readings.
- Per-location models: the code keeps one global `model_trained` flag and one model, so the first location to reach 50 readings trains it for every location. Per-location models are not modelled.
- Prediction fallback: when fewer than three readings exist, the code falls back to the incoming reading's level, and so does the model. The branch is unreachable after warm-up.
- Negative levels: the trend of a constant negative window is "increasing". `Analysis.ConstantWindow` states this; physical levels are never negative.
