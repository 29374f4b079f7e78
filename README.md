# Verified model of the Spectra-Q inspection core

Spectra-Q is a factory quality-control dashboard. An external vision model classifies a
captured frame as PASS or REJECT. The page then merges that verdict with two sensor readings
into an inspection record, keeps the records in an in-memory history (newest first), and
recomputes the dashboard's aggregates from that history on every read.

This project models that decision logic in Dafny and proves what it promises:

- `record_merger.dfy`: the record merger. In a machine check, a temperature above 80 or a
  noise level above 90 forces a high-severity REJECT. Each breach appends an alert to the
  defects and to the reasoning. In product QC the sensors are ignored. The ticket status is
  derived from the final status. The merger is written twice: as the source runs it (mutable
  locals and pushes, `BuildRecordFromAnalysis`) and as a declarative function
  (`MergedRecord`). The method is proved equal to the function.
- `history_metrics.dfy`: the aggregates of the history. These are the
  pass/reject/open-issue counts, the pass rate, the histogram of rejected records' first
  defects (built by a loop over a dictionary, as the source's reduce does), and the trend
  series of the newest ten records in oldest-first order.
- `history_store.dfy`: the page state as a class. It holds the history, the unread-alert
  counter and the latest result, with the capture, resolve and assign handlers. Resolve and
  assign are map-by-id functions.
- `dashboard.dfy`: the analytics view's derived values. These are the last reading with
  defaults 45/60, the rising-trend watchdog, the rounded percentages, the peak temperature
  and the rounded mean noise.
- `qc_types.dfy`: the record and enum types. `numerals.dfy`: the decimal rendering of
  integers used inside alert texts and ids.

Inputs the page takes from the environment are parameters here: the random sensor readings,
the random id number, and the classifier's reply (`None` when the call failed). `Math.round`
is modelled exactly on integers as round-half-up of a rational (`RoundDiv`).

Three behaviours of the code are easy to misread, and the model states them as written:

- The trend watchdog compares the last sample with the one at index `length-3`, which is two
  positions before the last. `TrendRisingOnHistory` states this on the history: the newest
  record against the third newest.
- Resolve sets every record with the given id to RESOLVED, whatever its ticket status. A PASS
  record with an ARCHIVED ticket that shares the random id therefore also becomes RESOLVED.
  Only the incident list (src/components/IssuesView.tsx:104) shows the button for OPEN
  tickets alone. The model proves that no ticket is ever set back to OPEN.
- New records are prepended to the history. Resolve and assign rebuild the history array by
  id, keeping its length and order.

## Model

| member | source | states |
|---|---|---|
| `Numerals.NatToDecimal` | src/app/page.tsx:285 | the rendering of a reading is a non-empty digit string with no leading zero |
| `Numerals.IntToDecimal` | src/app/page.tsx:292 | negative readings render as '-' followed by the digits of the magnitude |
| `Numerals.ParseNatToDecimal` | src/app/page.tsx:310 | reading the digits back gives the number, so the rendering loses nothing |
| `Numerals.ParseIntToDecimal` | src/app/page.tsx:285 | a signed rendering parses back to the reading, so different readings give different alert texts |
| `RecordMerger.TempMessage` | src/app/page.tsx:285 | the temperature defect text is the fixed Thai lead "อุณหภูมิสูงผิดปกติ (", a signed decimal that reads back as the reading, then "°C)" |
| `RecordMerger.NoiseMessage` | src/app/page.tsx:292 | the noise defect text is the fixed lead "เสียงดังผิดปกติ (", a signed decimal that reads back as the reading, then "dB)" |
| `RecordMerger.AlertLine` | src/app/page.tsx:287 | the alert line is "⚠️ SYSTEM ALERT: " followed by the unchanged message |
| `RecordMerger.Join` | src/app/page.tsx:301 | `join`: "" for no elements, the element itself for one, first + separator + second for two |
| `RecordMerger.JoinSnoc` | src/app/page.tsx:301 | for more than one element the join is the join of all but the last, the separator, then the last; with the one-element case this fixes the join of every list |
| `RecordMerger.JoinEnds` | src/app/page.tsx:301 | the joined string starts with the first element and ends with the last |
| `RecordMerger.BreachCount` | src/app/page.tsx:281-296 | 0 to 2 breaches; 0 exactly when neither threshold is exceeded; always 0 in product QC |
| `RecordMerger.SensorDefects` | src/app/page.tsx:282-295 | one message per breached threshold; the temperature message first when it fires, the noise message last when it fires, so with the length the list is fixed |
| `RecordMerger.SensorAlerts` | src/app/page.tsx:282-295 | one alert line per breached threshold; the temperature alert line first when it fires, the noise alert line last when it fires |
| `RecordMerger.MergedReasoning` | src/app/page.tsx:299-302 | reasoning unchanged without alerts; otherwise the alert lines (temperature first, space-separated), a newline, then the classifier's reasoning, for each of the three alert combinations |
| `RecordMerger.MergedDefects` | src/app/page.tsx:298 | the classifier's defects are kept as a prefix, followed by the temperature message and then the noise message, each only if breached; length is the original plus the breach count |
| `RecordMerger.RecordId` | src/app/page.tsx:310 | id is the prefix, a dash, then digits that parse back to the random number |
| `RecordMerger.MergedRecord` | src/app/page.tsx:268-317 | sensor breach in a machine check forces REJECT/HIGH; without a breach the classifier's status and severity stand; product QC passes status, severity, defects and reasoning through verbatim; PASS only from a classifier PASS and a classifier REJECT stays REJECT; ticket OPEN iff REJECT, ARCHIVED iff PASS; inspector AUTO-CCTV; readings, type and id set; all other classifier fields copied; the record is well-formed |
| `RecordMerger.BuildRecordFromAnalysis` | src/app/page.tsx:268-317 | the imperative merger (mutable status/severity, pushes onto the two alert lists) yields exactly `MergedRecord` |
| `RecordMerger.ProductQcIgnoresSensors` | src/app/page.tsx:275-302 | in product QC two different sensor readings give records equal in every field except the two readings |
| `RecordMerger.SensorGateMonotone` | src/app/page.tsx:281-296 | higher readings never soften the verdict: a reject stays a reject, severity stays or becomes HIGH, breaches do not decrease |
| `RecordMerger.OverheatScenario` | src/app/page.tsx:281-288 | classifier PASS/LOW/no defects at 85 °C, 50 dB in a machine check gives REJECT/HIGH with the single temperature defect and an open ticket |
| `RecordMerger.ProductQcScenario` | src/app/page.tsx:275-304 | the same input in product QC stays PASS/LOW with no defects and an archived ticket |
| `HistoryMetrics.CountPassed` | src/app/page.tsx:104 | number of PASS records, at most the history length |
| `HistoryMetrics.CountRejected` | src/app/page.tsx:105 | number of REJECT records, at most the history length |
| `HistoryMetrics.CountOpenIssues` | src/app/page.tsx:106-108 | number of REJECT records with an open ticket, at most the history length |
| `HistoryMetrics.PassedPlusRejected` | src/app/page.tsx:103-105 | passed plus REJECT records equals total, so the page's `total - passed` is the number of rejects |
| `HistoryMetrics.OpenIssuesAtMostRejected` | src/app/page.tsx:105-108 | open issues never exceed rejects |
| `HistoryMetrics.ComputeMetrics` | src/app/page.tsx:103-108 | total is the length, passed + rejected = total, rejected counts the REJECT records, openIssues <= rejected |
| `HistoryMetrics.PassRate` | src/app/page.tsx:109 | 0 for an empty history, between 0 and 100, and exactly 100·passed/total otherwise |
| `HistoryMetrics.DefectCounts` | src/app/page.tsx:161-171 | keys are distinct; a defect is a key iff some REJECT record with defects has it first; each count is the number of such records; the counts over the keys sum to the number of such records |
| `HistoryMetrics.PointOf` | src/app/page.tsx:152-159 | a trend sample carries the record's capture time, temperature and noise level |
| `HistoryMetrics.OldestFirst` | src/app/page.tsx:151-159 | the reversed, mapped slice: same length, sample k comes from record length-1-k |
| `HistoryMetrics.ChartDataTemp` | src/app/page.tsx:149-160 | at most 10 samples, exactly min(10, length); sample k is record min(10, length)-1-k, so the newest ten in chronological order |
| `HistoryMetrics.PrependCounts` | src/app/page.tsx:408 | prepending a record raises each count by exactly the newcomer's contribution |
| `HistoryMetrics.PrependIsLastSample` | src/app/page.tsx:149-151 | after a prepend the newest record is the last trend sample |
| `HistoryStore.ResolveById` | src/app/page.tsx:537-542 | length and order kept; only the ticket field changes; records with the id become RESOLVED, others are untouched; no ticket becomes OPEN |
| `HistoryStore.AssignById` | src/app/page.tsx:546-552 | length and order kept; only the inspector field changes; records with the id get the technician, others are untouched |
| `HistoryStore.ResolveMetrics` | src/app/page.tsx:537-542 | resolving closes exactly the open issues carrying that id and leaves pass/reject counts unchanged |
| `HistoryStore.AssignMetrics` | src/app/page.tsx:546-552 | assigning a technician changes no count |
| `HistoryStore.UpdatesKeepTrend` | src/app/page.tsx:149-160 | resolve and assign leave the trend series unchanged |
| `HistoryStore.QcSession.constructor` | src/app/page.tsx:62-66 | empty history, zero notifications, no latest result |
| `HistoryStore.QcSession.Prepend` | src/app/page.tsx:408 | the record becomes history[0], the length grows by one, the rest of the state is unchanged, validity kept |
| `HistoryStore.QcSession.ProcessAnalysis` | src/app/page.tsx:396-417 | a failed classification changes nothing; a verdict is merged, becomes the latest result and the newest record, and a REJECT adds one notification |
| `HistoryStore.QcSession.ResolveIssue` | src/app/page.tsx:537-544 | the history becomes `ResolveById`; the counter drops by one only when positive, so it never goes negative |
| `HistoryStore.QcSession.AssignTech` | src/app/page.tsx:546-552 | the history becomes `AssignById`; counter and latest result unchanged |
| `Dashboard.RoundDiv` | src/components/DashboardView.tsx:73-76 | the result r is the nearest integer to n/d with halves rounded up: 2rd − d ≤ 2n < 2rd + d |
| `Dashboard.RoundDivUnique` | src/components/DashboardView.tsx:65-66 | only one integer satisfies that bound, so `RoundDiv` is `Math.round` of the exact ratio |
| `Dashboard.RoundDivBetween` | src/components/DashboardView.tsx:73-76 | a numerator between lo·d and hi·d rounds to a value between lo and hi |
| `Dashboard.LastTemp` | src/components/DashboardView.tsx:47-50 | temperature of the last sample, 45 for an empty series |
| `Dashboard.LastNoise` | src/components/DashboardView.tsx:51-54 | noise of the last sample, 60 for an empty series |
| `Dashboard.LatestReadingIsNewest` | src/components/DashboardView.tsx:47-54 | on the page's series the last reading is the newest record's temperature and noise, or 45/60 for an empty history |
| `Dashboard.IsTrendRising` | src/components/DashboardView.tsx:55-58 | rising iff the series has more than 3 samples and the latest reading is hotter than the sample at index length-3; never rising on 3 samples or fewer |
| `Dashboard.TrendRisingOnHistory` | src/components/DashboardView.tsx:55-58 | the watchdog is rising iff there are more than 3 records and the newest is hotter than the third newest (index length-3 of the series) |
| `Dashboard.WatchdogStatus` | src/components/DashboardView.tsx:60 | "Warning" iff the trend is rising, "Stable" iff it is not |
| `Dashboard.Percent` | src/components/DashboardView.tsx:65-66 | 0 when total is 0; otherwise the nearest integer to 100·part/total (halves up); between 0 and 100 when 0 ≤ part ≤ total |
| `Dashboard.RatesSum` | src/components/DashboardView.tsx:65-66 | the rounded pass and reject rates sum to 100, or to 101 exactly when the pass rate ends in .5 |
| `Dashboard.RatesInRange` | src/components/DashboardView.tsx:65-66 | on the page's counters both rates lie in 0..100 and are 0 for an empty history |
| `Dashboard.MaxTemp` | src/components/DashboardView.tsx:69 | at least every sample's temperature and equal to one of them |
| `Dashboard.PeakTemp` | src/components/DashboardView.tsx:67-70 | for a non-empty series, ≥ every temperature and equal to one; otherwise the last-reading fallback, 45 |
| `Dashboard.SumNoise` | src/components/DashboardView.tsx:74 | the noise total is 0 for an empty series and the first sample's noise plus the total of the rest otherwise, so summing from either end agrees |
| `Dashboard.SumNoiseBetween` | src/components/DashboardView.tsx:74 | noise readings in [lo, hi] give a sum in [lo·n, hi·n] |
| `Dashboard.AvgNoise` | src/components/DashboardView.tsx:71-77 | for a non-empty series, the nearest integer (halves up) to the mean noise; otherwise the last-reading fallback, 60 |
| `Dashboard.AvgNoiseBetween` | src/components/DashboardView.tsx:71-77 | the rounded mean lies between the smallest and largest noise reading |
| `Dashboard.PeakOnHistory` | src/components/DashboardView.tsx:67-70 | on the page's series the peak is ≥ the temperature of each of the newest ten records and equals one of them |

## Left out

- The external model calls, prompt building and JSON parsing (`src/app/actions.ts`) are not modelled. The classifier's reply enters as an already-parsed `Verdict`, or `None` for a failed call.
- A reply with a status or severity outside the enumerations, or with missing fields, cannot be expressed in the model. Extra JSON keys are not modelled either. The source does not validate the reply.
- PDF rendering and the report export route are out of scope: they go through a library the model cannot see, and the route does a disk write.
- Audio tones, speech synthesis, video-frame capture and the 3-second sampling timer are browser I/O and overlapping asynchronous calls. The model has no concurrency, so two classifications in flight cannot interleave.
- `Math.random` sensor readings, the random id number and the 1-second live-reading drift become parameters or are left out. Callers of `BuildRecordFromAnalysis` supply the id number, which is in 0..9999 in the source.
- Sensor readings are integers in the model. The source draws them with `Math.floor`, and a non-integral number would render differently in the alert texts.
- The pass rate's `toFixed(1)` string, `toLocaleTimeString` and confidence percentages are float and locale formatting. `PassRate` is the exact ratio. The trend sample's `time` carries the record's raw timestamp.
- `Math.round` of a floating-point quotient is modelled as exact round-half-up. Floating-point error on ratios that are not exactly representable is not modelled.
- Dashboard.Percent: the rate is rounded from the exact ratio, while the page rounds a floating-point product. For 23 of 40, `(23/40)*100` is 57.49999999999999 in JavaScript, so the page shows 57 where `Percent(23, 40)` is 58.
- Dashboard.RatesSum: the 101 case holds in exact arithmetic only. With 23 passed and 17 rejected of 40 the page's float rates are 57 and 43, which sum to 100, where the exact rates sum to 101.
- `noise || 0` in the mean noise is the identity here, because every sample carries an integer noise reading. A missing reading, which would count as 0, cannot occur in the model.
- The chat assistant (`handleSendMessage`, `handleAskManual`, its recent-logs context) and the production planner are forwarding shims around the external model.
- The JSX views only render state. The watchdog's two fixed message texts are left out with them.
- HistoryMetrics.DefectCounts: the keys are stated to be distinct and to cover exactly the counted defects. That they are in first-insertion order, the order `Object.keys` lists them in, is not stated. Integer-like defect strings, which `Object.keys` lists first, are not modelled. Inherited object keys such as `constructor` are not modelled either.
- HistoryStore.QcSession.ResolveIssue: the source tests the counter's value as the handler saw it and then decrements the current state. In one synchronous handler those are the same value, and the model uses that one value.
