# Chronos Notes: keystroke capture and risk scoring, in Dafny

Chronos Notes is a note-taking web app that records how its user types and
shows a risk dashboard. This project models the four parts of it that compute
something, and proves properties of them:

- **Risk arithmetic** (`RiskMath.dfy`, from `utils/riskMath.ts`). It holds the
  weight table and the clamped min-max `normalize`. It computes the contextual
  composite `CP = 0.4*IP + 0.35*GEO + 0.25*BT` and the total risk
  `R = 0.25*A + 0.30*CP + 0.30*B + 0.15*S`. From `R` it picks a label, colour
  and background in one of three bands, with cut points 0.3 and 0.6. The raw
  readings, which the source draws with `Math.random()`, are a parameter.
- **Keystroke capture** (`KeystrokeLogger.dfy`, from
  `hooks/useKeystrokeLogger.ts`). The class `Logger` keeps the two pieces of
  state the hook keeps, and its three handlers update them in place:
  - `activeKeys` maps a physical key code to its press time;
  - `keystrokeLog` lists the completed keystrokes, each with its dwell time.

  `Step` and `Run` give the same transitions on values. The lemmas about whole
  event sequences are stated with them. The browser clock is the `now`
  parameter of each handler.
- **Risk dashboard** (`RiskDashboard.dfy`, from
  `components/RiskDashboard.tsx`). The class `Dashboard` holds the current
  metrics and a history of at most ten risk points. A refresh pushes one point
  and drops the oldest when the history is full. The bar-chart and pie-chart
  data are the weighted terms of the risk formula, so they add back up to the
  total and to `CP`.
- **Keystroke chart data** (`KeystrokeChart.dfy`, from
  `components/KeystrokeChart.tsx`). The input is a set of per-key timing
  tables: the average, the recent session and each historical session. The
  output has one chart point per single lower-case letter key, in ascending
  order, plus the names `session_0 … session_{n-1}` of the historical series.
  `ChartDataOf` states the result as a value. `TransformChart`, `MapKeys`,
  `TransformKey` and `AddSessionFields` compute it with loops, as the
  component's `map` and `forEach` do, and are proved equal to it.

`Wrappers.dfy` holds the `Option` type, which stands for JavaScript's `null`.

Three behaviours of these files are easy to miss, and the model keeps them:

- the logger computes dwell time only, and does not clamp it;
- `clearLog` empties the log but does not release held keys;
- the risk formula has no sensitivity term.

## Model

| member | source | states |
|---|---|---|
| `RiskMath.WeightsConvex` | utils/riskMath.ts:2-12 | The four top-level weights sum to 1, the three contextual sub-weights sum to 1, and all seven are non-negative. |
| `RiskMath.Normalize` | utils/riskMath.ts:15-17 | For min < max the result lies in [0,1]. A value at or below min gives 0, a value at or above max gives 1, and in between the result is (val-min)/(max-min). |
| `RiskMath.NormalizeMonotone` | utils/riskMath.ts:15-17 | Normalisation is non-decreasing in the value. |
| `RiskMath.NormalizeIdempotent` | utils/riskMath.ts:15-17 | Normalising an already normalised value over the range [0,1] returns it unchanged. |
| `RiskMath.Contextual` | utils/riskMath.ts:39-41 | CP is a convex combination: in [0,1] when IP, GEO and BT are, and equal to their common value when all three agree. |
| `RiskMath.Total` | utils/riskMath.ts:43-49 | The total risk is a convex combination: in [0,1] when A, CP, B and S are, and equal to their common value when all four agree. |
| `RiskMath.NormalizedScores` | utils/riskMath.ts:31-41 | All six normalised factors and CP lie in [0,1], and CP is the weighted combination of IP, GEO and BT. |
| `RiskMath.BandOf` | utils/riskMath.ts:55-57 | The band is Low iff R < 0.3, Medium iff 0.3 ≤ R < 0.6, and High iff R ≥ 0.6. |
| `RiskMath.CalculateRisk` | utils/riskMath.ts:20-58 | The result echoes the raw input. Its total score and CP lie in [0,1], and the total is R over the normalised scores. |
| `RiskMath.Label` | utils/riskMath.ts:55 | The label is the label text of the total's band (`BandOf`). |
| `RiskMath.Color` | utils/riskMath.ts:56 | The text colour is the colour class of the total's band. |
| `RiskMath.Bg` | utils/riskMath.ts:57 | The background is the background class of the total's band. |
| `RiskMath.LabelBands` | utils/riskMath.ts:55 | The label is "Low Risk", "Medium Risk" or "High Risk" exactly when the total falls in the matching band (both directions). |
| `RiskMath.PresentationAgrees` | utils/riskMath.ts:55-57 | Label, text colour and background always name the same band. |
| `RiskMath.ContextualMonotone` | utils/riskMath.ts:41 | CP is non-decreasing in each of IP, GEO and BT. |
| `RiskMath.TotalMonotone` | utils/riskMath.ts:45-49 | The total is non-decreasing in each of A, CP, B and S. |
| `RiskMath.RiskMonotone` | utils/riskMath.ts:31-49 | Raising any raw reading never lowers any factor score nor the total score. |
| `RiskMath.AllAtMinimum` | utils/riskMath.ts:32-55 | With every raw reading at or below its range minimum, the total is 0 and the label is "Low Risk". |
| `RiskMath.AllAtMaximum` | utils/riskMath.ts:32-55 | With every raw reading at or above its range maximum, the total is 1 and the label is "High Risk". |
| `RiskMath.SimulatedRangeCap` | utils/riskMath.ts:27-49 | The simulated draw gives at most 4 auth failures, so A ≤ 0.8 and the total is at most 0.95. |
| `KeystrokeLogger.Logger.constructor` | hooks/useKeystrokeLogger.ts:13-17 | The hook starts with no held keys and an empty log. |
| `KeystrokeLogger.Logger.HandleKeyDown` | hooks/useKeystrokeLogger.ts:19-25 | A held code keeps its start time. A free code is recorded with the given time. The log is unchanged. The new state is `Step` of the old one. |
| `KeystrokeLogger.Logger.HandleKeyUp` | hooks/useKeystrokeLogger.ts:27-48 | With a truthy start time, one record (down, up, dwell = up - down) is appended and the code is released. Otherwise nothing changes. The new state is `Step` of the old one. |
| `KeystrokeLogger.Logger.ClearLog` | hooks/useKeystrokeLogger.ts:51 | The log becomes empty and the held keys are unchanged. |
| `KeystrokeLogger.Step` | hooks/useKeystrokeLogger.ts:19-51 | One event: apart from clearLog the log keeps its old records as a prefix and gains at most one. A key-down adds only its own code, a key-up adds none, and a code that stays held keeps its start time. The single-event lemmas below give each case exactly. |
| `KeystrokeLogger.Run` | hooks/useKeystrokeLogger.ts:19-51 | Events handled in order. Without clearLog the old log stays a prefix; `LogGrowsByCompletions` gives the exact growth. |
| `KeystrokeLogger.KeyDownWhileHeld` | hooks/useKeystrokeLogger.ts:20-21 | A key-down on a held code leaves the whole state unchanged. |
| `KeystrokeLogger.KeyDownRecords` | hooks/useKeystrokeLogger.ts:23-24 | A key-down on a free code adds exactly that code with the given time. Every other code keeps its time, and the log is unchanged. |
| `KeystrokeLogger.KeyUpWithoutStart` | hooks/useKeystrokeLogger.ts:28-30 | A key-up whose code is missing or has start time 0 changes nothing. A code with start time 0 stays held. |
| `KeystrokeLogger.KeyUpCompletes` | hooks/useKeystrokeLogger.ts:30-46 | A successful key-up appends exactly one record at the end and keeps all earlier records. It releases that code only, and every other held code keeps its start time. |
| `KeystrokeLogger.ClearLogKeepsHeld` | hooks/useKeystrokeLogger.ts:51 | clearLog gives an empty log and the same held-key map. |
| `KeystrokeLogger.LogGrowsByCompletions` | hooks/useKeystrokeLogger.ts:43 | With no clearLog, the log grows by exactly one record per successful key-up, and the old log stays as its prefix. |
| `KeystrokeLogger.LogCountsSinceLastClear` | hooks/useKeystrokeLogger.ts:43-51 | After the last clearLog, the log length equals the number of successful key-ups since then. clearLog leaves the held keys as they were. |
| `KeystrokeLogger.ZeroStartStaysHeld` | hooks/useKeystrokeLogger.ts:19-30 | A code whose recorded start time is 0 stays held with time 0 through any sequence of events. |
| `KeystrokeLogger.DwellNonNegative` | hooks/useKeystrokeLogger.ts:31-32 | If the clock never goes back, no start time is later than the clock, and all logged dwell times are ≥ 0, then all dwell times stay ≥ 0 after any run. |
| `KeystrokeLogger.FreshLoggerDwellNonNegative` | hooks/useKeystrokeLogger.ts:13-32 | From the initial empty state, a clock that never goes back yields only non-negative dwell times. |
| `RiskDashboard.KeepLast` | components/RiskDashboard.tsx:26 | `slice(-n)` gives the last min(len, n) elements, as a suffix of the input. |
| `RiskDashboard.NextHistory` | components/RiskDashboard.tsx:24-26 | After one push-and-trim the history has between 1 and 10 points and ends with the new point; `NextHistoryShape` gives the exact shape. |
| `RiskDashboard.NextHistoryShape` | components/RiskDashboard.tsx:23-27 | One refresh makes the length min(len+1, 10) and puts the new point last. Nothing is dropped below 10; at 10, exactly the oldest point is dropped and the rest keep their order. |
| `RiskDashboard.ReplayIsLastTen` | components/RiskDashboard.tsx:18-27 | After any run of refreshes, the history is the last ten of the old history followed by all new points. |
| `RiskDashboard.HistoryBounded` | components/RiskDashboard.tsx:15-26 | Starting from the empty history, n refreshes leave min(n, 10) points. |
| `RiskDashboard.Dashboard.constructor` | components/RiskDashboard.tsx:14-15 | The dashboard starts with null metrics and an empty history. |
| `RiskDashboard.Dashboard.RefreshAnalysis` | components/RiskDashboard.tsx:18-28 | The metrics become the fresh calculation, and the history becomes the old one pushed with (time, totalScore) and cut to ten. It keeps the invariant: at most ten points, each risk in [0,1], the last equal to the current total. |
| `RiskDashboard.ContributionData` | components/RiskDashboard.tsx:41-46 | Four bars whose values sum to R of the scores. When the scores lie in [0,1], each bar lies between 0 and its weight. |
| `RiskDashboard.ContextualData` | components/RiskDashboard.tsx:48-52 | Three slices whose values sum to CP of the sub-scores, each non-negative when the sub-scores lie in [0,1]. |
| `RiskDashboard.ContributionAddsUp` | components/RiskDashboard.tsx:41-46 | The four bars sum to totalScore, and each lies between 0 and its weight. |
| `RiskDashboard.ContextualAddsUp` | components/RiskDashboard.tsx:48-52 | The three pie slices sum to CP and are non-negative. |
| `KeystrokeChart.HistoricalKeys` | components/KeystrokeChart.tsx:26 | The flattened keys are exactly those of some historical session. |
| `KeystrokeChart.AllKeys` | components/KeystrokeChart.tsx:23-27 | The key set holds exactly the keys of `average`, of `recent` and of any historical session. |
| `KeystrokeChart.IsLetterKey` | components/KeystrokeChart.tsx:30 | The filter test: length 1 and a letter from a to z. It has no contract of its own; `SortedKeys` and `ChartKeys` state what passes it. |
| `KeystrokeChart.LetterKeys` | components/KeystrokeChart.tsx:29-30 | Every filtered key is in the key set and passes the filter, and there are at most 26 of them. |
| `KeystrokeChart.LettersFrom` | components/KeystrokeChart.tsx:29-31 | The listing holds exactly the single-letter keys from the given letter on, and is strictly ascending. |
| `KeystrokeChart.SortedKeys` | components/KeystrokeChart.tsx:23-31 | `sortedKeys` holds exactly the distinct single lower-case letter keys of the union, in strictly ascending string order. |
| `KeystrokeChart.AscendingUnique` | components/KeystrokeChart.tsx:31 | Two strictly ascending sequences with the same elements are equal, so any correct sort of the filtered set gives `sortedKeys`. |
| `KeystrokeChart.SessionKey` | components/KeystrokeChart.tsx:41 | `session_${i}` starts with "session_", and the rest reads back as i. |
| `KeystrokeChart.SessionKeys` | components/KeystrokeChart.tsx:40-43 | The n series names of the forEach are pairwise distinct. |
| `KeystrokeChart.SessionKeysDistinct` | components/KeystrokeChart.tsx:41 | `session_${i}` names differ for different i. |
| `KeystrokeChart.OrNull` | components/KeystrokeChart.tsx:37-42 | The or-null rule never gives 0. It gives the table's value when that is present and non-zero, and null otherwise. |
| `KeystrokeChart.PointFor` | components/KeystrokeChart.tsx:36-45 | The point for a key carries that key and one session field per historical session; `ChartPoints` states each field's value. |
| `KeystrokeChart.PointsFor` | components/KeystrokeChart.tsx:35-46 | One point per key, in the keys' order; `ChartDataOf` and `MapKeys` state each point. |
| `KeystrokeChart.ChartDataOf` | components/KeystrokeChart.tsx:20-48 | Null data gives an empty chart. Otherwise there is one point per letter key, as many as there are distinct letter keys, and point i is the point built for the i-th sorted key. |
| `KeystrokeChart.NullGivesEmpty` | components/KeystrokeChart.tsx:21 | Null data yields no points and no series names. |
| `KeystrokeChart.ChartKeys` | components/KeystrokeChart.tsx:23-31 | The point keys are exactly the single-letter keys found in average, recent or any historical session, in strictly ascending order. |
| `KeystrokeChart.ChartPoints` | components/KeystrokeChart.tsx:35-45 | `avg`, `recent` and `session_j` hold the table's value when it is present and non-zero, and null otherwise. There is one session field per historical session. |
| `KeystrokeChart.ChartSeriesNames` | components/KeystrokeChart.tsx:33-43 | When some key survives the filter, the series names are session_0 … session_{n-1}, all distinct. Otherwise there are none. |
| `KeystrokeChart.PlaceholderWhenNoLetters` | components/KeystrokeChart.tsx:51 | The placeholder shows iff the data is null or holds no single-letter key. |
| `KeystrokeChart.AddSessionFields` | components/KeystrokeChart.tsx:40-44 | The forEach sets every `session_i` field of the point by the or-null rule (missing or 0 gives null). It pushes session_0 … session_{n-1} exactly when the key is the first sorted key. |
| `KeystrokeChart.TransformKey` | components/KeystrokeChart.tsx:35-45 | One `map` callback builds exactly the point `PointFor` gives for its key. It pushes the series names only when the key is the first sorted key. |
| `KeystrokeChart.MapKeys` | components/KeystrokeChart.tsx:33-46 | Over keys whose first element does not recur, the `map` gives one point per key, in order, and the series names exactly once when there is a key. |
| `KeystrokeChart.TransformChart` | components/KeystrokeChart.tsx:20-48 | The computation as the component runs it equals `ChartDataOf`: null data gives the empty chart, and otherwise the sorted keys are mapped to their points. |

## Left out

- Random inputs and clocks. `Math.random()` (utils/riskMath.ts:23-28), `performance.now()` and `toLocaleTimeString()` become parameters. `Math.floor` is modelled by making `authFailures` an integer.
- Floating point. All arithmetic is on exact reals. Under IEEE doubles the weight sums, and the totals at the extremes, are 1 only up to rounding. NaN readings are not modelled, so "truthy" means present and non-zero.
- `RiskMath.Normalize` requires min < max. Every call site passes a fixed range with 0 < max; division by zero is never reached.
- `RiskMath.CalculateRisk`: the result field `label` is named `riskLabel`, because `label` is a Dafny keyword.
- `RiskDashboard.KeepLast` requires n > 0. JavaScript's `slice(-0)` keeps the whole array, and the source only uses n = 10.
- Rendering. This covers JSX, Recharts, icons, Tailwind classes, pie-cell colours (`COLORS[index % 4]`), `toFixed`, and the `if (!metrics) return null` guard.
- React machinery: `useState` batching, `useCallback`, `useMemo` caching and `useEffect`. The dashboard's mount effect is one `RefreshAnalysis` call on the freshly constructed `Dashboard`.
- `KeystrokeChart.ChartDataOf`: for null data the source returns `[]` rather than an object. The component never reads it, because it tests `!data` first; the model gives the empty chart.
- `KeystrokeChart.ChartDataOf`: a point's dynamic `session_i` fields are the sequence `sessions`, with `sessions[i]` named by `SessionKey(i)`.
- String order. JavaScript strings are UTF-16, while Dafny characters are Unicode scalar values. The two orders agree on the keys that survive the filter.
- Other parts of the app. Fetching and saving metrics, user selection, notes, server status and the note modals are not part of this model.
- Keystroke analytics that these files do not implement: flight time, down-down time, finger mapping, per-session aggregation, anomaly scoring, a sensitivity multiplier, a trust score, filtering of auto-repeat events and clamping of dwell times. The per-key averages the chart shows arrive precomputed from the backend, whose code is not part of this model.
