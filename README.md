# Synthetic dashboard metrics engine, in Dafny

This project models the data engine behind an executive analytics dashboard
(`src/utils/mockDataGenerator.ts`). The dashboard generates a wide synthetic series once.
Whenever the user changes the date range, it filters that series to the new range and
reduces the result to summary figures. The engine has three stages:

- **Generators** (`Generators`): `generateEmailData`, `generateDocumentData`,
  `generateMeetingData` and `generateAnalyticsData`. Each walks the inclusive day span
  `[start, end]` and appends one record per day. Every numeric field is
  `floor((min + r * range) * factor)`. Here `r` is a `Math.random()` draw and `factor` is 1
  on weekdays and a per-domain constant on Saturday and Sunday. Each generator is a method
  with a `while` loop that grows a sequence. Its loop is proved to compute a series
  function (`EmailSeries`, ...). That function's contract gives the length, the consecutive
  dates and the envelope of every record.
- **Filter** (`Filtering`): `filterDataByDateRange`. It keeps the records whose date lies in
  `[start, end]`, inclusive at both ends and in their original order.
- **Aggregators** (`Aggregators`): `aggregateEmailData`, `aggregateDocumentData`,
  `aggregateMeetingData` and `aggregateAnalyticsData`. Each makes one `reduce` pass into
  running totals (`EmailTotalsOf`, ...). The averages are then `Math.round(total / length)`.
  An empty series gives an explicit all-zero summary.

Supporting modules:

- `Calendar`: days as integer day numbers, the weekday and weekend rule, and contiguity.
- `Sampling`: the draw type `Unit`, the shared field formula and the damping factor.
- `Records`: the four record kinds and their projections.
- `Sums`: reference sums and extremes.
- `Rounding`: `Math.round` and the rounded mean.
- `Pipeline`: lemmas that chain generation, filtering and aggregation the way the dashboard does.

Modelling choices:

- **Dates.** A date is an integer day number, where day 0 is 1970-01-01, a Thursday.
  `getDay` becomes `(d + 4) % 7`. The source keys records by fixed-width `YYYY-MM-DD`
  strings, and compares them as strings. That order is the order of the days, so the
  filter compares day numbers.
- **Random draws.** The source calls `Math.random()`, which has no seed. The model takes the
  draws as a parameter: a sequence of reals in `[0, 1)`, consumed in the order the record's
  fields are written. Day `start + i` of an email series uses draws `5i .. 5i+4`. The other
  domains use 4, 4 and 3 draws per day.
- **Arithmetic.** Field values are computed on exact reals with `.Floor`. `Math.round(x)` is
  `floor(x + 1/2)`. For an integer sum `s` over `n > 0` records this is proved to equal
  `(2s + n) / (2n)` in integer division.

Two details of the code that the model keeps as written:

- **Flooring.** The code floors each field once, after damping
  (`src/utils/mockDataGenerator.ts:55-59`). It never floors the undamped value first.
- **Neutral count.** The code counts every meeting record not labelled "positive" as neutral
  (`src/utils/mockDataGenerator.ts:213`). `NeutralCountsNeutralLabels` and
  `GeneratedMeetingBreakdown` prove that this count equals the number of records labelled
  "neutral" whenever every label is "positive" or "neutral". That holds for every generated
  series.

## Model

| member | source | states |
|---|---|---|
| `Calendar.TwoWeekendDaysPerWeek` | src/utils/mockDataGenerator.ts:47-48 | Under the weekend rule (weekday 0 or 6), any seven consecutive days hold exactly two weekend days. |
| `Calendar.ContiguousWeekendRecords` | src/utils/mockDataGenerator.ts:46-62 | A series with one record per consecutive day has exactly one weekend-dated record per weekend day of its span. |
| `Sampling.DampingNeverRaises` | src/utils/mockDataGenerator.ts:50-51 | For the same draw, a damped (weekend) field is non-negative and never exceeds the undamped (weekday) value. |
| `Generators.EmailOn` | src/utils/mockDataGenerator.ts:47-60 | A day's email record carries that day and lies in its envelope. Weekday: sent 30..79, received 60..139, priority 5..19, responseRate 85..99. Weekend (x0.3, responseRate x0.7): 9..23, 18..41, 1..5, 59..69. Sentiment is 75..94 on every day. |
| `Generators.EmailSeries` | src/utils/mockDataGenerator.ts:42-66 | The series has `DayCount(start, end)` records: `end - start + 1` for a non-empty span, none when `start > end`. Record `i` is dated `start + i`, and every record is in the email envelope. |
| `Generators.GenerateEmailData` | src/utils/mockDataGenerator.ts:42-66 | The day-by-day loop returns exactly `EmailSeries(start, end, draws)`, which is `DayCount(start, end)` contiguous records from `start`. |
| `Generators.DocumentOn` | src/utils/mockDataGenerator.ts:74-84 | A day's document record lies in its envelope. Weekday: accessed 150..349, created 10..39, modified 40..119, shared 20..59. Weekend (every field x0.2): 30..69, 2..7, 8..23, 4..11. |
| `Generators.DocumentSeries` | src/utils/mockDataGenerator.ts:69-90 | `DayCount(start, end)` records, dated consecutively from `start`, each in the document envelope. |
| `Generators.GenerateDocumentData` | src/utils/mockDataGenerator.ts:69-90 | The loop returns exactly `DocumentSeries(start, end, draws)`, with its length and contiguity. |
| `Generators.PickSentiment` | src/utils/mockDataGenerator.ts:96-108 | The label drawn is "positive" exactly when the draw is below 1/2, and is always "positive" or "neutral". |
| `Generators.MeetingOn` | src/utils/mockDataGenerator.ts:99-109 | A day's meeting record lies in its envelope. Weekday: count 3..10, duration 45..104, attendees 4..9. Weekend (x0.1): count 0..1, duration 4..10, attendees exactly 0. The sentiment is "positive" or "neutral" on every day. |
| `Generators.MeetingSeries` | src/utils/mockDataGenerator.ts:93-115 | `DayCount(start, end)` records, dated consecutively from `start`, each in the meeting envelope. |
| `Generators.GenerateMeetingData` | src/utils/mockDataGenerator.ts:93-115 | The loop returns exactly `MeetingSeries(start, end, draws)`, with its length and contiguity. |
| `Generators.AnalyticsOn` | src/utils/mockDataGenerator.ts:123-131 | A day's analytics record lies in its envelope. Weekday: productivity 80..99, collaboration 70..94, efficiency 75..94. Weekend (x0.6, x0.5, x0.6): 48..59, 35..47, 45..56. |
| `Generators.AnalyticsSeries` | src/utils/mockDataGenerator.ts:118-137 | `DayCount(start, end)` records, dated consecutively from `start`, each in the analytics envelope. |
| `Generators.GenerateAnalyticsData` | src/utils/mockDataGenerator.ts:118-137 | The loop returns exactly `AnalyticsSeries(start, end, draws)`, with its length and contiguity. |
| `Sums.SumLast` | src/utils/mockDataGenerator.ts:157-163 | Adding the last record to the sum of the others, as `reduce` does, gives the reference sum. |
| `Sums.SumPermutation` | src/utils/mockDataGenerator.ts:157-163 | A sum over a series does not depend on the order of its records. |
| `Sums.SumBounds` | src/utils/mockDataGenerator.ts:157-163 | If every value lies in `[lo, hi]`, the sum lies in `[n*lo, n*hi]`. |
| `Rounding.MathRound` | src/utils/mockDataGenerator.ts:169 | `Math.round` returns the integer `r` with `x - 1/2 < r <= x + 1/2`: the nearest integer, with halves rounded up. |
| `Rounding.RoundedMean` | src/utils/mockDataGenerator.ts:169-170 | `Math.round(sum / n)` equals `(2*sum + n) / (2*n)` in integer division. |
| `Rounding.MeanWithin` | src/utils/mockDataGenerator.ts:169-170 | If `n*lo <= sum <= n*hi`, the rounded mean lies in `[lo, hi]`. |
| `Aggregators.EmailTotalsOf` | src/utils/mockDataGenerator.ts:157-163 | The running totals of the `reduce` pass are the exact sums of sent, received, priority, responseRate and sentiment. |
| `Aggregators.AggregateEmailData` | src/utils/mockDataGenerator.ts:140-172 | An empty series gives all zeros. Otherwise the three totals are exact sums, and the two averages are the rounded means of their fields' sums over the series length. |
| `Aggregators.EmailAveragesWithinExtremes` | src/utils/mockDataGenerator.ts:169-170 | Each email average lies between the smallest and the largest value of its field. |
| `Aggregators.EmailOrderIndependent` | src/utils/mockDataGenerator.ts:157-171 | Two series with the same records in any order give the same email summary. |
| `Aggregators.DocumentTotalsOf` | src/utils/mockDataGenerator.ts:189-194 | The `reduce` pass yields the exact sums of accessed, created, modified and shared. |
| `Aggregators.AggregateDocumentData` | src/utils/mockDataGenerator.ts:174-195 | An empty series gives all zeros. Every total is the exact sum of its field, with no averaging. |
| `Aggregators.DocumentOrderIndependent` | src/utils/mockDataGenerator.ts:189-194 | Reordering the records does not change the document summary. |
| `Aggregators.MeetingTotalsOf` | src/utils/mockDataGenerator.ts:212-221 | The running totals are exact sums. `positive` counts the "positive" records, and `positive + neutral` is the number of records. |
| `Aggregators.AggregateMeetingData` | src/utils/mockDataGenerator.ts:197-232 | An empty series gives zeros and a `{0, 0}` breakdown. Otherwise: `totalMeetings` is the sum of the counts; the two averages are rounded means; `positive` counts the "positive" records; and `positive + neutral` equals the series length. |
| `Aggregators.NeutralCountsNeutralLabels` | src/utils/mockDataGenerator.ts:213 | When every label is "positive" or "neutral", `neutral` is exactly the number of records labelled "neutral". |
| `Aggregators.MeetingAveragesWithinExtremes` | src/utils/mockDataGenerator.ts:225-226 | Average duration and average attendees each lie between their field's minimum and maximum. |
| `Aggregators.MeetingOrderIndependent` | src/utils/mockDataGenerator.ts:212-231 | Reordering the records does not change the meeting summary. |
| `Aggregators.AnalyticsTotalsOf` | src/utils/mockDataGenerator.ts:247-251 | The running totals are the exact sums of productivity, collaboration and efficiency. |
| `Aggregators.AggregateAnalyticsData` | src/utils/mockDataGenerator.ts:234-258 | An empty series gives all zeros. Otherwise each average is the rounded mean of its field's sum over the series length. |
| `Aggregators.AnalyticsAveragesWithinExtremes` | src/utils/mockDataGenerator.ts:253-257 | Each analytics average lies between its field's minimum and maximum. |
| `Aggregators.AnalyticsOrderIndependent` | src/utils/mockDataGenerator.ts:247-257 | Reordering the records does not change the analytics summary. |
| `Filtering.FilterByDateRange` | src/utils/mockDataGenerator.ts:261-270 | Every kept record is an input record with `start <= date <= end`. Every input record in that range is kept. The result is an order-preserving subsequence of the input, and it is empty when `start > end`. |
| `Filtering.FilterMultiplicity` | src/utils/mockDataGenerator.ts:269 | The filter keeps every copy of an in-range record, as often as it occurs in the input, and no copy of an out-of-range record. |
| `Filtering.FilterAppend` | src/utils/mockDataGenerator.ts:269 | Filtering a concatenation filters each part and concatenates the results, so relative order is kept. |
| `Filtering.FilterCompose` | src/utils/mockDataGenerator.ts:269 | Filtering by one range and then another equals filtering once by their intersection. |
| `Filtering.FilterIdempotent` | src/utils/mockDataGenerator.ts:269 | Filtering twice with the same bounds equals filtering once. |
| `Filtering.FilterContiguous` | src/utils/mockDataGenerator.ts:269 | On a contiguous series, the filter returns the slice of the days that the series and the range share. |
| `Filtering.FilterSingleDay` | src/utils/mockDataGenerator.ts:269 | On a contiguous series, a one-day range yields at most one record: the record of that day, when the series covers it. |
| `Filtering.FilterSubRange` | src/utils/mockDataGenerator.ts:269 | On a contiguous series, a range inside its days keeps `end - start + 1` records, dated consecutively from `start`. |
| `Pipeline.DashboardWindow` | project/src/App.tsx:28-44 | The email series generated over `[today - 60, today]` has 61 records. Filtering it to the default `[today - 30, today]` keeps exactly its last 31 records, consecutive and all within the window. |
| `Pipeline.EmailWeekHasTwoDampedDays` | src/utils/mockDataGenerator.ts:46-62 | A generated seven-day email series has seven records, exactly two of them dated on a weekend and so damped. |
| `Pipeline.FilteredEmailAveragesInEnvelope` | src/utils/mockDataGenerator.ts:165-171 | For any selected range with at least one record, the average response rate of a generated email series is in 59..99 and the average sentiment in 75..94. |
| `Pipeline.FilteredAnalyticsAveragesInEnvelope` | src/utils/mockDataGenerator.ts:253-257 | For any selected range with at least one record, the analytics averages are in 48..99, 35..94 and 45..94. |
| `Pipeline.GeneratedMeetingBreakdown` | src/utils/mockDataGenerator.ts:212-230 | For a generated meeting series, `positive + neutral` equals the number of days in the span, and each count is the number of records with that label. |

## Left out

- `formatDateRange` (`src/utils/mockDataGenerator.ts:273-278`) is not modelled. It formats dates through the locale-dependent `toLocaleDateString`.
- `Date` mechanics are not modelled: `setDate` rollover across months and daylight-saving changes, and time of day. Every date is a day number.
- The source takes the date key from `toISOString`, which is UTC, and the weekday from `getDay`, which is local time. Near midnight these can disagree. The model uses one day number for both.
- The filter turns its bounds into `YYYY-MM-DD` keys and compares strings. The model compares day numbers, which order the days the same way.
- Floating point is not modelled. Fields, sums and averages are exact. The source's small integer values are exact in doubles, but `total / length` and `(min + r * range) * factor` can round differently in binary floating point near an integer boundary.
- `Math.random` is replaced by a parameter, `draws`. The generators require enough draws for the span: 5, 4, 4 or 3 per day.
- The React components and their timers are not part of this model: `App.tsx`, the tab components, `DateRangeSelector.tsx`, the canned-text streaming and the loading delay. They are presentation.
