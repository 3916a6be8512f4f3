# risklens dashboard — a Dafny model of its front-end logic

risklens is a risk dashboard. A small backend serves a list of compliance and
operational events, plus a written executive summary. A React front end shows
them. This project models the logic that front end runs on the data it fetches:

- **Risk trajectory card** (`RiskTrendCard`):
  - Puts the events into six daily buckets, ending today.
  - Counts events, critical-or-high events and HR events in each bucket, and adds up a severity-weighted score.
  - Smooths the scores with a decaying carry from the days before.
  - Maps the series onto the 100×100 drawing with `normalise` and `scaleValue`.
- **Event timeline** (`EventTimeline`):
  - The tab filter (all / HR / finance / critical).
  - The newest-first sort.
  - The relative-time label of each event.
  - The severity shown on each event, with its default.
- **App shell** (`App`): turns a payload that is not an array into no events, and computes the four stats tiles.
- **Header** (`Header`): the "last updated" label.
- **Executive summary** (`ExecutiveSummary`): splits the summary text into lines and turns each line into a paragraph or a line break.

The JavaScript built-ins these depend on are modelled in their own modules:

- `JsStrings`: `toLowerCase`, `trim`, `split`.
- `JsArrays`: `filter`.
- `Events`: the event record, and the two ways the source lower-cases an optional field (`?.toLowerCase()` and `(x || '').toLowerCase()`).
- `JsValues`: `Option`, for fields that may be null or undefined.

Modelling choices:

- **Times:**
  - Times are integer milliseconds since the epoch.
  - A calendar day is the day number `(ms + tzOffsetMs) / 86400000` under a fixed time-zone offset.
  - A bucket's key is that day number. The source uses a `year-month-date` string, which names the same local day.
- **Bucket updates:**
  - The source updates bucket objects in place through an index object `bucketsByKey`. The model keeps that shape: an `array<Bucket>`, plus a map from day number to array slot.
  - `AccumulateEvents` is a loop over this array. It is proved against the functional specification `AddAll`.
  - `Smooth` is a loop carrying `syntheticCarry`. It is proved against `Smoothed`.
- **Rendered output:** formatted strings ("5m ago", a locale date) are modelled as tagged labels that carry the numbers the string is built from.

## Model

| member | source | states |
|---|---|---|
| `JsStrings.ToLower` | frontend/src/components/RiskTrendCard.jsx:45-46 | Lower-casing keeps the length. It turns each upper-case ASCII letter into its lower-case letter, leaves no upper-case ASCII letter, and leaves every other character unchanged. |
| `JsStrings.Trim` | frontend/src/components/ExecutiveSummary.jsx:8 | The trimmed line is no longer than the line. It starts and ends with a non-whitespace character. It is empty exactly when the line is all whitespace, using the ECMAScript whitespace and line-terminator set. |
| `JsStrings.TrimIsSlice` | frontend/src/components/ExecutiveSummary.jsx:8 | The trimmed line is a contiguous slice of the line. Everything cut from either end is whitespace. |
| `JsStrings.Split` | frontend/src/components/ExecutiveSummary.jsx:7 | Splitting on `\n` gives one more piece than there are newlines. No piece holds a newline. Joining the pieces with `\n` gives back the text. |
| `JsStrings.SplitJoin` | frontend/src/components/ExecutiveSummary.jsx:7 | Joining newline-free lines with `\n` and splitting the result gives back exactly those lines. |
| `JsArrays.Filter` | frontend/src/App.jsx:92-97 | A filtered list is no longer than its input. Each value occurs in it as often as in the input when the predicate keeps the value, and never otherwise. |
| `JsArrays.FilterIsSubsequence` | frontend/src/components/EventTimeline.jsx:25-34 | A filtered list is a subsequence of its input: its elements appear at strictly increasing positions of the input. |
| `JsArrays.DisjointFiltersFit` | frontend/src/App.jsx:92-93 | Two filters that never both keep the same element have lengths summing to at most the input's length. |
| `Events.TextOr` | frontend/src/components/EventTimeline.jsx:95 | The fallback operator on a text field: a present non-empty text is kept; a missing field or the empty string gives the fallback. |
| `Events.LowerOpt` | frontend/src/components/EventTimeline.jsx:27-30 | `field?.toLowerCase()`: the result is missing exactly when the field is. A present field, the empty string included, becomes the field lower-cased by `ToLower`: same length, no upper-case ASCII letter. |
| `Events.LowerOrEmpty` | frontend/src/components/RiskTrendCard.jsx:45-46 | Lower-casing with the empty string as fallback: the result is empty exactly when the field is missing or empty. A present field becomes the field lower-cased by `ToLower`, with the field's length and no upper-case ASCII letter. |
| `Events.LowerFormsAgree` | frontend/src/components/RiskTrendCard.jsx:45-46 | For a non-empty keyword, the optional-chaining comparison and the empty-string-fallback comparison agree on every field, present or absent. |
| `RiskTrendCard.SeverityWeight` | frontend/src/components/RiskTrendCard.jsx:3-8 | The intended weight lies between 1 and 4. It is 4 exactly for "critical", 3 exactly for "high" and 2 exactly for "medium". Every other severity weighs 1. |
| `RiskTrendCard.LookupAsWritten` | frontend/src/components/RiskTrendCard.jsx:49 | The object-literal lookup finds an own weight exactly for critical, high, medium and low, equal to `SeverityWeight`. It finds an inherited member exactly for the lower-case names `Object.prototype` supplies. |
| `RiskTrendCard.UpdateAsWritten` | frontend/src/components/RiskTrendCard.jsx:49 | The score update as written concatenates text exactly for the inherited names. Otherwise it adds `SeverityWeight(severity)`. |
| `RiskTrendCard.InheritedSeverityCorruptsScore` | frontend/src/components/RiskTrendCard.jsx:49 | As written, the severities "Constructor" and "__proto__" make the score update a text concatenation instead of a numeric addition. |
| `RiskTrendCard.AsWrittenMatchesWeight` | frontend/src/components/RiskTrendCard.jsx:49 | The as-written score update adds `SeverityWeight(severity)` if and only if the lower-cased severity is not a name inherited from `Object.prototype`. |
| `RiskTrendCard.DayOf` | frontend/src/components/RiskTrendCard.jsx:36-38 | An instant's calendar day is the day whose local midnight-to-midnight interval contains it. |
| `RiskTrendCard.EventInstant` | frontend/src/components/RiskTrendCard.jsx:36 | An event is dated by `created_at` when present, otherwise by `timestamp`, otherwise at the current instant. |
| `RiskTrendCard.EmptyWindow` | frontend/src/components/RiskTrendCard.jsx:19-31 | The window has six zeroed buckets. Bucket `i` is keyed by the day `5 - i` days before today. |
| `RiskTrendCard.WindowIndex` | frontend/src/components/RiskTrendCard.jsx:33 | The key index holds exactly the six days of the window. Each key maps to the slot of the bucket with that key. |
| `RiskTrendCard.Count` | frontend/src/components/RiskTrendCard.jsx:45-57 | Counting one event keeps the key and adds one event. It adds one critical event exactly when the severity, lower-cased, is critical or high, and one HR event exactly when the source, lower-cased, is hr. The score grows by exactly `SeverityWeight` of the lower-cased severity (empty when missing), so by at least 1 and at most 4. |
| `RiskTrendCard.AddEvent` | frontend/src/components/RiskTrendCard.jsx:35-58 | Only the bucket whose key is the event's day changes, and nothing changes when that day is outside the window. The matching bucket gains one event and the event's severity weight. It gains one critical event exactly when the severity is critical or high, and one HR event exactly when the source is HR. The key index stays valid. |
| `RiskTrendCard.AddAll` | frontend/src/components/RiskTrendCard.jsx:35-58 | Counting all events keeps the number of buckets, their keys, and the validity of the key index. |
| `RiskTrendCard.AddAllIsTally` | frontend/src/components/RiskTrendCard.jsx:33-58 | After the loop, each window bucket equals the reference tally of the events dated on that bucket's day alone. |
| `RiskTrendCard.TallyBounds` | frontend/src/components/RiskTrendCard.jsx:48-57 | Within a day's tally, the critical and HR counts never exceed the event count. The raw score lies between one and four times the event count. |
| `RiskTrendCard.EveryEventCountedOnce` | frontend/src/components/RiskTrendCard.jsx:35-58 | The bucket totals add up to the number of events whose day falls in the window. Each such event is counted once, and no other event is counted. |
| `RiskTrendCard.AccumulateEvents` | frontend/src/components/RiskTrendCard.jsx:35-58 | The in-place loop over the bucket array leaves it equal to the `AddAll` specification applied to its old contents. |
| `RiskTrendCard.CarryNonNegative` | frontend/src/components/RiskTrendCard.jsx:60-63 | The synthetic carry is never negative. |
| `RiskTrendCard.CarryBounded` | frontend/src/components/RiskTrendCard.jsx:63 | If every earlier raw score is at most `top`, the carry is at most 15% of `top`. |
| `RiskTrendCard.SmoothedBounds` | frontend/src/components/RiskTrendCard.jsx:60-68 | Smoothing keeps the length and every count and key. It never lowers a score. Each smoothed score is at least the bucket's event count, or 0.6 for an empty bucket. |
| `RiskTrendCard.SmoothingIsNotIdempotent` | frontend/src/components/RiskTrendCard.jsx:60-68 | Smoothing its own output raises a score again, so the pass is defined on raw scores only. |
| `RiskTrendCard.Smooth` | frontend/src/components/RiskTrendCard.jsx:60-68 | The loop that carries `syntheticCarry` from bucket to bucket computes exactly the smoothed series. |
| `RiskTrendCard.ChartData` | frontend/src/components/RiskTrendCard.jsx:13-71 | The chart is empty exactly when there are no events. Otherwise it has six buckets keyed by the six days ending today, and it equals the smoothed accumulation. |
| `RiskTrendCard.ChartBucketIsTally` | frontend/src/components/RiskTrendCard.jsx:13-71 | Each chart bucket has the counts of its own day's tally and a score no lower than that tally's raw score or its floor. Its critical and HR counts never exceed its event count. |
| `RiskTrendCard.UndatedEventCountsToday` | frontend/src/components/RiskTrendCard.jsx:36 | An event with neither `created_at` nor `timestamp` is counted in today's bucket, the last one. |
| `RiskTrendCard.Normalise` | frontend/src/components/RiskTrendCard.jsx:109-115 | x is 0 for a series of at most one point. Otherwise the first point is at 0 and the last at 100, and every in-range index lands in [0, 100]. |
| `RiskTrendCard.NormaliseIncreasing` | frontend/src/components/RiskTrendCard.jsx:109-115 | A later index lands strictly further right. |
| `RiskTrendCard.ScaleValue` | frontend/src/components/RiskTrendCard.jsx:117-123 | y never goes above the top padding of 6. A non-negative value lands no lower than the baseline at 88, and zero lands exactly on it. A value at or above the safe maximum lands exactly on the top padding. |
| `RiskTrendCard.ScaleValueMonotone` | frontend/src/components/RiskTrendCard.jsx:117-123 | A larger value is never drawn lower. |
| `RiskTrendCard.MaxScore` | frontend/src/components/RiskTrendCard.jsx:73 | The maximum is at least 1 and at least every score. It is either 1 or one of the scores. |
| `RiskTrendCard.LinePoints` | frontend/src/components/RiskTrendCard.jsx:75-79 | There is one point per bucket. The line spans x = 0 to 100. With non-negative scores every point lies inside the drawing frame. |
| `RiskTrendCard.ChartLineInFrame` | frontend/src/components/RiskTrendCard.jsx:73-79 | The card's six points span the drawing from left to right and stay inside it. When the top score exceeds 1, some point touches the top padding. |
| `EventTimeline.KeepForTab` | frontend/src/components/EventTimeline.jsx:25-34 | Any tab other than hr, finance and critical keeps every event. The hr and finance tabs keep an event exactly when its lower-cased source is the tab's name. The critical tab keeps it exactly when its dot shows critical or high. |
| `EventTimeline.FilteredEvents` | frontend/src/components/EventTimeline.jsx:25-34 | The tab's list is no longer than the input. Everything in it passes the tab and comes from the input, and every input event that passes the tab is in it. |
| `EventTimeline.UnfilteredTabs` | frontend/src/components/EventTimeline.jsx:25-34 | The "all" tab, or any tab name other than hr, finance and critical, shows every event in its original order. |
| `EventTimeline.SourceTabs` | frontend/src/components/EventTimeline.jsx:27-28 | The hr and finance tabs keep exactly the events whose lower-cased source system is that name, each as often as it occurs. |
| `EventTimeline.CriticalTab` | frontend/src/components/EventTimeline.jsx:29-32 | The critical tab keeps exactly the events whose lower-cased severity is critical or high. |
| `EventTimeline.FilteredInOrder` | frontend/src/components/EventTimeline.jsx:25-34 | Every tab's list keeps the events in their original relative order. |
| `EventTimeline.InsertByAge` | frontend/src/components/EventTimeline.jsx:36-38 | Inserting a dated event into a newest-first list keeps it newest-first and adds exactly that event. |
| `EventTimeline.SortNewestFirst` | frontend/src/components/EventTimeline.jsx:36-38 | The sorted list is a permutation of the input, ordered by `created_at` from newest to oldest. |
| `EventTimeline.SortIsStable` | frontend/src/components/EventTimeline.jsx:36-38 | Events with the same `created_at` keep their input order, as in a stable `Array.prototype.sort`. |
| `EventTimeline.TimelineView` | frontend/src/components/EventTimeline.jsx:25-38 | The rendered list is ordered newest-first. It holds each event exactly as often as the input does when the active tab keeps it, and not at all otherwise. |
| `EventTimeline.FormatTime` | frontend/src/components/EventTimeline.jsx:7-23 | The label is minutes below an hour, hours below a day, days below a week, and the calendar date from a week on; each band holds if and only if its condition does. Each count is the floor of the elapsed time in its unit and stays within its band. |
| `EventTimeline.DisplaySeverity` | frontend/src/components/EventTimeline.jsx:95 | A missing or empty severity displays as "medium". Any other severity displays as itself lower-cased by `ToLower`. The displayed severity has no upper-case ASCII letter. It is critical or high exactly when the critical tab would keep the event. |
| `App.EventsOf` | frontend/src/App.jsx:36 | A payload that is not an array yields no events; an array payload yields its items unchanged. |
| `App.ComputeStats` | frontend/src/App.jsx:90-98 | The total is the number of events, and each other tile is at most the total. The HR, finance and critical tiles are zero exactly when no event is HR, finance or critical-or-high, respectively. |
| `App.StatsBounds` | frontend/src/App.jsx:90-98 | The total tile counts every event. The HR and finance tiles together never exceed it, and neither does the critical tile. |
| `App.StatsMatchTimelineTabs` | frontend/src/App.jsx:90-98 | Each stats tile shows exactly the number of events the timeline's tab of the same name lists. |
| `App.NonArrayPayloadIsEmpty` | frontend/src/App.jsx:36 | A non-array payload gives all-zero stats and an empty chart. |
| `Header.FormatTime` | frontend/src/components/Header.jsx:4-20 | No update time reads "just now", as do the first 10 seconds. Then come seconds below a minute, minutes below an hour, and the clock time from an hour on; each band holds if and only if its condition does. Each count is the floor of the elapsed time in its unit and stays within its band. |
| `ExecutiveSummary.FormatLine` | frontend/src/components/ExecutiveSummary.jsx:8-12 | A line becomes a line break exactly when it is blank. Otherwise it becomes a paragraph of the trimmed line, which is non-empty and has no whitespace at either end. |
| `ExecutiveSummary.FormatSummaryContent` | frontend/src/components/ExecutiveSummary.jsx:4-14 | An empty text renders nothing. Otherwise there is one block per `\n`-separated line. A block is a line break exactly when its line is blank, and otherwise a paragraph holding the trimmed line. |
| `ExecutiveSummary.TrimmedSummaryRoundTrip` | frontend/src/components/ExecutiveSummary.jsx:4-14 | If every line is non-blank and already trimmed, the paragraphs joined by newlines give back the text. |

## Left out

- Fetching `/events` and `/summary`, the refresh timer, loading and error states, React state and hooks, and all markup. These are I/O and rendering, not logic. Only the array check of the events payload is modelled.
- Locale formatting:
  - The bucket `label` built with `toLocaleDateString` is not modelled. The model has no label field, and a bucket is identified by its day number.
  - The timeline's short date and the header's clock time are modelled as labels carrying the instant, without the locale string.
- Time zones are a fixed offset. A daylight-saving change inside the six-day window is not modelled.
- The source reads the clock several times (`new Date()` once per chart, `Date.now()` per undated event, `new Date()` per label). The model takes one instant, `nowMs`, as a parameter.
- Date parsing is not modelled. `created_at` and `timestamp` are already instants in milliseconds, so an unparseable date, which JavaScript turns into `NaN`, is not modelled.
- RiskTrendCard.EventInstant: a date field that is present but falsy (an empty `created_at`, a `timestamp` of 0) falls through to the next choice in the source. The model treats every present date field as a date.
- `EventTimeline.SortNewestFirst` requires every event to have `created_at`. An undefined `created_at` makes the source's comparator return `NaN`, so the order depends on the engine. A null `created_at` is read as the epoch and sorts last. The model covers neither case.
- Floating point:
  - Scores and coordinates are exact reals.
  - The two-decimal rounding of `toFixed(2)` in `normalise` and `scaleValue` is not modelled.
- JsStrings.ToLower: lower-cases ASCII letters only, and leaves non-ASCII letters unchanged. Wherever a result is compared with a keyword ("critical", "high", "hr", "finance", and the severity table's keys), this is exact: the only non-ASCII character that lower-cases into ASCII is the Kelvin sign, which becomes "k", and none of those keywords contains a "k".
- EventTimeline.DisplaySeverity: the displayed severity also goes into the dot's class name. A non-ASCII upper-case letter there stays upper-case in the model, where `toLowerCase` lowers it (a severity of "É" shows as "É", not "é").
- The timeline copies the filtered array before sorting it. On values the input is unchanged by construction, so no aliasing is modelled.
- The chart component has no synthetic fallback series when there are no events, and it computes no trend percentage. It returns an empty series and renders nothing, so the model does the same.
- Severity and source names are lower-cased but not trimmed before comparison. The model follows that, so " hr" is not an HR event.

## Findings

| source | as written | input that shows it | evidently intended | confidence | as-written member | corrected member |
|---|---|---|---|---|---|---|
| frontend/src/components/RiskTrendCard.jsx:49 | The weight lookup, with 1 as its fallback, looks the lower-cased severity up on a plain object literal. That lookup also finds names inherited from `Object.prototype`. | An event in the window with severity "Constructor" or "__proto__". The lookup yields the `Object` function, or the prototype object. Both are truthy, so `+=` turns the bucket's numeric score into a string, and the chart's coordinates stop being numbers. | A severity outside the table weighs 1, like any other unknown severity. | high; not executed | `RiskTrendCard.InheritedSeverityCorruptsScore` | `RiskTrendCard.SeverityWeight` |
