# Workout tracker model

A Dafny model of the fitness-tracker widget of a static fitness web page (`js/script.js`).
The tracker keeps one in-memory list of workout records, loaded from browser storage when
the page starts. The form's submit handler appends one record to the list. After every change
the tracker recomputes, from the whole list:

- the dashboard: workout count, total minutes, total calories, goals achieved (one per ten
  workouts) and the five most recent workouts, newest first;
- the history list: the ten most recent workouts, newest first;
- a bar chart: workouts per weekday since the start of the week;
- a line chart: calories per day of the month since the first of the month, always 31 points.

Modules:

- `Workouts` (`workouts.dfy`): the record, the abstract calendar and the reference sum.
- `Sequences` (`sequences.dfy`): `slice(start)` and `reverse`, as JavaScript defines them, and a plain sum of numbers.
- `Dashboard` (`dashboard.dfy`): the `reduce` totals, `Math.floor` goals and the two list views.
- `Decimal` (`decimal.dfy`): `toString()` of a day number, for the monthly labels.
- `Charts` (`charts.dfy`): the two week/month start bounds, the filter, and the two bucketing
  loops (`WeeklyData` over a 7-slot array, `MonthlyData` over a dictionary, then a 31-step loop).
  Both are proved against one reference function, `Tally`.
- `Tracker` (`tracker.dfy`): loading, the `WorkoutTracker` class holding the list, its `Append`,
  the full re-render and the submit handler.

Time is modelled abstractly. A date is an integer timestamp in milliseconds, and a day is
86 400 000 ms. `getDay()` and `getDate()` are function parameters. The predicates `IsDayOfWeek`
(result 0..6) and `IsDayOfMonth` (result 1..31) bound them. Clock readings are parameters
too. Two quirks of the source are kept:

- The week start keeps the current time of day, because `setDate` moves only the date. So a
  workout logged earlier on day 0 of the week than the current clock time is not counted
  (`EarlierOnFirstDayLeftOut`). The month start is midnight.
- The bar labels begin with "Mon", but slot 0 is `getDay() == 0`, which is Sunday
  (`SundayDrawnUnderMon`).

Loading follows the code rather than the fail-soft policy one might expect. The `|| []` fallback
catches only a missing key (and other falsy values). On stored text that is not JSON,
`JSON.parse` throws, and the tracker is never initialised. `LoadWorkouts` returns `None` for
that case.

## Model

| member | source | states |
|---|---|---|
| `Workouts.SumSnoc` | js/script.js:113-114 | appending a record adds exactly its minutes (or calories) to the reference sum |
| `Workouts.SumOccurrences` | js/script.js:112 | counting one per record gives the list length |
| `Sequences.Reverse` | js/script.js:125 | `reverse()` keeps the length and puts element `len-1-i` at position `i` |
| `Sequences.SliceFrom` | js/script.js:176 | `slice(start)` gives a suffix; for a negative start its length is `min(-start, len)`, otherwise `len - min(start, len)` |
| `Dashboard.Reduce` | js/script.js:113-114 | the `reduce` left fold with a running sum equals the start value plus the reference sum |
| `Dashboard.GoalsAchieved` | js/script.js:115 | the result `g` is the floor of count/10: `10g <= count < 10(g+1)` |
| `Dashboard.GoalExamples` | js/script.js:115 | goals are 0 below ten workouts, 1 at ten and 3 at 37 |
| `Dashboard.NewestFirst` | js/script.js:125 | `slice(-k).reverse()` has length `min(k, n)` and position `i` holds record `n-1-i` |
| `Dashboard.RecentView` | js/script.js:125-134 | placeholder "No recent workouts" exactly when the list is empty; otherwise a non-empty list of the last `min(5, n)` records, newest first |
| `Dashboard.HistoryView` | js/script.js:172-182 | placeholder "No workouts logged yet" exactly when the list is empty; otherwise the last `min(10, n)` records, newest first |
| `Dashboard.DashboardOf` | js/script.js:111-120 | count is the length; total time and total calories are the sums of `duration` and `calories`; goals are floor(count/10); the recent list is `RecentView` |
| `Dashboard.RecentOfSeven` | js/script.js:125 | records a..g logged in order show as g, f, e, d, c |
| `Dashboard.DashboardAfterAppend` | js/script.js:154-162 | after one more record: count +1, totals grow by its minutes and calories, and it heads both lists |
| `Decimal.DecimalString` | js/script.js:272 | `toString()` of a day number: non-empty, digits only, leading zero only for 0 |
| `Decimal.DecimalRoundTrip` | js/script.js:272 | reading the numeral back gives the number |
| `Decimal.DecimalInjective` | js/script.js:272 | different numbers get different labels |
| `Charts.WeekStart` | js/script.js:244-245 | the week start is at most seven days before `now` and has the same time of day as `now` |
| `Charts.MonthStart` | js/script.js:259-260 | the month start is at most 31 days before `now` and is at midnight |
| `Charts.Since` | js/script.js:246 | `filter(date >= start)`: a record is kept exactly when it is in the list and dated at or after `start`, and the result is no longer than the list |
| `Charts.SinceMultiplicity` | js/script.js:246 | each record dated at or after `start` is kept as many times as it occurs; every other record occurs 0 times |
| `Charts.SinceSnoc` | js/script.js:246 | filtering a list with one more record gives the filtered list, followed by that record when it is dated at or after `start` |
| `Charts.SinceConcat` | js/script.js:246 | filtering distributes over concatenation, so the kept records stay in their original order |
| `Charts.TallySince` | js/script.js:261 | filtering by the start bound first changes no slot of the chart |
| `Charts.SlotsPartition` | js/script.js:263-267 | when every day index lies in the slot range, the slots add up to the sum over all records since `start` |
| `Charts.WeeklyData` | js/script.js:243-255 | returns 7 counts; count `d` is the number of records dated at or after `weekStart` with weekday `d` |
| `Charts.Lookup` | js/script.js:273 | `dailyCalories[day] \|\| 0`: the stored total for a day that has one, 0 for a day never written |
| `Charts.AccumulateDay` | js/script.js:266 | `dailyCalories[day] = (dailyCalories[day] \|\| 0) + calories` adds the calories to that day's total and changes no other day's total |
| `Charts.MonthlyData` | js/script.js:258-277 | returns 31 labels "1".."31" and 31 values; value `i` is the calorie sum of records dated at or after `monthStart` on day `i+1`, or 0 |
| `Charts.SeriesSum` | js/script.js:249-252 | the first `k` points of a chart series add up to the total of those `k` slots |
| `Charts.WeeklyTotal` | js/script.js:246-252 | for bars that `ShowsWeek` describes, the seven bar heights add up to the number of records since the week start |
| `Charts.MonthlyTotal` | js/script.js:261-274 | for a series that `ShowsMonth` describes, the 31 points add up to the calories of all records since the month start |
| `Charts.MonthlyEmptyDay` | js/script.js:271-273 | on a line chart that `ShowsMonth` describes, a day with no record since the month start (e.g. day 31 of a 30-day month) still has its point, labelled with its number, and the point's value is 0 |
| `Charts.StartBoundary` | js/script.js:246 | a record dated exactly at the start bound is counted; one a millisecond earlier is not |
| `Charts.EarlierOnFirstDayLeftOut` | js/script.js:245 | a record on the week's first day, earlier in the day than `now`, is not counted in any weekly slot |
| `Charts.SundayDrawnUnderMon` | js/script.js:196 | the first bar is labelled "Mon" but counts the records whose `getDay()` is 0 (Sunday) |
| `Charts.MonthlyLabels` | js/script.js:271-272 | the labels run "1", …, "9", "10", …, "31", all different |
| `Tracker.LoadWorkouts` | js/script.js:108 | a missing key loads the empty list; a stored list loads as itself; text that is not JSON gives no tracker |
| `Tracker.WorkoutTracker.constructor` | js/script.js:108 | the tracker starts with exactly the loaded list |
| `Tracker.WorkoutTracker.Append` | js/script.js:154 | the list grows by one, the new record is last, and the earlier records are unchanged |
| `Tracker.WorkoutTracker.Render` | js/script.js:111-186 | the screen shows `DashboardOf`, `HistoryView`, the weekday labels, the weekly counts from `WeekStart(weekNow)` and the 31 monthly labels and values from `MonthStart(monthNow)`; the two clock readings are independent |
| `Tracker.WorkoutTracker.Submit` | js/script.js:138-166 | the list becomes the old list plus the record built from the form, `id` and `date`, and the screen shows the new list with the charts' own clock readings |
| `Tracker.JustLoggedMissingOnDayZero` | js/script.js:244-246 | on day 0 of the week, if the weekly chart reads the clock after the record's `date`, the new record is in no bar: every bar counts only the earlier records |

## Left out

- Page chrome at js/script.js:1-105 (smooth scroll, menu toggle, scroll-to-top, header style, fade-ins, keyboard handlers): DOM event wiring with no state to model.
- Saving with `localStorage.setItem`/`JSON.stringify` (line 155): a foreign storage call; only what loading yields is modelled.
- Stored JSON that parses to something other than a list of records (`0`, `false`, an object): the model only has a missing key, a serialized list, or text that is not JSON.
- Chart.js construction and styling (lines 193-239), `alert` (line 165), `e.preventDefault()`, the form reset and all DOM writes: the model keeps only the values these would display. The list lines' text (`type - duration min - calories cal`, `toLocaleDateString`) is not modelled; the views hold the records.
- Real `Date` arithmetic, time zones, daylight saving time and ISO-string parsing: days are a uniform 86 400 000 ms, and `getDay()`/`getDate()` are bounded function parameters. Nothing ties them to the timestamp or to each other.
- Clock readings are independent parameters: `Date.now()` for the id, `new Date()` for the record's date, and the `new Date()` of each chart. Nothing orders them; `JustLoggedMissingOnDayZero` shows what a later chart reading does.
- Tracker.WorkoutTracker.Submit: models only the path on which `localStorage.setItem` (line 155) returns normally. If it throws (quota exceeded, storage disabled), the record stays pushed (line 154), but the form reset, the two re-renders and the alert (lines 158-165) are skipped, so the screen keeps showing the old list.
- `parseInt` giving `NaN`, and JavaScript's floating-point numbers: `duration` and `calories` are unbounded integers. Negative or missing input is accepted, as in the source.
- Any rule that records are logged in chronological order, or that ids are unique: the code enforces neither, so the model does not state them.
- `Charts.WeekStart`: the model subtracts whole days of `MsPerDay`, while `setDate` works in local time and can shift by an hour across a daylight-saving change.
