/**
 * The tracker itself: the one mutable record list, how it is loaded, the submit handler that
 * appends to it, and the full re-render that follows every change.
 */
module Tracker {
  import opened Workouts
  import opened Dashboard
  import opened Charts
  import opened Decimal

  /** What the browser storage holds under the key `workouts`. */
  datatype StoredItem = Absent | Serialized(records: seq<Workout>) | Malformed

  /**
   * `JSON.parse(localStorage.getItem('workouts')) || []`. A missing key reads as `null`, which
   * parses to `null` and falls back to the empty list; text that is not JSON makes `JSON.parse`
   * throw, and the tracker is never set up (`None`).
   */
  function LoadWorkouts(item: StoredItem): (r: Option<seq<Workout>>)
    ensures r.None? <==> item.Malformed?
    ensures item.Absent? ==> r == Some([])
    ensures item.Serialized? ==> r == Some(item.records)
  {
    match item
    case Absent => Some([])
    case Serialized(records) => Some(records)
    case Malformed => None
  }

  /** The four form fields as read on submit (the two numbers after `parseInt`). */
  datatype Form = Form(kind: string, duration: int, calories: int, notes: string)

  /** Everything the tracker shows: the dashboard, the history list and the data of both charts. */
  datatype Screen = Screen(
    stats: Stats,
    history: ListView,
    weeklyLabels: seq<string>,
    weeklyCounts: seq<int>,
    monthlyLabels: seq<string>,
    monthlyCalories: seq<int>)

  /**
   * `screen` is what `updateDashboard` and `updateProgress` render for the list `ws`, where
   * `weekNow` and `monthNow` are the clock readings `getWeeklyData` and `getMonthlyData` take.
   */
  ghost predicate Shows(screen: Screen, ws: seq<Workout>, weekNow: Timestamp, monthNow: Timestamp,
                        dayOfWeek: Timestamp -> int, dayOfMonth: Timestamp -> int)
    requires IsDayOfWeek(dayOfWeek) && IsDayOfMonth(dayOfMonth)
  {
    && screen.stats == DashboardOf(ws)
    && screen.history == HistoryView(ws)
    && screen.weeklyLabels == WeekdayLabels
    && ShowsWeek(screen.weeklyCounts, ws, WeekStart(weekNow, dayOfWeek), dayOfWeek)
    && ShowsMonth(screen.monthlyLabels, screen.monthlyCalories, ws, MonthStart(monthNow, dayOfMonth), dayOfMonth)
  }

  class WorkoutTracker {
    /** The records in the order they were logged, oldest first. */
    var workouts: seq<Workout>

    /** Starts from the list that `LoadWorkouts` produced. */
    constructor (records: seq<Workout>)
      ensures workouts == records
    {
      workouts := records;
    }

    /** `workouts.push(workout)`: one more record at the end, the earlier ones untouched. */
    method Append(w: Workout)
      modifies this
      ensures workouts == old(workouts) + [w]
      ensures |workouts| == |old(workouts)| + 1 && workouts[|workouts| - 1] == w
      ensures workouts[..|old(workouts)|] == old(workouts)
    {
      workouts := workouts + [w];
    }

    /**
     * `updateDashboard(); updateProgress();`: recomputes every figure, list and chart series from
     * the whole list. Each chart reads the clock for its own start bound.
     */
    method Render(weekNow: Timestamp, monthNow: Timestamp, dayOfWeek: Timestamp -> int, dayOfMonth: Timestamp -> int)
      returns (screen: Screen)
      requires IsDayOfWeek(dayOfWeek) && IsDayOfMonth(dayOfMonth)
      ensures Shows(screen, workouts, weekNow, monthNow, dayOfWeek, dayOfMonth)
    {
      var weekly := WeeklyData(workouts, WeekStart(weekNow, dayOfWeek), dayOfWeek);
      var labels, calories := MonthlyData(workouts, MonthStart(monthNow, dayOfMonth), dayOfMonth);
      screen := Screen(DashboardOf(workouts), HistoryView(workouts), WeekdayLabels, weekly, labels, calories);
    }

    /**
     * The form's submit handler: builds the record (`id` from `Date.now()`, `date` from
     * `new Date()`), appends it and re-renders; the two charts read the clock again, later.
     */
    method Submit(form: Form, id: int, date: Timestamp, weekNow: Timestamp, monthNow: Timestamp,
                  dayOfWeek: Timestamp -> int, dayOfMonth: Timestamp -> int)
      returns (screen: Screen)
      requires IsDayOfWeek(dayOfWeek) && IsDayOfMonth(dayOfMonth)
      modifies this
      ensures workouts == old(workouts) + [Workout(id, form.kind, form.duration, form.calories, form.notes, date)]
      ensures Shows(screen, workouts, weekNow, monthNow, dayOfWeek, dayOfMonth)
    {
      var w := Workout(id, form.kind, form.duration, form.calories, form.notes, date);
      Append(w);
      screen := Render(weekNow, monthNow, dayOfWeek, dayOfMonth);
    }
  }

  /**
   * On day 0 of the week the week start is the chart's own clock reading, so a workout submitted
   * even a millisecond before the weekly chart reads the clock appears in none of its bars.
   */
  lemma JustLoggedMissingOnDayZero(before: seq<Workout>, w: Workout, screen: Screen, weekNow: Timestamp,
                                   monthNow: Timestamp, dayOfWeek: Timestamp -> int, dayOfMonth: Timestamp -> int)
    requires IsDayOfWeek(dayOfWeek) && IsDayOfMonth(dayOfMonth)
    requires Shows(screen, before + [w], weekNow, monthNow, dayOfWeek, dayOfMonth)
    requires dayOfWeek(weekNow) == Sunday && w.date < weekNow
    ensures forall d :: 0 <= d < 7 ==>
              screen.weeklyCounts[d] == Tally(before, WeekStart(weekNow, dayOfWeek), dayOfWeek, Occurrences, d)
  {
    TallyStep(before, w, WeekStart(weekNow, dayOfWeek), dayOfWeek, Occurrences);
  }
}
