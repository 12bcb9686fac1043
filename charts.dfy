/**
 * The data behind the two progress charts: workouts per weekday since the start of the week,
 * and calories per day of the month since the first of the month.
 */
module Charts {
  import opened Workouts
  import opened Sequences
  import opened Decimal

  /** The bar chart's fixed labels. Bar `d` shows weekday index `d`, so `Sunday` (0) is drawn under "Mon". */
  const WeekdayLabels: seq<string> := ["Mon", "Tue", "Wed", "Thu", "Fri", "Sat", "Sun"]

  const DaysInChartMonth: nat := 31

  /**
   * `new Date(now.setDate(now.getDate() - now.getDay()))`: back to day 0 of the week. Only the
   * date is moved, so the result keeps the time of day of `now`.
   */
  function WeekStart(now: Timestamp, dayOfWeek: Timestamp -> int): (s: Timestamp)
    requires IsDayOfWeek(dayOfWeek)
    ensures s <= now && now - s < 7 * MsPerDay
    ensures s % MsPerDay == now % MsPerDay
  {
    now - dayOfWeek(now) * MsPerDay
  }

  /** `new Date(now.getFullYear(), now.getMonth(), 1)`: midnight at the start of day 1 of now's month. */
  function MonthStart(now: Timestamp, dayOfMonth: Timestamp -> int): (s: Timestamp)
    requires IsDayOfMonth(dayOfMonth)
    ensures s <= now && now - s < DaysInChartMonth * MsPerDay
    ensures s % MsPerDay == 0
  {
    now - now % MsPerDay - (dayOfMonth(now) - 1) * MsPerDay
  }

  /** `ws.filter(w => new Date(w.date) >= start)`: the records dated at or after `start`. */
  function Since(ws: seq<Workout>, start: Timestamp): (r: seq<Workout>)
    ensures |r| <= |ws|
    ensures forall w :: w in r <==> w in ws && start <= w.date
  {
    if ws == [] then []
    else
      var p, w := ws[..|ws| - 1], ws[|ws| - 1];
      Since(p, start) + (if start <= w.date then [w] else [])
  }

  /** The filter keeps each record dated at or after `start` as often as it occurs, and drops every other. */
  lemma {:induction false} SinceMultiplicity(ws: seq<Workout>, start: Timestamp)
    ensures forall w :: multiset(Since(ws, start))[w] == if start <= w.date then multiset(ws)[w] else 0
  {
    if ws != [] {
      var p, x := ws[..|ws| - 1], ws[|ws| - 1];
      assert ws == p + [x];
      assert multiset(ws) == multiset(p) + multiset{x};
      SinceMultiplicity(p, start);
    }
  }

  /** Filtering a list with one more record at the end. */
  lemma SinceSnoc(ws: seq<Workout>, w: Workout, start: Timestamp)
    ensures Since(ws + [w], start) == Since(ws, start) + (if start <= w.date then [w] else [])
  {
    var ws' := ws + [w];
    assert ws'[..|ws'| - 1] == ws && ws'[|ws'| - 1] == w;
  }

  /** The filter works record by record and keeps the order: it distributes over concatenation. */
  lemma {:induction false} SinceConcat(a: seq<Workout>, b: seq<Workout>, start: Timestamp)
    ensures Since(a + b, start) == Since(a, start) + Since(b, start)
  {
    if b == [] {
      assert a + b == a;
    } else {
      var b', x := b[..|b| - 1], b[|b| - 1];
      var keep := if start <= x.date then [x] else [];
      assert b == b' + [x];
      assert a + b == (a + b') + [x];
      calc {
        Since(a + b, start);
        == { SinceSnoc(a + b', x, start); }
        Since(a + b', start) + keep;
        == { SinceConcat(a, b', start); }
        (Since(a, start) + Since(b', start)) + keep;
        ==
        Since(a, start) + (Since(b', start) + keep);
        == { SinceSnoc(b', x, start); }
        Since(a, start) + Since(b, start);
      }
    }
  }

  /**
   * Reference definition of one chart slot: the total of `m` over the records dated at or
   * after `start` whose day index `dayOf(date)` is `slot`.
   */
  function Tally(ws: seq<Workout>, start: Timestamp, dayOf: Timestamp -> int, m: Measure, slot: int): int
  {
    if ws == [] then 0
    else
      var w := ws[|ws| - 1];
      Tally(ws[..|ws| - 1], start, dayOf, m, slot)
        + (if start <= w.date && dayOf(w.date) == slot then Weight(w, m) else 0)
  }

  lemma TallySnoc(ws: seq<Workout>, w: Workout, start: Timestamp, dayOf: Timestamp -> int, m: Measure, slot: int)
    ensures Tally(ws + [w], start, dayOf, m, slot)
         == Tally(ws, start, dayOf, m, slot) + (if start <= w.date && dayOf(w.date) == slot then Weight(w, m) else 0)
  {
    assert (ws + [w])[..|ws|] == ws;
  }

  /** `TallySnoc` for every slot at once. */
  lemma TallyStep(ws: seq<Workout>, w: Workout, start: Timestamp, dayOf: Timestamp -> int, m: Measure)
    ensures forall slot ::
              Tally(ws + [w], start, dayOf, m, slot)
              == Tally(ws, start, dayOf, m, slot) + (if start <= w.date && dayOf(w.date) == slot then Weight(w, m) else 0)
  {
    forall slot
      ensures Tally(ws + [w], start, dayOf, m, slot)
           == Tally(ws, start, dayOf, m, slot) + (if start <= w.date && dayOf(w.date) == slot then Weight(w, m) else 0)
    {
      TallySnoc(ws, w, start, dayOf, m, slot);
    }
  }

  /** Filtering by the start date first does not change any slot. */
  lemma {:induction false} TallySince(ws: seq<Workout>, start: Timestamp, dayOf: Timestamp -> int, m: Measure, slot: int)
    ensures Tally(Since(ws, start), start, dayOf, m, slot) == Tally(ws, start, dayOf, m, slot)
  {
    if ws != [] {
      var p, w := ws[..|ws| - 1], ws[|ws| - 1];
      TallySince(p, start, dayOf, m, slot);
      assert Tally(ws, start, dayOf, m, slot)
          == Tally(p, start, dayOf, m, slot) + (if start <= w.date && dayOf(w.date) == slot then Weight(w, m) else 0);
      if start <= w.date {
        assert Since(ws, start) == Since(p, start) + [w];
        TallySnoc(Since(p, start), w, start, dayOf, m, slot);
      } else {
        assert Since(ws, start) == Since(p, start) + [];
        assert Since(ws, start) == Since(p, start);
      }
    }
  }

  /** Slots are zero unless some record at or after `start` falls on them. */
  lemma {:induction false} TallyEmptySlot(ws: seq<Workout>, start: Timestamp, dayOf: Timestamp -> int, m: Measure, slot: int)
    requires forall w :: w in ws && start <= w.date ==> dayOf(w.date) != slot
    ensures Tally(ws, start, dayOf, m, slot) == 0
  {
    if ws != [] {
      var p := ws[..|ws| - 1];
      assert forall w :: w in p ==> w in ws;
      TallyEmptySlot(p, start, dayOf, m, slot);
    }
  }

  /** The sum of the `n` slots `lo`, ..., `lo + n - 1`. */
  function SlotTotal(ws: seq<Workout>, start: Timestamp, dayOf: Timestamp -> int, m: Measure, lo: int, n: nat): int
  {
    if n == 0 then 0 else SlotTotal(ws, start, dayOf, m, lo, n - 1) + Tally(ws, start, dayOf, m, lo + n - 1)
  }

  lemma {:induction false} SlotTotalEmpty(start: Timestamp, dayOf: Timestamp -> int, m: Measure, lo: int, n: nat)
    ensures SlotTotal([], start, dayOf, m, lo, n) == 0
  {
    if n > 0 {
      SlotTotalEmpty(start, dayOf, m, lo, n - 1);
    }
  }

  lemma {:induction false} SlotTotalSnoc(ws: seq<Workout>, w: Workout, start: Timestamp, dayOf: Timestamp -> int,
                                         m: Measure, lo: int, n: nat)
    ensures SlotTotal(ws + [w], start, dayOf, m, lo, n)
         == SlotTotal(ws, start, dayOf, m, lo, n)
            + (if start <= w.date && lo <= dayOf(w.date) < lo + n then Weight(w, m) else 0)
  {
    if n > 0 {
      var ws', last := ws + [w], lo + n - 1;
      var inPrefix := if start <= w.date && lo <= dayOf(w.date) < last then Weight(w, m) else 0;
      var inLast := if start <= w.date && dayOf(w.date) == last then Weight(w, m) else 0;
      assert SlotTotal(ws', start, dayOf, m, lo, n)
          == SlotTotal(ws', start, dayOf, m, lo, n - 1) + Tally(ws', start, dayOf, m, last);
      SlotTotalSnoc(ws, w, start, dayOf, m, lo, n - 1);
      assert SlotTotal(ws', start, dayOf, m, lo, n - 1) == SlotTotal(ws, start, dayOf, m, lo, n - 1) + inPrefix;
      TallySnoc(ws, w, start, dayOf, m, last);
      assert Tally(ws', start, dayOf, m, last) == Tally(ws, start, dayOf, m, last) + inLast;
    }
  }

  /** When every day index lies in `lo .. lo + n - 1`, the slots together hold every record since `start`. */
  lemma {:induction false} SlotsPartition(ws: seq<Workout>, start: Timestamp, dayOf: Timestamp -> int,
                                          m: Measure, lo: int, n: nat)
    requires forall t :: lo <= dayOf(t) < lo + n
    ensures SlotTotal(ws, start, dayOf, m, lo, n) == Sum(Since(ws, start), m)
  {
    if ws == [] {
      SlotTotalEmpty(start, dayOf, m, lo, n);
    } else {
      var p, w := ws[..|ws| - 1], ws[|ws| - 1];
      assert ws == p + [w];
      SlotsPartition(p, start, dayOf, m, lo, n);
      SlotTotalSnoc(p, w, start, dayOf, m, lo, n);
      if start <= w.date {
        SumSnoc(Since(p, start), w, m);
      } else {
        assert Since(ws, start) == Since(p, start);
      }
    }
  }

  /**
   * `getWeeklyData`: the records since `weekStart`, counted into seven buckets by `getDay()`.
   * Bucket `d` holds the number of records dated at or after `weekStart` on weekday `d`.
   */
  method WeeklyData(ws: seq<Workout>, weekStart: Timestamp, dayOfWeek: Timestamp -> int)
    returns (counts: seq<int>)
    requires IsDayOfWeek(dayOfWeek)
    ensures |counts| == 7
    ensures forall d :: 0 <= d < 7 ==> counts[d] == Tally(ws, weekStart, dayOfWeek, Occurrences, d)
  {
    var thisWeek := Since(ws, weekStart);
    var daily := new int[7] [0, 0, 0, 0, 0, 0, 0];
    var i := 0;
    while i < |thisWeek|
      invariant 0 <= i <= |thisWeek|
      invariant forall d :: 0 <= d < 7 ==> daily[d] == Tally(thisWeek[..i], weekStart, dayOfWeek, Occurrences, d)
    {
      var w := thisWeek[i];
      assert w in thisWeek;
      assert weekStart <= w.date;
      var day := dayOfWeek(w.date);
      daily[day] := daily[day] + 1;
      assert thisWeek[..i + 1] == thisWeek[..i] + [w];
      TallyStep(thisWeek[..i], w, weekStart, dayOfWeek, Occurrences);
      i := i + 1;
    }
    assert thisWeek[..i] == thisWeek;
    forall d | 0 <= d < 7 ensures daily[d] == Tally(ws, weekStart, dayOfWeek, Occurrences, d) {
      TallySince(ws, weekStart, dayOfWeek, Occurrences, d);
    }
    counts := daily[..];
  }

  /** `dailyCalories[day] || 0`: the accumulated value, or 0 for a day never written. */
  function Lookup(daily: map<int, int>, day: int): (v: int)
    ensures day !in daily ==> v == 0
    ensures day in daily ==> v == daily[day]
  {
    if day in daily then daily[day] else 0
  }

  /**
   * `dailyCalories[day] = (dailyCalories[day] || 0) + c`: the day's total grows by `c` and no
   * other day's total changes.
   */
  lemma AccumulateDay(daily: map<int, int>, day: int, c: int)
    ensures forall d :: Lookup(daily[day := Lookup(daily, day) + c], d) == Lookup(daily, d) + (if d == day then c else 0)
  {
  }

  /**
   * `getMonthlyData`: calories of the records since `monthStart`, summed per `getDate()` into a
   * dictionary, then read out for the fixed labels "1" .. "31".
   */
  method MonthlyData(ws: seq<Workout>, monthStart: Timestamp, dayOfMonth: Timestamp -> int)
    returns (labels: seq<string>, calories: seq<int>)
    ensures |labels| == DaysInChartMonth && |calories| == DaysInChartMonth
    ensures forall i :: 0 <= i < DaysInChartMonth ==> labels[i] == DecimalString(i + 1)
    ensures forall i :: 0 <= i < DaysInChartMonth ==> calories[i] == Tally(ws, monthStart, dayOfMonth, Calories, i + 1)
  {
    var thisMonth := Since(ws, monthStart);
    var daily: map<int, int> := map[];
    var j := 0;
    while j < |thisMonth|
      invariant 0 <= j <= |thisMonth|
      invariant forall day :: Lookup(daily, day) == Tally(thisMonth[..j], monthStart, dayOfMonth, Calories, day)
    {
      var w := thisMonth[j];
      assert w in thisMonth;
      assert monthStart <= w.date;
      var day := dayOfMonth(w.date);
      AccumulateDay(daily, day, w.calories);
      daily := daily[day := Lookup(daily, day) + w.calories];
      assert thisMonth[..j + 1] == thisMonth[..j] + [w];
      TallyStep(thisMonth[..j], w, monthStart, dayOfMonth, Calories);
      j := j + 1;
    }
    assert thisMonth[..j] == thisMonth;
    forall d ensures Lookup(daily, d) == Tally(ws, monthStart, dayOfMonth, Calories, d) {
      TallySince(ws, monthStart, dayOfMonth, Calories, d);
    }

    labels, calories := [], [];
    var i := 1;
    while i <= DaysInChartMonth
      invariant 1 <= i <= DaysInChartMonth + 1
      invariant |labels| == i - 1 && |calories| == i - 1
      invariant forall k :: 0 <= k < i - 1 ==> labels[k] == DecimalString(k + 1)
      invariant forall k :: 0 <= k < i - 1 ==> calories[k] == Tally(ws, monthStart, dayOfMonth, Calories, k + 1)
    {
      labels := labels + [DecimalString(i)];
      calories := calories + [Lookup(daily, i)];
      i := i + 1;
    }
  }

  /** `counts` are the bar heights for `ws`: slot `d` is the number of records since `weekStart` on weekday `d`. */
  ghost predicate ShowsWeek(counts: seq<int>, ws: seq<Workout>, weekStart: Timestamp, dayOfWeek: Timestamp -> int)
  {
    |counts| == 7
    && forall d :: 0 <= d < 7 ==> counts[d] == Tally(ws, weekStart, dayOfWeek, Occurrences, d)
  }

  /** `labels` and `calories` are the 31 points of the line chart for `ws`. */
  ghost predicate ShowsMonth(labels: seq<string>, calories: seq<int>, ws: seq<Workout>, monthStart: Timestamp,
                             dayOfMonth: Timestamp -> int)
  {
    && |labels| == DaysInChartMonth && |calories| == DaysInChartMonth
    && (forall i :: 0 <= i < DaysInChartMonth ==> labels[i] == DecimalString(i + 1))
    && (forall i :: 0 <= i < DaysInChartMonth ==> calories[i] == Tally(ws, monthStart, dayOfMonth, Calories, i + 1))
  }

  /** The first `k` points of a series whose point `i` is slot `lo + i` add up to those `k` slots. */
  lemma {:induction false} SeriesSum(s: seq<int>, ws: seq<Workout>, start: Timestamp, dayOf: Timestamp -> int,
                                     m: Measure, lo: int, k: nat)
    requires k <= |s|
    requires forall i :: 0 <= i < k ==> s[i] == Tally(ws, start, dayOf, m, lo + i)
    ensures SeqSum(s[..k]) == SlotTotal(ws, start, dayOf, m, lo, k)
  {
    if k > 0 {
      assert s[..k][..k - 1] == s[..k - 1];
      SeriesSum(s, ws, start, dayOf, m, lo, k - 1);
    }
  }

  /** The seven bars together count exactly the records since the start of the week. */
  lemma WeeklyTotal(counts: seq<int>, ws: seq<Workout>, weekStart: Timestamp, dayOfWeek: Timestamp -> int)
    requires IsDayOfWeek(dayOfWeek)
    requires ShowsWeek(counts, ws, weekStart, dayOfWeek)
    ensures SeqSum(counts) == |Since(ws, weekStart)|
  {
    assert counts[..7] == counts;
    SeriesSum(counts, ws, weekStart, dayOfWeek, Occurrences, 0, 7);
    SlotsPartition(ws, weekStart, dayOfWeek, Occurrences, 0, 7);
    SumOccurrences(Since(ws, weekStart));
  }

  /** The 31 points of the line chart together hold the calories of every record since the first of the month. */
  lemma MonthlyTotal(labels: seq<string>, calories: seq<int>, ws: seq<Workout>, monthStart: Timestamp,
                     dayOfMonth: Timestamp -> int)
    requires IsDayOfMonth(dayOfMonth)
    requires ShowsMonth(labels, calories, ws, monthStart, dayOfMonth)
    ensures SeqSum(calories) == Sum(Since(ws, monthStart), Calories)
  {
    assert calories[..DaysInChartMonth] == calories;
    SeriesSum(calories, ws, monthStart, dayOfMonth, Calories, 1, DaysInChartMonth);
    SlotsPartition(ws, monthStart, dayOfMonth, Calories, 1, DaysInChartMonth);
  }

  /**
   * A day on which no record falls, such as day 31 of a 30-day month, still has its labelled
   * point on the line chart, and its value is 0.
   */
  lemma MonthlyEmptyDay(labels: seq<string>, calories: seq<int>, ws: seq<Workout>, monthStart: Timestamp,
                        dayOfMonth: Timestamp -> int, day: int)
    requires ShowsMonth(labels, calories, ws, monthStart, dayOfMonth)
    requires 1 <= day <= DaysInChartMonth
    requires forall w :: w in ws && monthStart <= w.date ==> dayOfMonth(w.date) != day
    ensures labels[day - 1] == DecimalString(day) && calories[day - 1] == 0
  {
    TallyEmptySlot(ws, monthStart, dayOfMonth, Calories, day);
  }

  /** A record dated exactly at the start bound is counted in its slot; one a millisecond earlier is not. */
  lemma StartBoundary(ws: seq<Workout>, w: Workout, start: Timestamp, dayOf: Timestamp -> int, m: Measure, slot: int)
    ensures w.date == start && dayOf(w.date) == slot
            ==> Tally(ws + [w], start, dayOf, m, slot) == Tally(ws, start, dayOf, m, slot) + Weight(w, m)
    ensures w.date == start - 1
            ==> Tally(ws + [w], start, dayOf, m, slot) == Tally(ws, start, dayOf, m, slot)
  {
    TallySnoc(ws, w, start, dayOf, m, slot);
  }

  /**
   * Because the week start keeps the current time of day, a workout logged on the first day of
   * the week but at an earlier clock time than now is left out of the weekly chart.
   */
  lemma EarlierOnFirstDayLeftOut(ws: seq<Workout>, w: Workout, now: Timestamp, dayOfWeek: Timestamp -> int, d: int)
    requires IsDayOfWeek(dayOfWeek)
    requires w.date / MsPerDay == WeekStart(now, dayOfWeek) / MsPerDay
    requires w.date % MsPerDay < now % MsPerDay
    ensures Tally(ws + [w], WeekStart(now, dayOfWeek), dayOfWeek, Occurrences, d)
         == Tally(ws, WeekStart(now, dayOfWeek), dayOfWeek, Occurrences, d)
  {
    var s := WeekStart(now, dayOfWeek);
    assert w.date == (w.date / MsPerDay) * MsPerDay + w.date % MsPerDay;
    assert s == (s / MsPerDay) * MsPerDay + s % MsPerDay;
    assert w.date < s;
    TallySnoc(ws, w, s, dayOfWeek, Occurrences, d);
  }

  /** The first bar is labelled "Mon" but counts the workouts whose `getDay()` is 0, i.e. Sunday. */
  lemma SundayDrawnUnderMon(ws: seq<Workout>, w: Workout, weekStart: Timestamp, dayOfWeek: Timestamp -> int)
    requires weekStart <= w.date && dayOfWeek(w.date) == Sunday
    ensures WeekdayLabels[Sunday] == "Mon"
    ensures Tally(ws + [w], weekStart, dayOfWeek, Occurrences, Sunday)
         == Tally(ws, weekStart, dayOfWeek, Occurrences, Sunday) + 1
  {
    TallySnoc(ws, w, weekStart, dayOfWeek, Occurrences, Sunday);
  }

  /** The monthly labels are "1" .. "31", all different. */
  lemma MonthlyLabels()
    ensures DecimalString(1) == "1" && DecimalString(9) == "9"
    ensures DecimalString(10) == "10" && DecimalString(31) == "31"
    ensures forall i, j :: 1 <= i < j <= 31 ==> DecimalString(i) != DecimalString(j)
  {
    forall i, j | 1 <= i < j <= 31 ensures DecimalString(i) != DecimalString(j) {
      DecimalInjective(i, j);
    }
  }
}
