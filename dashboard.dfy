/**
 * The dashboard figures and the two list views of the tracker: recomputed from the whole
 * record list every time they are shown.
 */
module Dashboard {
  import opened Workouts
  import opened Sequences

  const WorkoutsPerGoal: nat := 10
  const RecentSize: nat := 5
  const HistorySize: nat := 10

  const NoRecentMessage: string := "No recent workouts"
  const NoHistoryMessage: string := "No workouts logged yet"

  /** A rendered list: either the records it shows, in display order, or a single placeholder line. */
  datatype ListView = Placeholder(message: string) | Entries(items: seq<Workout>)

  /** The four dashboard figures and the recent-activity list. */
  datatype Stats = Stats(
    totalWorkouts: nat,
    totalTime: int,
    totalCalories: int,
    goalsAchieved: nat,
    recent: ListView)

  /**
   * `ws.reduce((sum, w) => sum + <field of w>, acc)`: the callback is applied to the records
   * front to back, each time to the running sum. Folding this way gives the start value plus
   * the reference sum.
   */
  function Reduce(ws: seq<Workout>, m: Measure, acc: int): (r: int)
    ensures r == acc + Sum(ws, m)
  {
    if ws == [] then acc else Reduce(ws[1..], m, acc + Weight(ws[0], m))
  }

  /** `Math.floor(count / 10)`: one goal per ten logged workouts. */
  function GoalsAchieved(count: nat): (g: nat)
    ensures g * WorkoutsPerGoal <= count < (g + 1) * WorkoutsPerGoal
  {
    count / WorkoutsPerGoal
  }

  lemma GoalExamples()
    ensures forall n: nat :: n < 10 ==> GoalsAchieved(n) == 0
    ensures GoalsAchieved(9) == 0 && GoalsAchieved(10) == 1 && GoalsAchieved(37) == 3
  {
    assert GoalsAchieved(37) * 10 <= 37 < (GoalsAchieved(37) + 1) * 10;
  }

  /** `ws.slice(-k).reverse()`: the last `k` records (all of them if fewer), newest first. */
  function NewestFirst(ws: seq<Workout>, k: nat): (r: seq<Workout>)
    requires 0 < k
    ensures |r| == Min(k, |ws|)
    ensures forall i :: 0 <= i < |r| ==> r[i] == ws[|ws| - 1 - i]
  {
    Reverse(SliceFrom(ws, -(k as int)))
  }

  /** The recent-activity list: the window is computed first and replaced by a placeholder when empty. */
  function RecentView(ws: seq<Workout>): (v: ListView)
    ensures v.Placeholder? <==> ws == []
    ensures v.Placeholder? ==> v.message == NoRecentMessage
    ensures v.Entries? ==> |v.items| == Min(RecentSize, |ws|) && |v.items| > 0
    ensures v.Entries? ==> forall i :: 0 <= i < |v.items| ==> v.items[i] == ws[|ws| - 1 - i]
  {
    var recent := NewestFirst(ws, RecentSize);
    if |recent| == 0 then Placeholder(NoRecentMessage) else Entries(recent)
  }

  /** The workout-history list: the list itself is tested for emptiness before the window is taken. */
  function HistoryView(ws: seq<Workout>): (v: ListView)
    ensures v.Placeholder? <==> ws == []
    ensures v.Placeholder? ==> v.message == NoHistoryMessage
    ensures v.Entries? ==> |v.items| == Min(HistorySize, |ws|) && |v.items| > 0
    ensures v.Entries? ==> forall i :: 0 <= i < |v.items| ==> v.items[i] == ws[|ws| - 1 - i]
  {
    if |ws| == 0 then Placeholder(NoHistoryMessage) else Entries(NewestFirst(ws, HistorySize))
  }

  /** What the dashboard shows for the record list `ws`. */
  function DashboardOf(ws: seq<Workout>): (d: Stats)
    ensures d.totalWorkouts == |ws|
    ensures d.totalTime == Sum(ws, Duration)
    ensures d.totalCalories == Sum(ws, Calories)
    ensures d.goalsAchieved * WorkoutsPerGoal <= |ws| < (d.goalsAchieved + 1) * WorkoutsPerGoal
    ensures d.recent == RecentView(ws)
  {
    Stats(|ws|, Reduce(ws, Duration, 0), Reduce(ws, Calories, 0), GoalsAchieved(|ws|), RecentView(ws))
  }

  /** Seven records logged in the order a .. g show as g, f, e, d, c in the recent list. */
  lemma RecentOfSeven(a: Workout, b: Workout, c: Workout, d: Workout, e: Workout, f: Workout, g: Workout)
    ensures RecentView([a, b, c, d, e, f, g]) == Entries([g, f, e, d, c])
  {
    var ws := [a, b, c, d, e, f, g];
    var v := RecentView(ws);
    assert |v.items| == 5;
    assert v.items[0] == ws[6] && v.items[1] == ws[5] && v.items[2] == ws[4];
    assert v.items[3] == ws[3] && v.items[4] == ws[2];
    assert v.items == [g, f, e, d, c];
  }

  /**
   * Logging one more record adds one to the count, its minutes and calories to the totals,
   * and puts it at the head of both lists.
   */
  lemma {:induction false} DashboardAfterAppend(ws: seq<Workout>, w: Workout)
    ensures DashboardOf(ws + [w]).totalWorkouts == DashboardOf(ws).totalWorkouts + 1
    ensures DashboardOf(ws + [w]).totalTime == DashboardOf(ws).totalTime + w.duration
    ensures DashboardOf(ws + [w]).totalCalories == DashboardOf(ws).totalCalories + w.calories
    ensures RecentView(ws + [w]).Entries? && RecentView(ws + [w]).items[0] == w
    ensures HistoryView(ws + [w]).Entries? && HistoryView(ws + [w]).items[0] == w
  {
    SumSnoc(ws, w, Duration);
    SumSnoc(ws, w, Calories);
  }
}
