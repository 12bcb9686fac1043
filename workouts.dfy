/**
 * The workout record of the fitness tracker and the abstract calendar it is bucketed by.
 *
 * Dates are modelled as integer timestamps in milliseconds (the resolution of `Date.now()`
 * and of an ISO-8601 string from `toISOString()`); days are taken to be `MsPerDay` long.
 * The calendar questions the tracker asks of a date (`getDay()`, `getDate()`) are passed
 * around as functions of the timestamp, constrained by the two predicates below.
 */
module Workouts {

  type Timestamp = int

  const MsPerDay: int := 86_400_000

  /** `Date.prototype.getDay` as a function of the timestamp: 0 is Sunday, 6 is Saturday. */
  ghost predicate IsDayOfWeek(dayOfWeek: Timestamp -> int)
  {
    forall t :: 0 <= dayOfWeek(t) < 7
  }

  const Sunday: int := 0

  /** `Date.prototype.getDate` as a function of the timestamp: a day of the month, 1 .. 31. */
  ghost predicate IsDayOfMonth(dayOfMonth: Timestamp -> int)
  {
    forall t :: 1 <= dayOfMonth(t) <= 31
  }

  /**
   * One logged session, with the fields the tracker stores: `{id, type, duration, calories,
   * notes, date}`. The source's `type` field is called `kind` here.
   */
  datatype Workout = Workout(
    id: int,
    kind: string,
    duration: int,
    calories: int,
    notes: string,
    date: Timestamp)

  datatype Option<T> = None | Some(value: T)

  /** What an aggregate adds up per record: one per record, its minutes or its calories. */
  datatype Measure = Occurrences | Duration | Calories

  function Weight(w: Workout, m: Measure): int
  {
    match m
    case Occurrences => 1
    case Duration => w.duration
    case Calories => w.calories
  }

  /** Reference definition of an aggregate: the sum of `m` over the records. */
  function Sum(ws: seq<Workout>, m: Measure): int
  {
    if ws == [] then 0 else Weight(ws[0], m) + Sum(ws[1..], m)
  }

  /** Appending a record adds exactly its own weight to an aggregate. */
  lemma {:induction false} SumSnoc(ws: seq<Workout>, w: Workout, m: Measure)
    ensures Sum(ws + [w], m) == Sum(ws, m) + Weight(w, m)
  {
    if ws == [] {
      assert [] + [w] == [w];
    } else {
      assert (ws + [w])[1..] == ws[1..] + [w];
      SumSnoc(ws[1..], w, m);
    }
  }

  /** Counting occurrences is taking the length. */
  lemma {:induction false} SumOccurrences(ws: seq<Workout>)
    ensures Sum(ws, Occurrences) == |ws|
  {
    if ws != [] {
      SumOccurrences(ws[1..]);
    }
  }
}
