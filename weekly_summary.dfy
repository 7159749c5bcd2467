/**
 * The weekly aggregation that the source writes out five times
 * (AIWeeklyEmailSystem, WeeklyEmailScheduler, WeeklyReportModal,
 * weeklyEmailService and, without the day count, activityService's
 * `getUserStats`): `reduce` sums of duration, calories and distance (a
 * missing distance counts as 0), the number of distinct dates
 * (`new Set(dates).size`) and `Math.round(workoutDays / 7 * 100)`.
 * Each sum is a left fold, in the order `reduce` visits the list.
 */
module WeeklySummary {
  import opened Wrappers
  import opened Activities

  function TotalDuration(acts: seq<Activity>): nat {
    if acts == [] then 0 else TotalDuration(acts[..|acts| - 1]) + acts[|acts| - 1].duration
  }

  function TotalCalories(acts: seq<Activity>): nat {
    if acts == [] then 0 else TotalCalories(acts[..|acts| - 1]) + acts[|acts| - 1].calories
  }

  /** `activity.distance || 0`. */
  function DistanceOrZero(a: Activity): real {
    match a.distance
    case None => 0.0
    case Some(d) => d
  }

  function TotalDistance(acts: seq<Activity>): real {
    if acts == [] then 0.0 else TotalDistance(acts[..|acts| - 1]) + DistanceOrZero(acts[|acts| - 1])
  }

  /** `new Set(acts.map(a => a.date))`: exactly the dates that occur. */
  function ActiveDates(acts: seq<Activity>): (ds: set<Date>)
    ensures forall d :: d in ds <==> exists i :: 0 <= i < |acts| && acts[i].date == d
  {
    if acts == [] then {}
    else
      var init := acts[..|acts| - 1];
      var ds := ActiveDates(init) + {acts[|acts| - 1].date};
      assert forall i :: 0 <= i < |init| ==> init[i] == acts[i];
      ds
  }

  /** Distinct workout days: dates, not activities, are counted. */
  function WorkoutDays(acts: seq<Activity>): nat {
    |ActiveDates(acts)|
  }

  /**
   * `Math.round(days / 7 * 100)` in exact integers. The rounding is to the
   * nearest integer; a tie cannot occur because 200 * days + 7 is odd.
   */
  function ConsistencyPercentage(days: nat): (p: nat)
    ensures (p as real) - 0.5 < (days as real) / 7.0 * 100.0 < (p as real) + 0.5
    ensures days <= 7 ==> p <= 100
  {
    var p := (200 * days + 7) / 14;
    assert 14 * p <= 200 * days + 7 < 14 * p + 14;
    assert 14 * p != 200 * days + 7;
    assert (days as real) / 7.0 * 100.0 == (200 * days) as real / 14.0;
    p
  }

  /** Landmark values of the percentage and its monotonicity. */
  lemma ConsistencyLandmarks(d1: nat, d2: nat)
    ensures ConsistencyPercentage(0) == 0 && ConsistencyPercentage(7) == 100
    ensures ConsistencyPercentage(3) == 43 && ConsistencyPercentage(4) == 57
    ensures d1 <= d2 ==> ConsistencyPercentage(d1) <= ConsistencyPercentage(d2)
  {
  }

  /** Below 50% exactly when there are at most three workout days. */
  lemma ConsistencyBelowHalf(days: nat)
    ensures ConsistencyPercentage(days) < 50 <==> days <= 3
  {
    ConsistencyLandmarks(days, 3);
    ConsistencyLandmarks(4, days);
  }

  datatype Summary = Summary(
    totalWorkouts: nat,
    totalDuration: nat,
    totalCalories: nat,
    totalDistance: real,
    workoutDays: nat,
    consistencyPercentage: nat)

  function Summarize(acts: seq<Activity>): (s: Summary)
    ensures s.totalWorkouts == |acts|
    ensures s.workoutDays <= s.totalWorkouts
    ensures s.workoutDays == 0 <==> s.totalWorkouts == 0
    ensures s.totalWorkouts == 0 ==> s.totalDuration == 0 && s.totalCalories == 0 && s.consistencyPercentage == 0
    ensures s.consistencyPercentage == ConsistencyPercentage(s.workoutDays)
  {
    WorkoutDaysBound(acts);
    var days := WorkoutDays(acts);
    Summary(|acts|, TotalDuration(acts), TotalCalories(acts), TotalDistance(acts), days, ConsistencyPercentage(days))
  }

  /** There are never more distinct days than activities, and at least one if any. */
  lemma {:induction false} WorkoutDaysBound(acts: seq<Activity>)
    ensures WorkoutDays(acts) <= |acts|
    ensures acts != [] ==> WorkoutDays(acts) >= 1
    decreases |acts|
  {
    if acts != [] {
      WorkoutDaysBound(acts[..|acts| - 1]);
      assert acts[|acts| - 1].date in ActiveDates(acts);
    }
  }

  /** Each total of a concatenation is the sum of the totals of the parts. */
  lemma {:induction false} TotalsAppend(a: seq<Activity>, b: seq<Activity>)
    ensures TotalDuration(a + b) == TotalDuration(a) + TotalDuration(b)
    ensures TotalCalories(a + b) == TotalCalories(a) + TotalCalories(b)
    ensures TotalDistance(a + b) == TotalDistance(a) + TotalDistance(b)
    ensures ActiveDates(a + b) == ActiveDates(a) + ActiveDates(b)
    decreases |b|
  {
    if b == [] {
      assert a + b == a;
    } else {
      var b' := b[..|b| - 1];
      assert (a + b)[..|a + b| - 1] == a + b';
      TotalsAppend(a, b');
    }
  }

  /** The dates of one week, `weekStart` to `weekStart + 6` inclusive. */
  function WeekDates(weekStart: Date): (ds: set<Date>)
    ensures |ds| == 7
    ensures forall d :: d in ds <==> weekStart <= d <= weekStart + 6
  {
    {weekStart, weekStart + 1, weekStart + 2, weekStart + 3, weekStart + 4, weekStart + 5, weekStart + 6}
  }

  /**
   * Activities that all fall in one week have at most seven workout days,
   * so their consistency never exceeds 100%.
   */
  lemma WithinWeek(acts: seq<Activity>, weekStart: Date)
    requires forall i :: 0 <= i < |acts| ==> weekStart <= acts[i].date <= weekStart + 6
    ensures WorkoutDays(acts) <= 7
    ensures Summarize(acts).consistencyPercentage <= 100
  {
    assert ActiveDates(acts) <= WeekDates(weekStart);
    SubsetCard(ActiveDates(acts), WeekDates(weekStart));
  }

  lemma SubsetCard(a: set<Date>, b: set<Date>)
    requires a <= b
    ensures |a| <= |b|
  {
    assert b == a + (b - a);
  }

  /**
   * The example week: a 45-minute run and a 60-minute ride on one day and a
   * 30-minute workout on another give 3 workouts, 135 minutes, 1180
   * calories, 2 days and 29% consistency.
   */
  lemma ExampleWeek()
    ensures var acts := [
        Activity(100, "run", 45, Some(8.2), 420),
        Activity(101, "workout", 30, None, 280),
        Activity(100, "ride", 60, Some(15.7), 480)];
      Summarize(acts) == Summary(3, 135, 1180, 23.9, 2, 29)
  {
    var run := Activity(100, "run", 45, Some(8.2), 420);
    var workout := Activity(101, "workout", 30, None, 280);
    var ride := Activity(100, "ride", 60, Some(15.7), 480);
    assert [run, workout] == [run] + [workout];
    assert [run, workout, ride] == [run, workout] + [ride];
    Single(run);
    Single(workout);
    Single(ride);
    TotalsAppend([run], [workout]);
    TotalsAppend([run, workout], [ride]);
    assert ActiveDates([run, workout, ride]) == {100, 101};
    assert ConsistencyPercentage(2) == 29;
  }

  /** The totals of a single activity are its own values. */
  lemma Single(a: Activity)
    ensures TotalDuration([a]) == a.duration && TotalCalories([a]) == a.calories
    ensures TotalDistance([a]) == DistanceOrZero(a) && ActiveDates([a]) == {a.date}
  {
    assert [a][..0] == [];
  }
}
