/**
 * src/components/WeeklyReportModal.tsx: the weekly report dialog, as the
 * values it renders from its props. Nothing is rendered while the dialog
 * is closed.
 */
module WeeklyReportModal {
  import opened Wrappers
  import opened Calendar
  import opened WeekNumbering
  import opened Activities
  import opened WeeklySummary
  import opened Insights
  import opened EmailService
  import opened Icons
  import Scheduler = WeeklyEmailScheduler

  /** `{activity.distance && …}`: the distance is shown only when present and non-zero. */
  function ShownDistance(distance: Option<real>): (r: Option<real>)
    ensures r.Some? <==> distance.Some? && distance.value != 0.0
    ensures r.Some? ==> r == distance
  {
    if distance.Some? && distance.value != 0.0 then distance else None
  }

  /** One line of the daily breakdown. */
  datatype BreakdownRow = BreakdownRow(
    emoji: string, kind: string, date: Date, duration: string, calories: nat, distance: Option<real>)

  function Row(a: Activity): BreakdownRow {
    BreakdownRow(EmojiFor(WorkoutEmoji, a.kind), a.kind, a.date, FormatDuration(a.duration), a.calories,
                 ShownDistance(a.distance))
  }

  /** The daily breakdown: one row per activity, in the order of `weekData`. */
  function Breakdown(weekData: seq<Activity>): (rows: seq<BreakdownRow>)
    ensures |rows| == |weekData|
    ensures forall i :: 0 <= i < |weekData| ==>
      && rows[i].emoji == EmojiFor(WorkoutEmoji, weekData[i].kind)
      && rows[i].kind == weekData[i].kind && rows[i].date == weekData[i].date
      && ParseDuration(rows[i].duration) == Some(weekData[i].duration)
      && rows[i].calories == weekData[i].calories
      && rows[i].distance == ShownDistance(weekData[i].distance)
  {
    forall i | 0 <= i < |weekData| {
      FormatParseDuration(weekData[i].duration);
    }
    seq(|weekData|, i requires 0 <= i < |weekData| => Row(weekData[i]))
  }

  /** What the open dialog shows. */
  datatype ReportView = ReportView(
    weekNumber: nat,
    year: nat,
    totals: Summary,
    totalTime: string,
    consistencyMessage: string,
    performanceInsight: string,
    breakdown: seq<BreakdownRow>,
    goals: Goals)

  /**
   * The dialog: the totals of `weekData`, the two messages, one breakdown
   * row per activity in order, and the next-week targets (days not capped
   * at 7 here).
   */
  function Render(isOpen: bool, weekData: seq<Activity>, weekNumber: nat, year: nat): (v: Option<ReportView>)
    ensures v.None? <==> !isOpen
    ensures v.Some? ==> var r := v.value;
      && r.totals == Summarize(weekData)
      && ParseDuration(r.totalTime) == Some(r.totals.totalDuration)
      && r.consistencyMessage == ConsistencyMessage(r.totals.workoutDays)
      && r.performanceInsight == PerformanceInsight(r.totals.totalDuration, r.totals.totalWorkouts)
      && r.goals == NextWeekGoals(r.totals.workoutDays, r.totals.totalDuration, r.totals.totalCalories)
      && r.breakdown == Breakdown(weekData)
  {
    if !isOpen then None
    else
      var s := Summarize(weekData);
      FormatParseDuration(s.totalDuration);
      Some(ReportView(
        weekNumber, year, s, FormatDuration(s.totalDuration),
        ConsistencyMessage(s.workoutDays), PerformanceInsight(s.totalDuration, s.totalWorkouts),
        Breakdown(weekData),
        NextWeekGoals(s.workoutDays, s.totalDuration, s.totalCalories)))
  }

  /**
   * Opened on the scheduler's activities, the dialog shows the same total
   * time and the same two messages as the plain weekly e-mail of that week.
   */
  lemma ModalMatchesEmail(userEmail: string, userName: string, acts: seq<Activity>, now: Instant, loc: Locale)
    ensures var view := Render(true, acts, WeekNumber(now), now.year).value;
      var p := Params(Scheduler.EmailData(userEmail, userName, acts, Summarize(acts), now), loc);
      && view.totalTime == p.totalDuration
      && view.consistencyMessage == p.consistencyMessage
      && view.performanceInsight == p.performanceInsight
  {
  }

  /**
   * An empty week: no breakdown rows (the "No activities recorded this
   * week" panel), a total time of "0m" and the floor targets.
   */
  lemma EmptyWeekView(weekNumber: nat, year: nat)
    ensures var r := Render(true, [], weekNumber, year).value;
      && r.breakdown == [] && r.totals.totalWorkouts == 0 && r.totals.consistencyPercentage == 0
      && ParseDuration(r.totalTime) == Some(0)
      && r.goals == Goals(5, 300, 2000)
  {
  }
}
