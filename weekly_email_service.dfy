/**
 * src/services/weeklyEmailService.ts: the batch job that sends every
 * subscribed user a report of the current week. The two tables are
 * sequences of rows, and the failures the job can meet are inputs: a
 * failed user query, and per user (by position in the list) a failed
 * activity query, a send that throws, or an exception anywhere else in
 * that user's iteration.
 */
module WeeklyEmailService {
  import opened Wrappers
  import opened Lists
  import opened Calendar
  import opened Activities
  import opened WeeklySummary
  import opened Insights
  import opened ActivityService
  import opened UserService

  /**
   * `getWeekStartDate`: go back `getDay()` days, so the week starts on the
   * Sunday on or before today, and today when it is a Sunday.
   */
  function GetWeekStartDate(now: Instant): (d: Date)
    ensures WeekdayOfDay(d) == 0
    ensures Day(now) - 6 <= d <= Day(now)
    ensures d == Day(now) <==> Weekday(now) == 0
  {
    BackToSunday(Day(now));
    Day(now) - Weekday(now)
  }

  /** The week start is the only Sunday among today and the six days before it. */
  lemma WeekStartIsTheSunday(now: Instant, d: Date)
    requires Day(now) - 6 <= d <= Day(now) && WeekdayOfDay(d) == 0
    ensures d == GetWeekStartDate(now)
  {
    var s := GetWeekStartDate(now);
    assert (d + 4) % 7 == 0 && (s + 4) % 7 == 0;
    assert -6 <= d - s <= 6;
    assert (d + 4) - (s + 4) == 7 * ((d + 4) / 7 - (s + 4) / 7);
  }

  /** `WeeklyReportData`: the user, the week's rows, their totals and the AI insights. */
  datatype WeeklyReportData = WeeklyReportData(
    user: User,
    activities: seq<UserActivity>,
    stats: Summary,
    aiInsights: AIInsights)

  /**
   * One user's report: the totals of the rows (a missing distance counts
   * as 0, days are distinct dates) and `generateAIInsights` of them, whose
   * tiers and score are those of the AI component.
   */
  function BuildReport(user: User, rows: seq<UserActivity>): (r: WeeklyReportData)
    ensures r.user == user && r.activities == rows
    ensures r.stats.totalWorkouts == |rows| && r.stats.workoutDays <= |rows|
    ensures r.stats.consistencyPercentage == ConsistencyPercentage(r.stats.workoutDays)
    ensures r.aiInsights.consistency == ConsistencyTierOf(r.stats.workoutDays)
    ensures r.aiInsights.performance == PerformanceTierOf(AverageDuration(r.stats.totalDuration, r.stats.totalWorkouts))
    ensures r.aiInsights.motivation == CalorieTierOf(r.stats.totalCalories)
    ensures 0.0 <= r.aiInsights.weeklyScore <= 100.0
  {
    var stats := Summarize(AsActivities(rows));
    WeeklyReportData(user, rows, stats, GenerateAIInsights(stats))
  }

  /** The report's totals agree with what `getUserStats` folds from the same rows. */
  lemma ReportAgreesWithUserStats(user: User, rows: seq<UserActivity>)
    ensures var s := BuildReport(user, rows).stats;
      StatsOf(rows) == Stats(s.totalWorkouts, s.totalDuration, s.totalDistance, s.totalCalories)
  {
    StatsAgree(rows);
  }

  /** What can go wrong while one user is processed. */
  datatype Faults = Faults(queryFailed: bool, sendThrew: bool, processingThrew: bool)

  /** The outcome the job logs for one user. */
  datatype UserResult =
    | Sent(email: string, report: WeeklyReportData)
    | SendFailed(email: string, report: WeeklyReportData)
    | ProcessingError(email: string)

  /**
   * One iteration of the loop: fetch the user's rows of the week (none when
   * the query fails, otherwise every one of them), build the report and
   * send it; `sendEmailToUser`
   * reports success unless it throws. An exception elsewhere in the
   * iteration is caught and logged.
   */
  function ProcessUser(store: seq<UserActivity>, user: User, weekStart: Date, f: Faults): (r: UserResult)
    ensures r.email == user.email
    ensures r.Sent? <==> !f.processingThrew && !f.sendThrew
    ensures r.ProcessingError? <==> f.processingThrew
    ensures !r.ProcessingError? ==>
      && r.report.user == user
      && (forall i :: 0 <= i < |r.report.activities| ==> InWeek(r.report.activities[i], user.id, weekStart))
      && (f.queryFailed ==> r.report.stats.totalWorkouts == 0)
      && (!f.queryFailed ==> forall x :: multiset(r.report.activities)[x] ==
                               if InWeek(x, user.id, weekStart) then multiset(store)[x] else 0)
      && r.report.stats.consistencyPercentage <= 100
  {
    if f.processingThrew then ProcessingError(user.email)
    else
      var rows := GetWeeklyActivities(store, user.id, weekStart, f.queryFailed);
      WeeklyActivitiesWithinWeek(store, user.id, weekStart, f.queryFailed);
      var report := BuildReport(user, rows);
      if f.sendThrew then SendFailed(user.email, report) else Sent(user.email, report)
  }

  /**
   * `sendWeeklyReportsToAllUsers`. With no subscribed users (or a failed
   * user query, which yields none) it stops before computing the week
   * start. Otherwise every subscribed user is processed once, in list
   * order, and the result for each user depends only on that user's own
   * faults: an exception for one user does not stop the others.
   */
  method SendWeeklyReportsToAllUsers(
    allUsers: seq<User>, usersQueryFailed: bool, store: seq<UserActivity>, now: Instant, faults: nat -> Faults)
    returns (weekStart: Option<Date>, results: seq<UserResult>)
    ensures var users := GetAllUsersWithWeeklyReports(allUsers, usersQueryFailed);
      && (users == [] ==> weekStart == None && results == [])
      && (users != [] ==>
            && weekStart == Some(GetWeekStartDate(now))
            && |results| == |users|
            && forall i :: 0 <= i < |users| ==>
                 results[i] == ProcessUser(store, users[i], GetWeekStartDate(now), faults(i)))
  {
    var users := GetAllUsersWithWeeklyReports(allUsers, usersQueryFailed);
    if |users| == 0 {
      return None, [];
    }
    var start := GetWeekStartDate(now);
    weekStart := Some(start);
    results := [];
    for i := 0 to |users|
      invariant results == MapIndexed(users[..i], Step(store, start, faults))
    {
      var result := ProcessOne(store, users[i], start, faults(i));
      MapIndexedSnoc(users, i, Step(store, start, faults));
      results := results + [result];
    }
    assert users[..|users|] == users;
  }

  /** The loop body as a function of the user and its position. */
  function Step(store: seq<UserActivity>, weekStart: Date, faults: nat -> Faults): (User, nat) -> UserResult {
    (user: User, k: nat) => ProcessUser(store, user, weekStart, faults(k))
  }

  /** The body of the loop for one user. */
  method ProcessOne(store: seq<UserActivity>, user: User, weekStart: Date, f: Faults) returns (result: UserResult)
    ensures result == ProcessUser(store, user, weekStart, f)
  {
    if f.processingThrew {
      result := ProcessingError(user.email);
    } else {
      var rows := GetWeeklyActivities(store, user.id, weekStart, f.queryFailed);
      var report := BuildReport(user, rows);
      var emailSent := !f.sendThrew;
      result := if emailSent then Sent(user.email, report) else SendFailed(user.email, report);
    }
  }
}
