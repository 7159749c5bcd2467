/**
 * src/services/emailService.ts: the helpers that fill the EmailJS
 * `template_params` of the plain and the AI weekly e-mail, and the outcome
 * of a send. The HTTP request itself is an oracle: it either answers with
 * an `ok` flag or throws. Locale rendering (`toLocaleDateString`,
 * `toLocaleString`, number-to-text of a distance) is a parameter.
 */
module EmailService {
  import opened Wrappers
  import opened Text
  import opened Activities
  import opened Insights

  /** The renderings the source delegates to the JavaScript runtime's locale. */
  datatype Locale = Locale(
    showDate: Date -> string,   // toLocaleDateString('en-US', {weekday, month, day})
    showCount: nat -> string,   // Number.prototype.toLocaleString
    showKm: real -> string)     // `${distance}`

  // ---------------------------------------------------------------- durations

  /** `formatDuration`: "{h}h {m}m" when there is at least one hour, else "{m}m". */
  function FormatDuration(minutes: nat): (r: string)
    ensures 'h' in r <==> minutes >= 60
    ensures '\n' !in r
  {
    var hours, mins := minutes / 60, minutes % 60;
    NoLettersInDigits(NatToString(hours));
    NoLettersInDigits(NatToString(mins));
    if hours > 0 then NatToString(hours) + "h " + NatToString(mins) + "m" else NatToString(mins) + "m"
  }

  lemma NoLettersInDigits(s: string)
    requires AllDigits(s)
    ensures 'h' !in s && '\n' !in s && ',' !in s
  {
  }

  /**
   * Reads a rendered duration back: "{h}h {m}m" with at least one hour, or
   * "{m}m", with the minutes below 60 and numerals without leading zeros.
   */
  function ParseDuration(s: string): Option<nat> {
    if |s| == 0 || s[|s| - 1] != 'm' then None else ParseDurationBody(s[..|s| - 1])
  }

  function ParseDurationBody(body: string): Option<nat> {
    match IndexOf(body, 'h')
    case None => if ParseCount(body).Some? && ParseCount(body).value < 60 then ParseCount(body) else None
    case Some(i) => ParseHoursRest(body[..i], body[i + 1..])
  }

  function ParseCount(s: string): Option<nat> {
    if Canonical(s) then Some(ParseNat(s)) else None
  }

  function ParseHoursRest(hs: string, rest: string): Option<nat> {
    if |rest| >= 1 && rest[0] == ' ' && ParseCount(hs).Some? && ParseCount(rest[1..]).Some?
       && ParseCount(hs).value >= 1 && ParseCount(rest[1..]).value < 60
    then Some(60 * ParseCount(hs).value + ParseCount(rest[1..]).value)
    else None
  }

  /**
   * The rendering loses nothing: the hours (at least one) and the minutes
   * (below 60) read back give the original count.
   */
  lemma FormatParseDuration(minutes: nat)
    ensures ParseDuration(FormatDuration(minutes)) == Some(minutes)
  {
    var hours, mins := minutes / 60, minutes % 60;
    assert 60 * hours + mins == minutes;
    if hours > 0 {
      var shown := NatToString(hours) + "h " + NatToString(mins) + "m";
      HoursMinutesRoundTrip(hours, mins, minutes);
      SameText(FormatDuration(minutes), shown, Some(minutes));
    } else {
      var shown := NatToString(mins) + "m";
      MinutesRoundTrip(mins);
      SameText(FormatDuration(minutes), shown, Some(minutes));
    }
  }

  /**
   * The rendering is the only text that reads back: whatever parses as a
   * duration is exactly `FormatDuration` of its value. So "1h 30m" is the
   * one rendering of 90 minutes, with hours `minutes / 60` and minutes
   * `minutes % 60`.
   */
  lemma ParseDurationCanonical(s: string)
    requires ParseDuration(s).Some?
    ensures s == FormatDuration(ParseDuration(s).value)
  {
    var body := s[..|s| - 1];
    assert s == body + "m";
    BodyCanonical(body);
  }

  lemma BodyCanonical(body: string)
    requires ParseDurationBody(body).Some?
    ensures body + "m" == FormatDuration(ParseDurationBody(body).value)
  {
    match IndexOf(body, 'h')
    case None =>
      MinutesRendering(body);
    case Some(i) =>
      HoursBody(body, i);
  }

  lemma HoursBody(body: string, i: nat)
    requires i < |body| && body[i] == 'h'
    requires ParseHoursRest(body[..i], body[i + 1..]).Some?
    ensures body + "m" == FormatDuration(ParseHoursRest(body[..i], body[i + 1..]).value)
  {
    var hs, rest := body[..i], body[i + 1..];
    var ms := rest[1..];
    HoursRestParts(hs, rest);
    HoursSplit(body, i);
    assert body[i + 2..] == ms;
    HoursRendering(hs, ms, ParseNat(hs), ParseNat(ms), ParseHoursRest(hs, rest).value);
  }

  lemma HoursRestParts(hs: string, rest: string)
    requires ParseHoursRest(hs, rest).Some?
    ensures |rest| >= 1 && rest[0] == ' ' && Canonical(hs) && Canonical(rest[1..])
    ensures ParseNat(hs) >= 1 && ParseNat(rest[1..]) < 60
    ensures ParseHoursRest(hs, rest).value == 60 * ParseNat(hs) + ParseNat(rest[1..])
  {
  }

  lemma HoursSplit(body: string, i: nat)
    requires i + 1 < |body| && body[i] == 'h' && body[i + 1] == ' '
    ensures body == body[..i] + "h " + body[i + 2..]
  {
    assert body == body[..i] + body[i..i + 2] + body[i + 2..];
  }

  lemma MinutesRendering(ms: string)
    requires Canonical(ms) && ParseNat(ms) < 60
    ensures FormatDuration(ParseNat(ms)) == ms + "m"
  {
    NatToStringParseNat(ms);
    MinutesText(ParseNat(ms), ms);
  }

  lemma MinutesText(m: nat, ms: string)
    requires m < 60 && NatToString(m) == ms
    ensures FormatDuration(m) == ms + "m"
  {
    assert m / 60 == 0 && m % 60 == m;
  }

  lemma HoursRendering(hs: string, ms: string, h: nat, m: nat, total: nat)
    requires Canonical(hs) && Canonical(ms) && h == ParseNat(hs) && m == ParseNat(ms)
    requires h >= 1 && m < 60 && total == 60 * h + m
    ensures FormatDuration(total) == hs + "h " + ms + "m"
  {
    NatToStringParseNat(hs);
    NatToStringParseNat(ms);
    HoursText(h, m, total, hs, ms);
  }

  /** With at least one hour, the rendering is the hours and the minutes below 60. */
  lemma HoursText(h: nat, m: nat, total: nat, hs: string, ms: string)
    requires h >= 1 && m < 60 && total == 60 * h + m && NatToString(h) == hs && NatToString(m) == ms
    ensures FormatDuration(total) == hs + "h " + ms + "m"
  {
    assert total / 60 == h && total % 60 == m;
  }

  /** Hence no other text, such as "0h 90m" or "90m", reads back as 90 minutes. */
  lemma OneRendering(s: string, minutes: nat)
    requires ParseDuration(s) == Some(minutes)
    ensures s == FormatDuration(minutes)
    ensures minutes >= 60 ==> s == NatToString(minutes / 60) + "h " + NatToString(minutes % 60) + "m"
  {
    ParseDurationCanonical(s);
  }

  lemma SameText(text: string, shown: string, v: Option<nat>)
    requires text == shown && ParseDuration(shown) == v
    ensures ParseDuration(text) == v
  {
  }

  lemma HoursMinutesRoundTrip(hours: nat, mins: nat, total: nat)
    requires total == 60 * hours + mins && hours >= 1 && mins < 60
    ensures ParseDuration(NatToString(hours) + "h " + NatToString(mins) + "m") == Some(total)
  {
    var hs, ms := NatToString(hours), NatToString(mins);
    ParseNatToString(hours);
    ParseNatToString(mins);
    NatToStringCanonical(hours);
    NatToStringCanonical(mins);
    NoLettersInDigits(hs);
    DropUnit(hs + "h " + ms);
    FindHours(hs, ms);
    HoursRest(hs, ms, hours, mins, total);
  }

  lemma MinutesRoundTrip(mins: nat)
    requires mins < 60
    ensures ParseDuration(NatToString(mins) + "m") == Some(mins)
  {
    var ms := NatToString(mins);
    ParseNatToString(mins);
    NatToStringCanonical(mins);
    NoLettersInDigits(ms);
    DropUnit(ms);
    assert ParseCount(ms) == Some(mins);
  }

  /** The trailing "m" is removed before the rest is read. */
  lemma DropUnit(body: string)
    ensures ParseDuration(body + "m") == ParseDurationBody(body)
  {
    var s := body + "m";
    assert s[|s| - 1] == 'm' && s[..|s| - 1] == body;
  }

  /** The hours end at the first 'h'. */
  lemma FindHours(hs: string, ms: string)
    requires 'h' !in hs
    ensures ParseDurationBody(hs + "h " + ms) == ParseHoursRest(hs, " " + ms)
  {
    var rest := " " + ms;
    var body := hs + ['h'] + rest;
    assert hs + "h " + ms == body;
    IndexOfAfter(hs, 'h', rest);
    assert body[..|hs|] == hs;
    assert body[|hs| + 1..] == rest;
  }

  lemma HoursRest(hs: string, ms: string, h: nat, m: nat, total: nat)
    requires Canonical(hs) && Canonical(ms)
    requires ParseNat(hs) == h && ParseNat(ms) == m && total == 60 * h + m && h >= 1 && m < 60
    ensures ParseHoursRest(hs, " " + ms) == Some(total)
  {
    var rest := " " + ms;
    assert rest[0] == ' ' && rest[1..] == ms;
    assert ParseCount(hs) == Some(h);
    assert ParseCount(ms) == Some(m);
  }

  // ---------------------------------------------------------------- activity list

  /** `activity.distance ? " - {d}km" : ''`: absent and zero distances print nothing. */
  function DistanceSuffix(distance: Option<real>, loc: Locale): string {
    match distance
    case None => ""
    case Some(d) => if d == 0.0 then "" else " - " + loc.showKm(d) + "km"
  }

  function ActivityLine(a: Activity, loc: Locale): string {
    "• " + Capitalize(a.kind) + " on " + loc.showDate(a.date) + ": " + FormatDuration(a.duration)
      + DistanceSuffix(a.distance, loc) + " (" + NatToString(a.calories) + " cal)"
  }

  /** `formatActivitiesList`: one line per activity, in order, joined by newlines. */
  function FormatActivitiesList(acts: seq<Activity>, loc: Locale): (r: string)
    ensures acts == [] ==> r == ""
    ensures |acts| == 1 ==> r == ActivityLine(acts[0], loc)
  {
    Join(seq(|acts|, i requires 0 <= i < |acts| => ActivityLine(acts[i], loc)), "\n")
  }

  /** A text without `c` keeps it out after its first letter is upper-cased, unless `c` is an upper-case letter. */
  lemma CapitalizeAvoids(s: string, c: char)
    requires c !in s && !('A' <= c <= 'Z')
    ensures c !in Capitalize(s)
  {
    var r := Capitalize(s);
    if s != [] {
      assert r == [r[0]] + s[1..];
      assert s[0] in s;
    }
  }

  /** No newline anywhere in the inputs of a line. */
  predicate SingleLineActivity(a: Activity, loc: Locale) {
    '\n' !in a.kind && '\n' !in loc.showDate(a.date)
      && (a.distance.Some? ==> '\n' !in loc.showKm(a.distance.value))
  }

  lemma ActivityLineSingle(a: Activity, loc: Locale)
    requires SingleLineActivity(a, loc)
    ensures '\n' !in ActivityLine(a, loc)
  {
    CapitalizeAvoids(a.kind, '\n');
    NoLettersInDigits(NatToString(a.calories));
  }

  /**
   * Splitting the list at newlines gives back exactly one line per
   * activity, each describing that activity, in input order.
   */
  lemma ActivitiesListLines(acts: seq<Activity>, loc: Locale)
    requires |acts| >= 1
    requires forall i :: 0 <= i < |acts| ==> SingleLineActivity(acts[i], loc)
    ensures var lines := Split(FormatActivitiesList(acts, loc), '\n');
      |lines| == |acts| && forall i :: 0 <= i < |acts| ==> lines[i] == ActivityLine(acts[i], loc)
  {
    var lines := seq(|acts|, i requires 0 <= i < |acts| => ActivityLine(acts[i], loc));
    forall i | 0 <= i < |acts|
      ensures '\n' !in lines[i]
    {
      ActivityLineSingle(acts[i], loc);
    }
    SplitJoin(lines, '\n');
  }

  // ---------------------------------------------------------------- goals text

  function GoalLines(g: Goals, consistencyPercentage: nat, loc: Locale): seq<string> {
    ["🎯 Target: " + NatToString(g.days) + " workout days",
     "⏱️ Duration: " + FormatDuration(g.duration) + " total",
     "🔥 Calories: " + loc.showCount(g.calories) + " calories",
     "📈 Consistency: Beat " + NatToString(consistencyPercentage) + "%"]
  }

  /** `Math.round` on a real: the nearest integer, halves rounded up. */
  function Round(x: real): (r: int)
    ensures (r as real) - 0.5 <= x < (r as real) + 0.5
  {
    (x + 0.5).Floor
  }

  /** `${n}` for an integer that may be negative. */
  function IntToString(i: int): (s: string)
    ensures i >= 0 ==> s == NatToString(i)
  {
    if i < 0 then "-" + NatToString(-i) else NatToString(i)
  }

  function AIGoalLines(g: AIGoals, focus: FocusArea, loc: Locale): seq<string> {
    ["🎯 AI Recommended Targets:",
     "📅 Workout Days: " + NatToString(g.days) + " days (consistency is key!)",
     "⏱️ Total Duration: " + FormatDuration(g.duration) + " ",
     "🔥 Calories: " + loc.showCount(g.calories) + " calories",
     "🏆 Performance Score: " + IntToString(Round(g.score)) + "/100",
     "💪 Focus: " + FocusText(focus)]
  }

  // ---------------------------------------------------------------- e-mail data

  /** `WeeklyEmailData`. */
  datatype WeeklyEmailData = WeeklyEmailData(
    userEmail: string,
    userName: string,
    weekNumber: nat,
    year: nat,
    totalWorkouts: nat,
    totalDuration: nat,
    totalCalories: nat,
    workoutDays: nat,
    consistencyPercentage: nat,
    activities: seq<Activity>,
    aiInsights: Option<AIInsights>)

  /** `weeklyScore` of the data, if there are insights. */
  function DataScore(data: WeeklyEmailData): Option<real> {
    match data.aiInsights
    case None => None
    case Some(ai) => Some(ai.weeklyScore)
  }

  /** `generateNextWeekGoals`: four lines of targets. */
  function NextWeekGoalsText(data: WeeklyEmailData, loc: Locale): string {
    Join(GoalLines(NextWeekGoals(data.workoutDays, data.totalDuration, data.totalCalories),
                   data.consistencyPercentage, loc), "\n")
  }

  /** `generateAINextWeekGoals`: six lines of targets ending with the focus area. */
  function AINextWeekGoalsText(data: WeeklyEmailData, loc: Locale): string {
    Join(AIGoalLines(AINextWeekGoals(data.workoutDays, data.totalDuration, data.totalCalories, DataScore(data)),
                     AIFocusArea(data.consistencyPercentage, data.totalDuration, data.totalWorkouts, data.totalCalories),
                     loc), "\n")
  }

  /** The plain goals text has its four target lines, provided calorie rendering stays on one line. */
  lemma NextWeekGoalsLines(data: WeeklyEmailData, loc: Locale)
    requires forall n: nat :: '\n' !in loc.showCount(n)
    ensures Split(NextWeekGoalsText(data, loc), '\n')
         == GoalLines(NextWeekGoals(data.workoutDays, data.totalDuration, data.totalCalories), data.consistencyPercentage, loc)
  {
    var lines := GoalLines(NextWeekGoals(data.workoutDays, data.totalDuration, data.totalCalories), data.consistencyPercentage, loc);
    GoalLinesSingle(NextWeekGoals(data.workoutDays, data.totalDuration, data.totalCalories), data.consistencyPercentage, loc);
    SplitJoin(lines, '\n');
  }

  /** None of the four target lines holds a line break. */
  lemma GoalLinesSingle(g: Goals, consistencyPercentage: nat, loc: Locale)
    requires forall n: nat :: '\n' !in loc.showCount(n)
    ensures |GoalLines(g, consistencyPercentage, loc)| == 4
    ensures forall i :: 0 <= i < 4 ==> '\n' !in GoalLines(g, consistencyPercentage, loc)[i]
  {
    var days, duration, calories := NatToString(g.days), FormatDuration(g.duration), loc.showCount(g.calories);
    NoLettersInDigits(days);
    NoLettersInDigits(NatToString(consistencyPercentage));
    TargetLine(days);
    DurationLine(duration);
    CaloriesLine(calories);
    ConsistencyLine(NatToString(consistencyPercentage));
  }

  lemma TargetLine(days: string)
    requires '\n' !in days
    ensures '\n' !in "🎯 Target: " + days + " workout days"
  {
  }

  lemma DurationLine(duration: string)
    requires '\n' !in duration
    ensures '\n' !in "⏱️ Duration: " + duration + " total"
  {
  }

  lemma CaloriesLine(calories: string)
    requires '\n' !in calories
    ensures '\n' !in "🔥 Calories: " + calories + " calories"
  {
  }

  lemma ConsistencyLine(percentage: string)
    requires '\n' !in percentage
    ensures '\n' !in "📈 Consistency: Beat " + percentage + "%"
  {
  }

  // ---------------------------------------------------------------- template params

  /** The `template_params` of `sendAIWeeklySummary`. */
  datatype AITemplateParams = AITemplateParams(
    toEmail: string,
    toName: string,
    weekNumber: nat,
    year: nat,
    totalWorkouts: nat,
    totalDuration: string,
    totalCalories: string,
    workoutDays: nat,
    consistencyPercentage: nat,
    weeklyScore: real,
    aiConsistencyInsight: string,
    aiPerformanceInsight: string,
    aiMotivationalMessage: string,
    activitiesList: string,
    nextWeekGoals: string,
    emailSubject: string)

  function AISubject(consistencyPercentage: nat, weekNumber: nat): string {
    "🤖 AI Weekly Summary: " + NatToString(consistencyPercentage) + "% Consistency - Week " + NatToString(weekNumber)
  }

  /**
   * The AI template: a missing `aiInsights` gives score 0 and empty insight
   * texts; present insights are copied as they are.
   */
  function AIParams(data: WeeklyEmailData, loc: Locale): (p: AITemplateParams)
    ensures data.aiInsights.None? ==>
      p.weeklyScore == 0.0 && p.aiConsistencyInsight == "" && p.aiPerformanceInsight == "" && p.aiMotivationalMessage == ""
    ensures data.aiInsights.Some? ==>
      p.weeklyScore == data.aiInsights.value.weeklyScore
      && p.aiConsistencyInsight == AIConsistencyText(data.aiInsights.value.consistency)
      && p.aiPerformanceInsight == AIPerformanceText(data.aiInsights.value.performance)
      && p.aiMotivationalMessage == AIMotivationText(data.aiInsights.value.motivation)
    ensures p.toEmail == data.userEmail && p.toName == data.userName
    ensures ParseDuration(p.totalDuration) == Some(data.totalDuration)
  {
    FormatParseDuration(data.totalDuration);
    AITemplateParams(
      data.userEmail, data.userName, data.weekNumber, data.year, data.totalWorkouts,
      FormatDuration(data.totalDuration), loc.showCount(data.totalCalories),
      data.workoutDays, data.consistencyPercentage,
      if data.aiInsights.Some? then data.aiInsights.value.weeklyScore else 0.0,
      if data.aiInsights.Some? then AIConsistencyText(data.aiInsights.value.consistency) else "",
      if data.aiInsights.Some? then AIPerformanceText(data.aiInsights.value.performance) else "",
      if data.aiInsights.Some? then AIMotivationText(data.aiInsights.value.motivation) else "",
      FormatActivitiesList(data.activities, loc), AINextWeekGoalsText(data, loc),
      AISubject(data.consistencyPercentage, data.weekNumber))
  }

  /** The `template_params` of `sendWeeklySummary`. */
  datatype TemplateParams = TemplateParams(
    toEmail: string,
    toName: string,
    weekNumber: nat,
    year: nat,
    totalWorkouts: nat,
    totalDuration: string,
    totalCalories: string,
    workoutDays: nat,
    consistencyPercentage: nat,
    consistencyMessage: string,
    performanceInsight: string,
    activitiesList: string,
    nextWeekGoals: string)

  /** The plain template: the messages come from the day count and the average duration. */
  function Params(data: WeeklyEmailData, loc: Locale): (p: TemplateParams)
    ensures p.consistencyMessage == ConsistencyMessage(data.workoutDays)
    ensures p.performanceInsight == PerformanceInsight(data.totalDuration, data.totalWorkouts)
    ensures p.toEmail == data.userEmail && p.toName == data.userName
    ensures ParseDuration(p.totalDuration) == Some(data.totalDuration)
  {
    FormatParseDuration(data.totalDuration);
    TemplateParams(
      data.userEmail, data.userName, data.weekNumber, data.year, data.totalWorkouts,
      FormatDuration(data.totalDuration), loc.showCount(data.totalCalories),
      data.workoutDays, data.consistencyPercentage,
      ConsistencyMessage(data.workoutDays), PerformanceInsight(data.totalDuration, data.totalWorkouts),
      FormatActivitiesList(data.activities, loc), NextWeekGoalsText(data, loc))
  }

  // ---------------------------------------------------------------- sending

  /** What the `fetch` call did: answered with `response.ok`, or threw. */
  datatype Outcome = Responded(ok: bool) | Threw

  /** `sendWeeklySummary` / `sendAIWeeklySummary`: the result of the promise. */
  function SendResult(o: Outcome): (sent: bool)
    ensures sent <==> o == Responded(true)
    ensures o.Threw? ==> !sent
  {
    match o
    case Responded(ok) => ok
    case Threw => false
  }
}
