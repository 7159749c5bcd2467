/**
 * The canned "insight" rules: ordered threshold tables over the weekly
 * totals, the capped weekly score, next-week targets and the AI focus area.
 * The tiers are data; the messages are the exact strings the source emits.
 * The AI wording is shared by AIWeeklyEmailSystem and weeklyEmailService,
 * the plain wording by emailService and WeeklyReportModal.
 */
module Insights {
  import opened Wrappers
  import opened Quotients
  import opened Activities
  import opened WeeklySummary

  // ---------------------------------------------------------------- consistency

  datatype ConsistencyTier = OnFire | Great | Foundation | Starting

  /** Tier by distinct workout days: >= 6, >= 4, >= 2, otherwise. */
  function ConsistencyTierOf(days: nat): (t: ConsistencyTier)
    ensures t == OnFire <==> days >= 6
    ensures t == Great <==> 4 <= days < 6
    ensures t == Foundation <==> 2 <= days < 4
    ensures t == Starting <==> days < 2
  {
    if days >= 6 then OnFire else if days >= 4 then Great else if days >= 2 then Foundation else Starting
  }

  function ConsistencyRank(t: ConsistencyTier): nat {
    match t
    case Starting => 0
    case Foundation => 1
    case Great => 2
    case OnFire => 3
  }

  /** More workout days never earn a lower consistency tier. */
  lemma ConsistencyTierMonotone(d1: nat, d2: nat)
    requires d1 <= d2
    ensures ConsistencyRank(ConsistencyTierOf(d1)) <= ConsistencyRank(ConsistencyTierOf(d2))
  {
  }

  function AIConsistencyText(t: ConsistencyTier): string {
    match t
    case OnFire => "🔥 Amazing consistency! You're absolutely crushing it! Your dedication is inspiring!"
    case Great => "💪 Great consistency! Push for 6 days next week to reach elite athlete level!"
    case Foundation => "👍 Good foundation! Aim for 4-5 workout days next week to build unstoppable momentum!"
    case Starting => "🎯 Every champion starts somewhere! Let's target 3 solid workout days next week!"
  }

  /** `getConsistencyMessage` of emailService and WeeklyReportModal. */
  function ConsistencyMessage(days: nat): string {
    match ConsistencyTierOf(days)
    case OnFire => "🔥 Amazing consistency! You're on fire! Keep this incredible momentum going next week!"
    case Great => "💪 Great consistency! Push for 6 days next week to reach elite level!"
    case Foundation => "👍 Good start! Aim for 4-5 workout days next week to build stronger habits!"
    case Starting => "🎯 Every journey starts with a single step! Let's aim for 3 workout days next week!"
  }

  // ---------------------------------------------------------------- performance

  /**
   * `totalDuration / totalWorkouts || 0`. With no workouts and no minutes
   * this is 0; with no workouts but some minutes JavaScript yields Infinity.
   */
  function AverageDuration(totalDuration: nat, totalWorkouts: nat): (q: Quotient)
    ensures totalWorkouts > 0 ==> q == Finite((totalDuration as real) / (totalWorkouts as real))
    ensures totalWorkouts == 0 && totalDuration == 0 ==> q == Finite(0.0)
    ensures totalWorkouts == 0 && totalDuration > 0 ==> q == PosInfinity
  {
    OrZero(Divide(totalDuration as real, totalWorkouts as real))
  }

  /** Totals taken from one activity list always give a finite average. */
  lemma SummaryAverageFinite(acts: seq<Activity>)
    ensures var s := Summarize(acts);
      AverageDuration(s.totalDuration, s.totalWorkouts).Finite?
  {
  }

  datatype PerformanceTier = Phenomenal | SolidSessions | ExtendSessions

  /** Tier by average duration: > 45, > 30, otherwise. */
  function PerformanceTierOf(avg: Quotient): (t: PerformanceTier)
    ensures avg.Finite? ==> (t == Phenomenal <==> avg.value > 45.0)
    ensures avg.Finite? ==> (t == SolidSessions <==> 30.0 < avg.value <= 45.0)
    ensures avg.Finite? ==> (t == ExtendSessions <==> avg.value <= 30.0)
    ensures avg.PosInfinity? ==> t == Phenomenal
  {
    if GreaterThan(avg, 45.0) then Phenomenal
    else if GreaterThan(avg, 30.0) then SolidSessions
    else ExtendSessions
  }

  function PerformanceRank(t: PerformanceTier): nat {
    match t
    case ExtendSessions => 0
    case SolidSessions => 1
    case Phenomenal => 2
  }

  /** A longer average never earns a lower performance tier. */
  lemma PerformanceTierMonotone(a1: real, a2: real)
    requires a1 <= a2
    ensures PerformanceRank(PerformanceTierOf(Finite(a1))) <= PerformanceRank(PerformanceTierOf(Finite(a2)))
  {
  }

  function AIPerformanceText(t: PerformanceTier): string {
    match t
    case Phenomenal => "🏆 Your workout intensity is phenomenal! You're building serious athletic endurance."
    case SolidSessions => "⚡ Solid training sessions! Consider adding 10-15 more minutes for explosive results."
    case ExtendSessions => "🌟 Great start! Extend to 30+ minutes per session to unlock your full potential."
  }

  /** `getPerformanceInsight` of emailService and WeeklyReportModal. */
  function PerformanceInsight(totalDuration: nat, totalWorkouts: nat): string {
    match PerformanceTierOf(AverageDuration(totalDuration, totalWorkouts))
    case Phenomenal => "🏆 Your workout intensity is impressive! You're building serious endurance."
    case SolidSessions => "⚡ Solid workout sessions! Consider adding 10-15 more minutes for even better results."
    case ExtendSessions => "🌟 Great start! Try extending your sessions to 30+ minutes for optimal benefits."
  }

  // ---------------------------------------------------------------- calories

  datatype CalorieTier = Torched | GreatBurn | EveryCalorie

  /** Tier by total calories: > 2000, > 1000, otherwise. */
  function CalorieTierOf(calories: nat): (t: CalorieTier)
    ensures t == Torched <==> calories > 2000
    ensures t == GreatBurn <==> 1000 < calories <= 2000
    ensures t == EveryCalorie <==> calories <= 1000
  {
    if calories > 2000 then Torched else if calories > 1000 then GreatBurn else EveryCalorie
  }

  function AIMotivationText(t: CalorieTier): string {
    match t
    case Torched => "🔥 You torched over 2000 calories this week! Your metabolism is thanking you!"
    case GreatBurn => "💪 Great calorie burn! Push past 2000 next week for maximum fat-burning benefits!"
    case EveryCalorie => "🎯 Every calorie burned counts! Aim for 1500+ calories next week to accelerate results!"
  }

  // ---------------------------------------------------------------- score

  /** `days * 15 + duration / 10 + calories / 50`, before the cap. */
  function RawScore(days: nat, duration: nat, calories: nat): real {
    (days * 15) as real + (duration as real) / 10.0 + (calories as real) / 50.0
  }

  /** `Math.min(100, raw)`: the capped weekly score. */
  function WeeklyScore(days: nat, duration: nat, calories: nat): (r: real)
    ensures 0.0 <= r <= 100.0
    ensures r <= RawScore(days, duration, calories)
    ensures r == 100.0 || r == RawScore(days, duration, calories)
  {
    var raw := RawScore(days, duration, calories);
    if raw < 100.0 then raw else 100.0
  }

  /** The score never drops when any of its inputs grows. */
  lemma WeeklyScoreMonotone(d1: nat, t1: nat, c1: nat, d2: nat, t2: nat, c2: nat)
    requires d1 <= d2 && t1 <= t2 && c1 <= c2
    ensures WeeklyScore(d1, t1, c1) <= WeeklyScore(d2, t2, c2)
  {
    assert RawScore(d1, t1, c1) <= RawScore(d2, t2, c2);
  }

  // ---------------------------------------------------------------- AI insights

  /**
   * The object `generateAIInsights` returns. Each insight text is one of a
   * fixed table, so it is held as its tier; `AIConsistencyText`,
   * `AIPerformanceText` and `AIMotivationText` give the text itself.
   */
  datatype AIInsights = AIInsights(
    consistency: ConsistencyTier,
    performance: PerformanceTier,
    motivation: CalorieTier,
    weeklyScore: real)

  /** `generateAIInsights` over the weekly totals. */
  function GenerateAIInsights(s: Summary): (r: AIInsights)
    ensures 0.0 <= r.weeklyScore <= 100.0
    ensures r.consistency == ConsistencyTierOf(s.workoutDays)
    ensures r.performance == PerformanceTierOf(AverageDuration(s.totalDuration, s.totalWorkouts))
    ensures r.motivation == CalorieTierOf(s.totalCalories)
  {
    AIInsights(
      ConsistencyTierOf(s.workoutDays),
      PerformanceTierOf(AverageDuration(s.totalDuration, s.totalWorkouts)),
      CalorieTierOf(s.totalCalories),
      WeeklyScore(s.workoutDays, s.totalDuration, s.totalCalories))
  }

  /** An empty week gets the lowest tier of every rule and a score of 0, with no division fault. */
  lemma EmptyWeekInsights()
    ensures GenerateAIInsights(Summarize([])) == AIInsights(Starting, ExtendSessions, EveryCalorie, 0.0)
  {
    assert WorkoutDays([]) == 0;
  }

  /** Six days averaging 50 minutes with 2500 calories: top tier everywhere, score capped at 100. */
  lemma EliteWeekInsights(s: Summary)
    requires s.workoutDays == 6 && s.totalWorkouts == 6 && s.totalDuration == 300 && s.totalCalories == 2500
    ensures GenerateAIInsights(s) == AIInsights(OnFire, Phenomenal, Torched, 100.0)
  {
  }

  // ---------------------------------------------------------------- next-week goals

  datatype Goals = Goals(days: nat, duration: nat, calories: nat)

  /** The larger of two naturals. */
  function Max(a: nat, b: nat): (m: nat)
    ensures m >= a && m >= b && (m == a || m == b)
  {
    if a >= b then a else b
  }

  /**
   * `generateNextWeekGoals` (emailService) and the goal block of
   * WeeklyReportModal: one more day, 60 more minutes and 500 more calories,
   * but at least 5 days, 300 minutes and 2000 calories. Days are not capped.
   */
  function NextWeekGoals(days: nat, duration: nat, calories: nat): (g: Goals)
    ensures g.days > days && g.days >= 5 && (g.days == days + 1 || g.days == 5)
    ensures g.duration >= duration + 60 && g.duration >= 300 && (g.duration == duration + 60 || g.duration == 300)
    ensures g.calories >= calories + 500 && g.calories >= 2000 && (g.calories == calories + 500 || g.calories == 2000)
  {
    Goals(Max(days + 1, 5), Max(duration + 60, 300), Max(calories + 500, 2000))
  }

  datatype AIGoals = AIGoals(days: nat, duration: nat, calories: nat, score: real)

  /**
   * `generateAINextWeekGoals`: days clamped to [5, 7], 90 more minutes but at
   * least 350, 750 more calories but at least 2500, and 15 more score points
   * capped at 100, a missing score counting as 0.
   */
  function AINextWeekGoals(days: nat, duration: nat, calories: nat, score: Option<real>): (g: AIGoals)
    ensures 5 <= g.days <= 7
    ensures days + 1 <= 7 ==> g.days == Max(days + 1, 5)
    ensures days + 1 >= 7 ==> g.days == 7
    ensures g.duration >= duration + 90 && g.duration >= 350 && (g.duration == duration + 90 || g.duration == 350)
    ensures g.calories >= calories + 750 && g.calories >= 2500 && (g.calories == calories + 750 || g.calories == 2500)
    ensures g.score <= 100.0 && (g.score == 100.0 || g.score == score.GetOr(0.0) + 15.0)
    ensures g.score <= score.GetOr(0.0) + 15.0
  {
    var target := Max(days + 1, 5);
    var s := score.GetOr(0.0) + 15.0;
    AIGoals(if target < 7 then target else 7, Max(duration + 90, 350), Max(calories + 750, 2500),
            if s < 100.0 then s else 100.0)
  }

  /** A full week: the plain target asks for 8 days, the AI target stops at 7. */
  lemma FullWeekTargets(duration: nat, calories: nat)
    ensures NextWeekGoals(7, duration, calories).days == 8
    ensures AINextWeekGoals(7, duration, calories, None).days == 7
  {
  }

  // ---------------------------------------------------------------- focus area

  datatype FocusArea = BuildConsistency | IncreaseDuration | BoostIntensity | MaintainExcellence

  /**
   * `getAIFocusArea`: the first rule that applies, in order, of consistency
   * below 50%, average below 30 minutes, calories below 1500.
   */
  function AIFocusArea(consistencyPercentage: nat, totalDuration: nat, totalWorkouts: nat, totalCalories: nat): (f: FocusArea)
    ensures f == BuildConsistency <==> consistencyPercentage < 50
    ensures f == IncreaseDuration <==>
      consistencyPercentage >= 50 && LessThan(AverageDuration(totalDuration, totalWorkouts), 30.0)
    ensures f == BoostIntensity <==>
      consistencyPercentage >= 50 && !LessThan(AverageDuration(totalDuration, totalWorkouts), 30.0) && totalCalories < 1500
    ensures f == MaintainExcellence <==>
      consistencyPercentage >= 50 && !LessThan(AverageDuration(totalDuration, totalWorkouts), 30.0) && totalCalories >= 1500
  {
    if consistencyPercentage < 50 then BuildConsistency
    else if LessThan(AverageDuration(totalDuration, totalWorkouts), 30.0) then IncreaseDuration
    else if totalCalories < 1500 then BoostIntensity
    else MaintainExcellence
  }

  function FocusText(f: FocusArea): string {
    match f
    case BuildConsistency => "Build consistency - aim for regular workout schedule"
    case IncreaseDuration => "Increase workout duration for better results"
    case BoostIntensity => "Boost intensity to maximize calorie burn"
    case MaintainExcellence => "Maintain excellence and push new boundaries"
  }

  /** For a real week's totals, consistency is the focus exactly when there were at most three workout days. */
  lemma FocusOnConsistency(acts: seq<Activity>)
    ensures var s := Summarize(acts);
      AIFocusArea(s.consistencyPercentage, s.totalDuration, s.totalWorkouts, s.totalCalories) == BuildConsistency
      <==> s.workoutDays <= 3
  {
    ConsistencyBelowHalf(WorkoutDays(acts));
  }
}
