/**
 * src/components/AIReminderSystem.tsx: the AI coach. Its weekly goals are
 * fixed state; from each goal's distance progress it words a title and a
 * message, and an hourly check decides, from the weekday and the hour,
 * which reminders to hand to `onSendReminder`. Ids, timestamps and the
 * random delays before each send are left out, so the reminders are
 * listed in the order they are scheduled.
 */
module AIReminders {
  import opened Wrappers
  import opened Text
  import opened Lists
  import opened Quotients
  import opened Calendar
  import opened Icons
  import opened CoachEmoji

  /** A distance in kilometres. */
  type Km = r: real | 0.0 <= r

  datatype WeeklyGoal = WeeklyGoal(
    activityType: string, targetDistance: Km, targetSessions: nat, currentDistance: Km, currentSessions: nat)

  /** The coach's goals, which nothing ever changes. */
  const InitialGoals: seq<WeeklyGoal> := [
    WeeklyGoal("running", 25.0, 3, 18.5, 2),
    WeeklyGoal("cycling", 50.0, 2, 32.0, 1)]

  /** `currentDistance / targetDistance * 100`: Infinity or NaN for a zero target. */
  function Progress(g: WeeklyGoal): (p: Quotient)
    ensures p.Finite? <==> g.targetDistance > 0.0
    ensures p.Finite? ==> p.value * g.targetDistance == g.currentDistance * 100.0
    ensures p.NaN? <==> g.targetDistance == 0.0 && g.currentDistance == 0.0
    ensures p.Finite? ==> p.value >= 0.0 && (p.value < 100.0 <==> g.currentDistance < g.targetDistance)
  {
    var q := Divide(g.currentDistance, g.targetDistance);
    if q.Finite? then
      PercentOfTarget(q.value, g.targetDistance, g.currentDistance);
      Times(q, 100.0)
    else Times(q, 100.0)
  }

  /** A ratio `v` of `c` to `t`, as a percentage, is below 100 exactly when `c < t`. */
  lemma PercentOfTarget(v: real, t: real, c: real)
    requires t > 0.0 && v * t == c
    ensures (v * 100.0) * t == c * 100.0
    ensures v * 100.0 < 100.0 <==> c < t
  {
    assert (v * 100.0) * t == (v * t) * 100.0;
    if v < 1.0 {
      assert v * t < 1.0 * t;
    } else {
      assert v * t >= 1.0 * t;
    }
  }

  // ---------------------------------------------------------------- number text

  function Pow10(d: nat): (p: nat)
    ensures p >= 1
  {
    if d == 0 then 1 else 10 * Pow10(d - 1)
  }

  function Zeros(n: nat): (z: string)
    ensures |z| == n && forall i :: 0 <= i < n ==> z[i] == '0'
  {
    if n == 0 then "" else "0" + Zeros(n - 1)
  }

  /** A run of zeros in front of a numeral does not change what it reads as. */
  lemma {:induction false} ZerosParse(k: nat, t: string)
    requires AllDigits(t)
    ensures AllDigits(Zeros(k) + t) && ParseNat(Zeros(k) + t) == ParseNat(t)
    decreases k
  {
    if k > 0 {
      assert Zeros(k) + t == "0" + (Zeros(k - 1) + t);
      ZerosParse(k - 1, t);
      LeadingZeroParse(Zeros(k - 1) + t);
    } else {
      assert Zeros(k) + t == t;
    }
  }

  /** `x` counted in units of its `digits`-th decimal place. */
  function Scaled(x: real, digits: nat): (r: real)
    requires x >= 0.0
    ensures r >= 0.0 && (digits == 0 ==> r == x)
  {
    x * Pow10(digits) as real
  }

  /** The nearest whole number, halves going up. */
  function Rounded(r: real): (n: nat)
    requires r >= 0.0
    ensures r - 0.5 < n as real <= r + 0.5
  {
    (r + 0.5).Floor
  }

  /** The digits before the point of a text with `digits` decimals. */
  function IntegerPart(s: string, digits: nat): string
    requires |s| > digits
  {
    s[..|s| - digits - 1]
  }

  /** The `digits` decimals after the point. */
  function FractionPart(s: string, digits: nat): string
    requires |s| >= digits
  {
    s[|s| - digits..]
  }

  /**
   * `x.toFixed(digits)` of a non-negative number: round half up to that
   * many decimals, then write the integer part, a point and the decimals
   * padded with leading zeros. The integer part is written without leading
   * zeros and reads as the rounded count of units, the decimals read as
   * the rest.
   */
  function ToFixed(x: real, digits: nat): (s: string)
    requires x >= 0.0
    ensures digits == 0 ==> s == NatToString(Rounded(x))
    ensures digits > 0 ==>
      && |s| > digits && s[|s| - digits - 1] == '.'
      && Canonical(IntegerPart(s, digits)) && ParseNat(IntegerPart(s, digits)) == Rounded(Scaled(x, digits)) / Pow10(digits)
      && AllDigits(FractionPart(s, digits)) && ParseNat(FractionPart(s, digits)) == Rounded(Scaled(x, digits)) % Pow10(digits)
  {
    var n := Rounded(Scaled(x, digits));
    DecimalText(n, digits)
  }

  /** `n` units of the last decimal place, written with `digits` decimals. */
  function DecimalText(n: nat, digits: nat): (s: string)
    ensures digits == 0 ==> s == NatToString(n)
    ensures digits > 0 ==>
      && |s| > digits && s[|s| - digits - 1] == '.'
      && Canonical(IntegerPart(s, digits)) && ParseNat(IntegerPart(s, digits)) == n / Pow10(digits)
      && AllDigits(FractionPart(s, digits)) && ParseNat(FractionPart(s, digits)) == n % Pow10(digits)
  {
    if digits == 0 then NatToString(n)
    else
      var w, t := NatToString(Whole(n, digits)), Decimals(n, digits);
      NatToStringCanonical(Whole(n, digits));
      ParseNatToString(Whole(n, digits));
      PointSplit(w, t, digits);
      w + "." + t
  }

  /** The whole units in `n` units of the `digits`-th decimal place. */
  function Whole(n: nat, digits: nat): nat {
    DivisionOfNat(n, Pow10(digits));
    n / Pow10(digits)
  }

  /** The last `digits` decimals of `n`, padded with leading zeros. */
  function Decimals(n: nat, digits: nat): (t: string)
    requires digits > 0
    ensures |t| == digits && AllDigits(t) && ParseNat(t) == n % Pow10(digits)
  {
    var rest := n % Pow10(digits);
    var fraction := NatToString(rest);
    ShortDigits(rest, digits);
    ParseNatToString(rest);
    ZerosParse(digits - |fraction|, fraction);
    Zeros(digits - |fraction|) + fraction
  }

  /** A text joined at a point splits back at it. */
  lemma PointSplit(w: string, t: string, digits: nat)
    requires |t| == digits
    ensures |w + "." + t| > digits && (w + "." + t)[|w + "." + t| - digits - 1] == '.'
    ensures IntegerPart(w + "." + t, digits) == w && FractionPart(w + "." + t, digits) == t
  {
    var s := w + "." + t;
    assert s[..|w|] == w;
    assert s[|w| + 1..] == t;
  }

  /** What a text written with `digits` decimals reads as, in units of its last place. */
  function FixedValue(s: string, digits: nat): (r: Option<nat>)
    ensures r.Some? ==> |s| > digits
  {
    if digits == 0 then
      if |s| >= 1 && AllDigits(s) then Some(ParseNat(s)) else None
    else if |s| > digits + 1 && s[|s| - digits - 1] == '.'
      && AllDigits(IntegerPart(s, digits)) && AllDigits(FractionPart(s, digits)) then
      Some(ParseNat(IntegerPart(s, digits)) * Pow10(digits) + ParseNat(FractionPart(s, digits)))
    else None
  }

  /** A written count of units reads back as that count. */
  lemma DecimalTextValue(n: nat, digits: nat)
    ensures FixedValue(DecimalText(n, digits), digits) == Some(n)
  {
    if digits == 0 {
      ParseNatToString(n);
    } else {
      var s := DecimalText(n, digits);
      assert |IntegerPart(s, digits)| >= 1;
      UnitsSplit(n, Pow10(digits));
    }
  }

  lemma UnitsSplit(n: nat, p: nat)
    requires p > 0
    ensures n == (n / p) * p + n % p
  {
  }

  /**
   * The text reads back as the nearest value with that many decimals,
   * halves going up: within half a unit of the last place of `x`.
   */
  lemma ToFixedNearest(x: real, digits: nat)
    requires x >= 0.0
    ensures FixedValue(ToFixed(x, digits), digits).Some?
    ensures FixedValue(ToFixed(x, digits), digits).value == Rounded(Scaled(x, digits))
    ensures var scaled := Scaled(x, digits);
      scaled - 0.5 < FixedValue(ToFixed(x, digits), digits).value as real <= scaled + 0.5
  {
    var n := Rounded(Scaled(x, digits));
    DecimalTextValue(n, digits);
    assert FixedValue(ToFixed(x, digits), digits) == Some(n);
  }

  lemma DivisionOfNat(n: nat, d: nat)
    requires d > 0
    ensures n / d >= 0 && n % d < d
  {
  }

  lemma {:induction false} ShortDigits(n: nat, digits: nat)
    requires n < Pow10(digits) && digits > 0
    ensures |NatToString(n)| <= digits
    decreases digits
  {
    if n >= 10 {
      assert digits > 1;
      ShortDigits(n / 10, digits - 1);
    }
  }

  // ---------------------------------------------------------------- messages

  /** Below 30 %, below 70 %, below 100 %, else; NaN fails every `<` and counts as crushed. */
  function MessageTierOf(p: Quotient): (t: MessageTier)
    ensures t == JustStarted <==> LessThan(p, 30.0)
    ensures t == Crushed <==> !LessThan(p, 100.0)
    ensures t == GreatProgress ==> p.Finite? && 30.0 <= p.value < 70.0
    ensures t == SoClose ==> p.Finite? && 70.0 <= p.value < 100.0
  {
    if LessThan(p, 30.0) then JustStarted
    else if LessThan(p, 70.0) then GreatProgress
    else if LessThan(p, 100.0) then SoClose
    else Crushed
  }

  function TierRank(t: MessageTier): nat {
    match t
    case JustStarted => 0
    case GreatProgress => 1
    case SoClose => 2
    case Crushed => 3
  }

  /**
   * `generateMotivationalMessage`, with the emoji the authors meant: the
   * tier's wording, then that tier's emoji.
   */
  function MotivationalMessage(g: WeeklyGoal): (m: string)
    ensures var e := TierEmoji(MessageTierOf(Progress(g)));
      |m| >= |e| && m[|m| - |e|..] == e
  {
    var p := Progress(g);
    var t := MessageTierOf(p);
    EndsWith(MessageWords(g, p, t), TierEmoji(t));
    MessageWords(g, p, t) + TierEmoji(t)
  }

  /**
   * The wording of each tier, with the rounded percentage in the second
   * and the remaining kilometres to one decimal in the third.
   */
  function MessageWords(g: WeeklyGoal, p: Quotient, t: MessageTier): string
    requires p == Progress(g) && t == MessageTierOf(p)
  {
    if t == JustStarted then
      "Time to lace up! You're just getting started with your " + g.activityType + " goal. Every step counts! "
    else if t == GreatProgress then
      "Great progress on your " + g.activityType + "! You're " + ToFixed(p.value, 0) +
      "% there. Keep the momentum going! "
    else if t == SoClose then
      "So close to your " + g.activityType + " goal! Just " + ToFixed(g.targetDistance - g.currentDistance, 1) +
      "km to go. You've got this! "
    else
      "Amazing! You've crushed your " + g.activityType + " goal this week! Time to celebrate and set new challenges! "
  }

  lemma EndsWith(a: string, b: string)
    ensures |a + b| >= |b| && (a + b)[|a + b| - |b|..] == b
  {
  }

  /** `generateReminderTitle`: below 50 %, below 90 %, else. */
  function ReminderTitle(g: WeeklyGoal): (title: string)
    ensures LessThan(Progress(g), 50.0) ==> title == "AI Coach: Time for " + g.activityType + "!"
    ensures !LessThan(Progress(g), 50.0) && LessThan(Progress(g), 90.0) ==>
      title == "AI Coach: Almost there with " + g.activityType + "!"
    ensures !LessThan(Progress(g), 90.0) ==> title == "AI Coach: Final push for " + g.activityType + "!"
  {
    var p := Progress(g);
    if LessThan(p, 50.0) then "AI Coach: Time for " + g.activityType + "!"
    else if LessThan(p, 90.0) then "AI Coach: Almost there with " + g.activityType + "!"
    else "AI Coach: Final push for " + g.activityType + "!"
  }

  /**
   * Title and message agree: a goal just started is "Time for", a crushed
   * one is "Final push"; great progress (30 to 70 %) is never a final push
   * and "so close" (70 to 100 %) is never "Time for".
   */
  lemma TitleMatchesMessage(g: WeeklyGoal)
    ensures MessageTierOf(Progress(g)) == JustStarted ==> ReminderTitle(g) == "AI Coach: Time for " + g.activityType + "!"
    ensures MessageTierOf(Progress(g)) == GreatProgress ==>
      ReminderTitle(g) in ["AI Coach: Time for " + g.activityType + "!", "AI Coach: Almost there with " + g.activityType + "!"]
    ensures MessageTierOf(Progress(g)) == SoClose ==>
      ReminderTitle(g) in ["AI Coach: Almost there with " + g.activityType + "!", "AI Coach: Final push for " + g.activityType + "!"]
    ensures MessageTierOf(Progress(g)) == Crushed ==> ReminderTitle(g) == "AI Coach: Final push for " + g.activityType + "!"
  {
  }

  /** With the same target, more distance never gives an earlier wording. */
  lemma TierMonotone(g1: WeeklyGoal, g2: WeeklyGoal)
    requires g1.targetDistance == g2.targetDistance && g1.currentDistance <= g2.currentDistance
    ensures TierRank(MessageTierOf(Progress(g1))) <= TierRank(MessageTierOf(Progress(g2)))
  {
    var p1, p2 := Progress(g1), Progress(g2);
    if p1.Finite? {
      ScaleMonotone(p1.value, p2.value, g1.targetDistance, g1.currentDistance * 100.0, g2.currentDistance * 100.0);
    }
  }

  lemma ScaleMonotone(v1: real, v2: real, t: real, c1: real, c2: real)
    requires t > 0.0 && v1 * t == c1 && v2 * t == c2 && c1 <= c2
    ensures v1 <= v2
  {
  }

  // ---------------------------------------------------------------- reminders

  datatype ReminderType = Motivation | GoalCheck | WeeklySummary

  /** `AIReminder` without its id and timestamp. */
  datatype AIReminder = AIReminder(title: string, message: string, kind: ReminderType, activityType: Option<string>)

  /** `sendAIReminder(goal, type = 'motivation')`. */
  function SendAIReminder(g: WeeklyGoal, kind: Option<ReminderType>): (r: AIReminder)
    ensures r.kind == kind.GetOr(Motivation)
    ensures r.activityType == Some(g.activityType)
    ensures r.title == ReminderTitle(g) && r.message == MotivationalMessage(g)
  {
    AIReminder(ReminderTitle(g), MotivationalMessage(g), kind.GetOr(Motivation), Some(g.activityType))
  }

  /** The Sunday evening summary, which belongs to no goal. */
  const SummaryReminder: AIReminder :=
    AIReminder("AI Coach: Weekly Summary",
      "Great week! Let's review your progress and plan for next week. Ready to set new goals? " + ChartEmoji,
      WeeklySummary, None)

  /** Only goals below 80 % get a morning nudge. */
  function Behind(): WeeklyGoal -> bool {
    (g: WeeklyGoal) => LessThan(Progress(g), 80.0)
  }

  /** A reminder of one kind for each goal, in goal order. */
  function Reminders(gs: seq<WeeklyGoal>, kind: ReminderType): (rs: seq<AIReminder>)
    ensures |rs| == |gs|
    ensures forall i :: 0 <= i < |gs| ==> rs[i] == SendAIReminder(gs[i], Some(kind))
  {
    seq(|gs|, i requires 0 <= i < |gs| => SendAIReminder(gs[i], Some(kind)))
  }

  lemma RemindersSnoc(gs: seq<WeeklyGoal>, g: WeeklyGoal, kind: ReminderType)
    ensures Reminders(gs + [g], kind) == Reminders(gs, kind) + [SendAIReminder(g, Some(kind))]
  {
  }

  /** The morning nudges: a motivation reminder for each goal below 80 %, in goal order. */
  function Nudges(goals: seq<WeeklyGoal>): (rs: seq<AIReminder>)
    ensures |rs| == |Filter(goals, Behind())|
    ensures forall i :: 0 <= i < |rs| ==> rs[i] == SendAIReminder(Filter(goals, Behind())[i], Some(Motivation))
  {
    Reminders(Filter(goals, Behind()), Motivation)
  }

  /** A morning nudge never congratulates: its goal is below 80 %, so not crushed and not a final push. */
  lemma NudgesAreForUnfinishedGoals(goals: seq<WeeklyGoal>, i: nat)
    requires i < |Nudges(goals)|
    ensures var g := Filter(goals, Behind())[i];
      && g in goals && LessThan(Progress(g), 80.0)
      && MessageTierOf(Progress(g)) != Crushed
      && Nudges(goals)[i].title != "AI Coach: Final push for " + g.activityType + "!"
  {
    var behind := Filter(goals, Behind());
    var g := behind[i];
    assert multiset(behind)[g] > 0;
    assert g in goals by { assert multiset(goals)[g] > 0; }
    NoFinalPushBelow80(g);
  }

  /** Below 80 % the title is "Time for" or "Almost there", never "Final push". */
  lemma NoFinalPushBelow80(g: WeeklyGoal)
    requires LessThan(Progress(g), 80.0)
    ensures ReminderTitle(g) != "AI Coach: Final push for " + g.activityType + "!"
  {
    var final := "AI Coach: Final push for " + g.activityType + "!";
    assert final[10] == 'F';
    if LessThan(Progress(g), 50.0) {
      assert ReminderTitle(g)[10] == 'T';
    } else {
      assert ReminderTitle(g)[10] == 'A';
    }
  }

  /** The three time slots of the hourly check. */
  predicate MorningSlot(day: nat, hour: nat) { hour == 8 && 1 <= day <= 5 }
  predicate MidweekSlot(day: nat, hour: nat) { day == 3 && hour == 18 }
  predicate SundaySlot(day: nat, hour: nat) { day == 0 && hour == 19 }

  /**
   * `checkAndSendReminders` at `now`: weekday mornings at 8 a motivation
   * reminder for each goal below 80 %, in goal order; Wednesday at 18 a
   * goal check for every goal; Sunday at 19 the one summary; at any other
   * hour nothing.
   */
  method CheckAndSendReminders(goals: seq<WeeklyGoal>, now: Instant) returns (sent: seq<AIReminder>)
    ensures var day, hour := Weekday(now), Hours(now);
      && (MorningSlot(day, hour) ==> sent == Nudges(goals))
      && (MidweekSlot(day, hour) ==> sent == Reminders(goals, GoalCheck))
      && (SundaySlot(day, hour) ==> sent == [SummaryReminder])
      && (!MorningSlot(day, hour) && !MidweekSlot(day, hour) && !SundaySlot(day, hour) ==> sent == [])
  {
    var day := Weekday(now);
    var hour := Hours(now);
    sent := [];
    if hour == 8 && day >= 1 && day <= 5 {
      sent := MorningNudges(goals);
    }
    if day == 3 && hour == 18 {
      sent := GoalChecks(goals);
    }
    if day == 0 && hour == 19 {
      sent := [SummaryReminder];
    }
  }

  /** The weekday-morning loop: a motivation reminder per goal below 80 %. */
  method MorningNudges(goals: seq<WeeklyGoal>) returns (sent: seq<AIReminder>)
    ensures sent == Nudges(goals)
  {
    sent := [];
    ghost var behind: seq<WeeklyGoal> := [];
    for i := 0 to |goals|
      invariant behind == Filter(goals[..i], Behind())
      invariant sent == Reminders(behind, Motivation)
    {
      var g := goals[i];
      FilterSnoc(goals[..i], g, Behind());
      PrefixSnoc(goals, i);
      assert Behind()(g) == LessThan(Progress(g), 80.0);
      if LessThan(Progress(g), 80.0) {
        RemindersSnoc(behind, g, Motivation);
        behind := behind + [g];
        sent := sent + [SendAIReminder(g, Some(Motivation))];
      }
    }
    assert goals[..|goals|] == goals;
  }

  /** The Wednesday-evening loop: a goal check for every goal. */
  method GoalChecks(goals: seq<WeeklyGoal>) returns (sent: seq<AIReminder>)
    ensures sent == Reminders(goals, GoalCheck)
  {
    sent := [];
    for i := 0 to |goals|
      invariant sent == Reminders(goals[..i], GoalCheck)
    {
      RemindersSnoc(goals[..i], goals[i], GoalCheck);
      PrefixSnoc(goals, i);
      sent := sent + [SendAIReminder(goals[i], Some(GoalCheck))];
    }
    assert goals[..|goals|] == goals;
  }

  /** The slots never overlap, so one check sends reminders of at most one kind. */
  lemma SlotsDisjoint(day: nat, hour: nat)
    ensures !(MorningSlot(day, hour) && MidweekSlot(day, hour))
    ensures !(MorningSlot(day, hour) && SundaySlot(day, hour))
    ensures !(MidweekSlot(day, hour) && SundaySlot(day, hour))
  {
  }

  /**
   * The coach's own goals: running is at 74 % and cycling at 64 %, so both
   * get a morning nudge; running is "So close", cycling "Great progress".
   */
  lemma InitialGoalsNudged()
    ensures Filter(InitialGoals, Behind()) == InitialGoals
    ensures Progress(InitialGoals[0]) == Finite(74.0) && Progress(InitialGoals[1]) == Finite(64.0)
    ensures MessageTierOf(Progress(InitialGoals[0])) == SoClose
    ensures MessageTierOf(Progress(InitialGoals[1])) == GreatProgress
  {
    assert Progress(InitialGoals[0]) == Finite(74.0);
    assert Progress(InitialGoals[1]) == Finite(64.0);
    FilterAll(InitialGoals, Behind());
  }

  /** Their numbers as the messages write them: 6.5 km to go for running, 64 % for cycling. */
  lemma InitialGoalsNumbers()
    ensures ToFixed(InitialGoals[0].targetDistance - InitialGoals[0].currentDistance, 1) == "6.5"
    ensures ToFixed(64.0, 0) == "64"
  {
    assert Pow10(1) == 10;
    assert (6.5 * 10.0 + 0.5).Floor == 65;
    assert NatToString(65 % 10) == "5" && NatToString(65 / 10) == "6";
    assert NatToString(64) == "64" by {
      assert NatToString(6) == "6" && NatToString(4) == "4";
    }
  }
}
