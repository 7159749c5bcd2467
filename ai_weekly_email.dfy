/**
 * src/components/AIWeeklyEmailSystem.tsx: the AI weekly e-mail component.
 * Its state is the send status and the last-sent week-key marker (kept in
 * `localStorage` under 'lastAIWeeklyEmailSent'). The e-mail goes out on a
 * Sunday from 19:00 on, at most once per calendar week as `getWeekNumber`
 * defines weeks; a failed send leaves the marker alone so it can be retried.
 */
module AIWeeklyEmail {
  import opened Wrappers
  import opened Calendar
  import opened WeekNumbering
  import opened Activities
  import opened WeeklySummary
  import opened Insights
  import opened EmailService
  import opened LocalStorage

  // ---------------------------------------------------------------- next Sunday 19:00

  /** `(7 - getDay()) % 7`, replaced by 7 when it is 0 and 19:00 has been reached. */
  function DaysUntilEvening(now: Instant): (k: nat)
    ensures k <= 7
    ensures k == 0 <==> Weekday(now) == 0 && Hours(now) < 19
    ensures k == 7 <==> Weekday(now) == 0 && Hours(now) >= 19
    ensures (Weekday(now) + k) % 7 == 0
  {
    var w := Weekday(now);
    var d := (7 - w) % 7;
    assert d == if w == 0 then 0 else 7 - w;
    if d == 0 && Hours(now) < 19 then 0 else if d == 0 then 7 else d
  }

  /** `calculateNextSundayEvening`: 19:00:00.000 on the day `DaysUntilEvening` ahead. */
  function NextSundayEvening(now: Instant): (r: Instant)
    requires Calendar.Valid(now)
    ensures r.msIntoYear % MsPerDay == 19 * MsPerHour
  {
    var target := DayOfYear(now) + DaysUntilEvening(now);
    var ms := 19 * MsPerHour;
    if target < DaysInYear(now.year) then
      assert (target * MsPerDay + ms) % MsPerDay == ms;
      Instant(now.year, target * MsPerDay + ms)
    else
      assert ((target - DaysInYear(now.year)) * MsPerDay + ms) % MsPerDay == ms;
      Instant(now.year + 1, (target - DaysInYear(now.year)) * MsPerDay + ms)
  }

  /** Milliseconds since 1970 split into whole days and the time of day. */
  lemma LocalMsSplit(t: Instant)
    ensures LocalMs(t) == Day(t) * MsPerDay + t.msIntoYear % MsPerDay
  {
    assert t.msIntoYear == DayOfYear(t) * MsPerDay + t.msIntoYear % MsPerDay;
  }

  /** The result falls on the calendar day `DaysUntilEvening(now)` days after today, even across New Year. */
  lemma NextSundayEveningDay(now: Instant)
    requires Calendar.Valid(now)
    ensures var r := NextSundayEvening(now);
      Calendar.Valid(r) && Day(r) == Day(now) + DaysUntilEvening(now)
  {
    var target := DayOfYear(now) + DaysUntilEvening(now);
    if target >= DaysInYear(now.year) {
      Jan1DayStep(now.year);
      var r := NextSundayEvening(now);
      assert DayOfYear(r) == target - DaysInYear(now.year);
    } else {
      var r := NextSundayEvening(now);
      assert DayOfYear(r) == target;
    }
  }

  /**
   * `calculateNextSundayEvening` gives a Sunday at exactly 19:00 that lies
   * after `now` and at most seven days ahead: today when it is Sunday
   * before 19:00, and exactly seven days ahead only when `now` is itself
   * Sunday 19:00:00.000.
   */
  lemma NextSundayEveningSpec(now: Instant)
    requires Calendar.Valid(now)
    ensures var r := NextSundayEvening(now);
      && Calendar.Valid(r) && Weekday(r) == 0 && Hours(r) == 19
      && 0 < LocalMs(r) - LocalMs(now) <= 7 * MsPerDay
      && (Weekday(now) == 0 && Hours(now) < 19 ==> Day(r) == Day(now))
      && (LocalMs(r) - LocalMs(now) == 7 * MsPerDay <==>
            Weekday(now) == 0 && now.msIntoYear % MsPerDay == 19 * MsPerHour)
  {
    var r := NextSundayEvening(now);
    var k := DaysUntilEvening(now);
    NextSundayEveningDay(now);
    LocalMsSplit(now);
    LocalMsSplit(r);
    Mod7Shift(Day(now) + 4, k);
    var m := now.msIntoYear % MsPerDay;
    assert Hours(now) == m / MsPerHour;
    assert Hours(now) < 19 <==> m < 19 * MsPerHour;
    DayShift(Day(now), k, m);
    Gap(k, m);
  }

  /** Moving `k` days ahead to 19:00 from `m` milliseconds into a day. */
  lemma DayShift(day: int, k: int, m: int)
    ensures (day + k) * MsPerDay + 19 * MsPerHour - (day * MsPerDay + m) == k * MsPerDay + 19 * MsPerHour - m
  {
    assert (day + k) * MsPerDay == day * MsPerDay + k * MsPerDay;
  }

  /**
   * From `m` milliseconds into today to 19:00 `k` days ahead is a positive
   * gap of at most a week, a full week exactly when `k` is 7 and `m` is 19:00.
   */
  lemma Gap(k: int, m: int)
    requires 0 <= k <= 7 && 0 <= m < MsPerDay
    requires k == 0 ==> m < 19 * MsPerHour
    requires k == 7 ==> m >= 19 * MsPerHour
    ensures var g := k * MsPerDay + 19 * MsPerHour - m;
      0 < g <= 7 * MsPerDay && (g == 7 * MsPerDay <==> k == 7 && m == 19 * MsPerHour)
  {
    if k < 7 {
      assert k * MsPerDay <= 6 * MsPerDay;
    }
  }

  /** No Sunday 19:00 lies strictly between `now` and `NextSundayEvening(now)`. */
  lemma NextSundayEveningIsFirst(now: Instant, t: Instant)
    requires Calendar.Valid(now) && Calendar.Valid(t)
    requires Weekday(t) == 0 && t.msIntoYear % MsPerDay == 19 * MsPerHour
    requires LocalMs(now) < LocalMs(t)
    ensures LocalMs(NextSundayEvening(now)) <= LocalMs(t)
  {
    var r := NextSundayEvening(now);
    NextSundayEveningSpec(now);
    LocalMsSplit(r);
    LocalMsSplit(t);
    var dt, dr := Day(t), Day(r);
    DayScale(dr - 7, dt);
    SundaysAWeekApart(dt, dr);
    DayScale(dr, dt + 1);
  }

  /** Whole days compare as their starts do. */
  lemma DayScale(a: int, b: int)
    ensures a * MsPerDay < b * MsPerDay <==> a < b
  {
    if a < b {
      assert b * MsPerDay - a * MsPerDay == (b - a) * MsPerDay;
    } else {
      assert a * MsPerDay - b * MsPerDay == (a - b) * MsPerDay;
    }
  }

  /** Two Sundays less than a week apart the wrong way round are the same day or in order. */
  lemma SundaysAWeekApart(dt: int, dr: int)
    requires WeekdayOfDay(dt) == 0 && WeekdayOfDay(dr) == 0 && dt > dr - 7
    ensures dt >= dr
  {
    var qt, qr := (dt + 4) / 7, (dr + 4) / 7;
    assert dt + 4 == 7 * qt && dr + 4 == 7 * qr;
  }

  // ---------------------------------------------------------------- when to send

  /** `shouldSendWeeklyEmail`: Sunday, 19:00 or later, and the marker is not this week's key. */
  function ShouldSendWeeklyEmail(lastSentDate: Option<string>, now: Instant): (r: bool)
    ensures r ==> Weekday(now) == 0 && Hours(now) >= 19
  {
    Weekday(now) == 0 && Hours(now) >= 19 && lastSentDate != Some(WeekKey(now))
  }

  /**
   * Once the marker holds the key of the week of `sentAt`, no instant of
   * that week is due, and an instant of any other week is due exactly
   * when it is Sunday at 19:00 or later.
   */
  lemma MarkerBlocksItsWeek(sentAt: Instant, t: Instant)
    ensures ShouldSendWeeklyEmail(Some(WeekKey(sentAt)), t)
        <==> WeekOf(t) != WeekOf(sentAt) && Weekday(t) == 0 && Hours(t) >= 19
  {
    if KeyString(WeekOf(t)) == KeyString(WeekOf(sentAt)) {
      KeyStringInjective(WeekOf(t), WeekOf(sentAt));
    }
  }

  // ---------------------------------------------------------------- the e-mail

  /**
   * The `WeeklyEmailData` that `sendAIWeeklyEmail` builds at `now` from the
   * totals `s` of the activity list and the insights derived from them.
   */
  function AIEmailData(userEmail: string, userName: string, acts: seq<Activity>, s: Summary, now: Instant): (d: WeeklyEmailData)
    ensures d.weekNumber == WeekNumber(now) && d.year == now.year && d.activities == acts
    ensures d.aiInsights.Some? && 0.0 <= d.aiInsights.value.weeklyScore <= 100.0
    ensures d.aiInsights.value.consistency == ConsistencyTierOf(d.workoutDays)
  {
    WeeklyEmailData(userEmail, userName, WeekNumber(now), now.year, s.totalWorkouts, s.totalDuration,
                    s.totalCalories, s.workoutDays, s.consistencyPercentage, acts, Some(GenerateAIInsights(s)))
  }

  // ---------------------------------------------------------------- the component

  datatype Status = Idle | Analyzing | Sending | Sent | Error

  /** The `localStorage` key of this component's marker. */
  const MarkerKey: string := "lastAIWeeklyEmailSent"

  class AIWeeklyEmailSystem {
    const userEmail: string
    const userName: string
    const weeklyActivities: seq<Activity>
    /** The totals of `weeklyActivities`; the props are fixed for the component's life. */
    const totals: Summary
    var emailStatus: Status
    /** The week key of the last successful send, or null. */
    var lastSentDate: Option<string>
    /** The browser's `localStorage`, where the marker is kept across visits. */
    var storage: Storage

    /** The latest time the component has acted at. */
    ghost var clock: Instant
    /** The weeks for which an e-mail went out, in order. */
    ghost var delivered: seq<WeekId>
    /** The week of the last failed attempt. */
    ghost var failedWeek: WeekId

    /**
     * The marker in state is the one in storage; deliveries go to strictly
     * later weeks, the marker names the last one, and a pending retry
     * belongs to a week not yet delivered.
     */
    ghost predicate Valid()
      reads this
    {
      && GetItem(storage, MarkerKey) == lastSentDate
      && Ledger(delivered, lastSentDate, WeekOf(clock), emailStatus == Error, failedWeek)
      && emailStatus != Analyzing && emailStatus != Sending
    }

    /** Mounting: status idle, marker read from storage. */
    constructor(userEmail: string, userName: string, weeklyActivities: seq<Activity>, storage: Storage, start: Instant)
      ensures this.userEmail == userEmail && this.userName == userName && this.weeklyActivities == weeklyActivities
      ensures totals == Summarize(weeklyActivities)
      ensures emailStatus == Idle && lastSentDate == GetItem(storage, MarkerKey) && this.storage == storage
      ensures clock == start && delivered == []
      ensures Valid()
    {
      this.userEmail := userEmail;
      this.userName := userName;
      this.weeklyActivities := weeklyActivities;
      totals := Summarize(weeklyActivities);
      emailStatus := Idle;
      lastSentDate := GetItem(storage, MarkerKey);
      this.storage := storage;
      clock := start;
      delivered := [];
      failedWeek := WeekOf(start);
    }

    /** The "Retry AI Email" button is shown only in the error state. */
    predicate RetryVisible()
      reads this
    {
      emailStatus == Error
    }

    /** No address, or a send already under way: `sendAIWeeklyEmail` returns at once. */
    predicate Blocked(status: Status) {
      userEmail == "" || status == Analyzing || status == Sending
    }

    /**
     * `sendAIWeeklyEmail` as one step: `steps` lists the statuses it passes
     * through and `sent` the data handed to the mail service. It does
     * nothing when `Blocked`; a successful send records this week's key in
     * the marker and in storage, a failed one leaves both alone.
     */
    method SendAIWeeklyEmail(now: Instant, outcome: Outcome) returns (steps: seq<Status>, sent: Option<WeeklyEmailData>)
      modifies this
      ensures clock == now
      ensures Blocked(old(emailStatus)) ==>
        steps == [] && sent == None && emailStatus == old(emailStatus) && lastSentDate == old(lastSentDate)
        && storage == old(storage) && delivered == old(delivered) && failedWeek == old(failedWeek)
      ensures !Blocked(old(emailStatus)) ==>
        sent == Some(AIEmailData(userEmail, userName, weeklyActivities, totals, now))
        && steps == [Analyzing, Sending, emailStatus]
      ensures !Blocked(old(emailStatus)) && SendResult(outcome) ==>
        emailStatus == Sent && lastSentDate == Some(WeekKey(now))
        && storage == SetItem(old(storage), MarkerKey, WeekKey(now))
        && delivered == old(delivered) + [WeekOf(now)] && failedWeek == old(failedWeek)
      ensures !Blocked(old(emailStatus)) && !SendResult(outcome) ==>
        emailStatus == Error && lastSentDate == old(lastSentDate) && storage == old(storage)
        && delivered == old(delivered) && failedWeek == WeekOf(now)
    {
      clock := now;
      if Blocked(emailStatus) {
        return [], None;
      }
      emailStatus := Analyzing;
      emailStatus := Sending;
      var data := AIEmailData(userEmail, userName, weeklyActivities, totals, now);
      sent := Some(data);
      Complete(now, outcome);
      steps := [Analyzing, Sending, emailStatus];
    }

    /** The end of a send: record the outcome of the mail service's promise. */
    method Complete(now: Instant, outcome: Outcome)
      modifies this
      ensures clock == old(clock)
      ensures SendResult(outcome) ==>
        emailStatus == Sent && lastSentDate == Some(WeekKey(now))
        && storage == SetItem(old(storage), MarkerKey, WeekKey(now))
        && delivered == old(delivered) + [WeekOf(now)] && failedWeek == old(failedWeek)
      ensures !SendResult(outcome) ==>
        emailStatus == Error && lastSentDate == old(lastSentDate) && storage == old(storage)
        && delivered == old(delivered) && failedWeek == WeekOf(now)
    {
      if SendResult(outcome) {
        emailStatus := Sent;
        storage := SetItem(storage, MarkerKey, WeekKey(now));
        lastSentDate := Some(WeekKey(now));
        delivered := delivered + [WeekOf(now)];
      } else {
        emailStatus := Error;
        failedWeek := WeekOf(now);
      }
    }

    /** The status-reset timer firing. */
    method Reset()
      modifies this
      ensures emailStatus == Idle
      ensures lastSentDate == old(lastSentDate) && storage == old(storage) && delivered == old(delivered)
      ensures clock == old(clock)
      ensures old(Valid()) ==> Valid()
    {
      emailStatus := Idle;
    }

    /**
     * One scheduled check. When a send is due and there is an address,
     * this week's data goes out: on success the status is sent and this
     * week's key is recorded, on failure the status is error and the marker
     * stays. When no send is due nothing changes. Either way at most this
     * week is added to the deliveries, which stay at most one per week.
     */
    method CheckAndSend(now: Instant, outcome: Outcome) returns (sent: Option<WeeklyEmailData>)
      requires Valid() && AtOrBefore(clock, now)
      modifies this
      ensures Valid() && clock == now
      ensures sent.Some? ==> ShouldSendWeeklyEmail(old(lastSentDate), now)
      ensures delivered == old(delivered) || delivered == old(delivered) + [WeekOf(now)]
      ensures !ShouldSendWeeklyEmail(old(lastSentDate), now) || userEmail == "" ==>
        sent == None && emailStatus == old(emailStatus) && lastSentDate == old(lastSentDate)
        && storage == old(storage) && delivered == old(delivered)
      ensures ShouldSendWeeklyEmail(old(lastSentDate), now) && userEmail != "" ==>
        sent == Some(AIEmailData(userEmail, userName, weeklyActivities, totals, now))
      ensures ShouldSendWeeklyEmail(old(lastSentDate), now) && userEmail != "" && SendResult(outcome) ==>
        emailStatus == Sent && lastSentDate == Some(WeekKey(now))
        && storage == SetItem(old(storage), MarkerKey, WeekKey(now))
        && delivered == old(delivered) + [WeekOf(now)]
      ensures ShouldSendWeeklyEmail(old(lastSentDate), now) && userEmail != "" && !SendResult(outcome) ==>
        emailStatus == Error && lastSentDate == old(lastSentDate) && storage == old(storage)
        && delivered == old(delivered)
    {
      WeekOfMonotone(clock, now);
      LedgerAdvance(delivered, lastSentDate, WeekOf(clock), emailStatus == Error, failedWeek, WeekOf(now));
      if ShouldSendWeeklyEmail(lastSentDate, now) {
        LedgerMarker(delivered, lastSentDate, WeekOf(clock), emailStatus == Error, failedWeek, WeekOf(now));
        LedgerSend(delivered, lastSentDate, WeekOf(clock), emailStatus == Error, failedWeek, WeekOf(now));
        var steps;
        steps, sent := SendAIWeeklyEmail(now, outcome);
      } else {
        clock := now;
        sent := None;
      }
    }

    /**
     * The retry button, shown after a failure: another attempt, with the
     * same outcomes as a due send, and still at most one delivery per week.
     */
    method Retry(now: Instant, outcome: Outcome) returns (sent: Option<WeeklyEmailData>)
      requires Valid() && RetryVisible() && AtOrBefore(clock, now)
      modifies this
      ensures Valid() && clock == now
      ensures delivered == old(delivered) || delivered == old(delivered) + [WeekOf(now)]
      ensures userEmail == "" ==>
        sent == None && emailStatus == old(emailStatus) && lastSentDate == old(lastSentDate)
        && storage == old(storage) && delivered == old(delivered)
      ensures userEmail != "" ==> sent == Some(AIEmailData(userEmail, userName, weeklyActivities, totals, now))
      ensures userEmail != "" && SendResult(outcome) ==>
        emailStatus == Sent && lastSentDate == Some(WeekKey(now))
        && storage == SetItem(old(storage), MarkerKey, WeekKey(now))
        && delivered == old(delivered) + [WeekOf(now)]
      ensures userEmail != "" && !SendResult(outcome) ==>
        emailStatus == Error && lastSentDate == old(lastSentDate) && storage == old(storage)
        && delivered == old(delivered)
    {
      WeekOfMonotone(clock, now);
      LedgerAdvance(delivered, lastSentDate, WeekOf(clock), true, failedWeek, WeekOf(now));
      LedgerFailing(delivered, lastSentDate, WeekOf(clock), failedWeek, WeekOf(now));
      LedgerSend(delivered, lastSentDate, WeekOf(clock), true, failedWeek, WeekOf(now));
      var steps;
      steps, sent := SendAIWeeklyEmail(now, outcome);
    }
  }
}
