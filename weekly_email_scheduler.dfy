/**
 * src/components/WeeklyEmailScheduler.tsx: the plain weekly e-mail
 * component. Same shape as the AI component with a weaker guard (any hour
 * of a Sunday), no analysing phase, and its own marker, stored under
 * 'lastWeeklyEmailSent'.
 */
module WeeklyEmailScheduler {
  import opened Wrappers
  import opened Calendar
  import opened WeekNumbering
  import opened Activities
  import opened WeeklySummary
  import opened EmailService
  import opened LocalStorage
  import AI = AIWeeklyEmail

  /** `shouldSendWeeklyEmail`: a Sunday, at any hour, and the marker is not this week's key. */
  function ShouldSendWeeklyEmail(lastSentDate: Option<string>, now: Instant): (r: bool)
    ensures r ==> Weekday(now) == 0
  {
    Weekday(now) == 0 && lastSentDate != Some(WeekKey(now))
  }

  /**
   * Once the marker holds the key of the week of `sentAt`, no instant of
   * that week is due, and an instant of any other week is due exactly when
   * it is a Sunday.
   */
  lemma MarkerBlocksItsWeek(sentAt: Instant, t: Instant)
    ensures ShouldSendWeeklyEmail(Some(WeekKey(sentAt)), t) <==> WeekOf(t) != WeekOf(sentAt) && Weekday(t) == 0
  {
    if KeyString(WeekOf(t)) == KeyString(WeekOf(sentAt)) {
      KeyStringInjective(WeekOf(t), WeekOf(sentAt));
    }
  }

  /**
   * With equal markers the AI stream is due only when this one is, and
   * the two differ exactly on Sundays before 19:00.
   */
  lemma GuardsCompared(marker: Option<string>, now: Instant)
    ensures AI.ShouldSendWeeklyEmail(marker, now) ==> ShouldSendWeeklyEmail(marker, now)
    ensures ShouldSendWeeklyEmail(marker, now) && !AI.ShouldSendWeeklyEmail(marker, now) <==>
      ShouldSendWeeklyEmail(marker, now) && Hours(now) < 19
  {
  }

  /** The `WeeklyEmailData` that `sendWeeklyEmail` builds at `now`: no AI insights. */
  function EmailData(userEmail: string, userName: string, acts: seq<Activity>, s: Summary, now: Instant): (d: WeeklyEmailData)
    ensures d.weekNumber == WeekNumber(now) && d.year == now.year && d.activities == acts
    ensures d.aiInsights.None?
  {
    WeeklyEmailData(userEmail, userName, WeekNumber(now), now.year, s.totalWorkouts, s.totalDuration,
                    s.totalCalories, s.workoutDays, s.consistencyPercentage, acts, None)
  }

  datatype Status = Idle | Sending | Sent | Error

  /** The `localStorage` key of this component's marker. */
  const MarkerKey: string := "lastWeeklyEmailSent"

  class WeeklyEmailScheduler {
    const userEmail: string
    const userName: string
    const weeklyActivities: seq<Activity>
    /** The totals of `weeklyActivities`; the props are fixed for the component's life. */
    const totals: Summary
    var emailStatus: Status
    /** The week key of the last successful send, or null. */
    var lastSentDate: Option<string>
    /** The browser's `localStorage`, where the marker is kept across visits. */
    var storage: Storage

    ghost var clock: Instant
    ghost var delivered: seq<WeekId>
    ghost var failedWeek: WeekId

    /**
     * The marker in state is the one in storage; deliveries go to strictly
     * later weeks, the marker names the last one, and a pending retry
     * belongs to a week not yet delivered.
     */
    ghost predicate Valid()
      reads this
    {
      && GetItem(storage, MarkerKey) == lastSentDate
      && Ledger(delivered, lastSentDate, WeekOf(clock), emailStatus == Error, failedWeek)
      && emailStatus != Sending
    }

    /** Mounting: status idle, marker read from storage. */
    constructor(userEmail: string, userName: string, weeklyActivities: seq<Activity>, storage: Storage, start: Instant)
      ensures this.userEmail == userEmail && this.userName == userName && this.weeklyActivities == weeklyActivities
      ensures totals == Summarize(weeklyActivities)
      ensures emailStatus == Idle && lastSentDate == GetItem(storage, MarkerKey) && this.storage == storage
      ensures clock == start && delivered == []
      ensures Valid()
    {
      this.userEmail := userEmail;
      this.userName := userName;
      this.weeklyActivities := weeklyActivities;
      totals := Summarize(weeklyActivities);
      emailStatus := Idle;
      lastSentDate := GetItem(storage, MarkerKey);
      this.storage := storage;
      clock := start;
      delivered := [];
      failedWeek := WeekOf(start);
    }

    /** The "Retry sending email" button is shown only in the error state. */
    predicate RetryVisible()
      reads this
    {
      emailStatus == Error
    }

    /** No address, or a send already under way: `sendWeeklyEmail` returns at once. */
    predicate Blocked(status: Status) {
      userEmail == "" || status == Sending
    }

    /**
     * `sendWeeklyEmail` as one step: `steps` lists the statuses it passes
     * through and `sent` the data handed to the mail service.
     */
    method SendWeeklyEmail(now: Instant, outcome: Outcome) returns (steps: seq<Status>, sent: Option<WeeklyEmailData>)
      modifies this
      ensures clock == now
      ensures Blocked(old(emailStatus)) ==>
        steps == [] && sent == None && emailStatus == old(emailStatus) && lastSentDate == old(lastSentDate)
        && storage == old(storage) && delivered == old(delivered) && failedWeek == old(failedWeek)
      ensures !Blocked(old(emailStatus)) ==>
        sent == Some(EmailData(userEmail, userName, weeklyActivities, totals, now))
        && steps == [Sending, emailStatus]
      ensures !Blocked(old(emailStatus)) && SendResult(outcome) ==>
        emailStatus == Sent && lastSentDate == Some(WeekKey(now))
        && storage == SetItem(old(storage), MarkerKey, WeekKey(now))
        && delivered == old(delivered) + [WeekOf(now)] && failedWeek == old(failedWeek)
      ensures !Blocked(old(emailStatus)) && !SendResult(outcome) ==>
        emailStatus == Error && lastSentDate == old(lastSentDate) && storage == old(storage)
        && delivered == old(delivered) && failedWeek == WeekOf(now)
    {
      clock := now;
      if Blocked(emailStatus) {
        return [], None;
      }
      emailStatus := Sending;
      var data := EmailData(userEmail, userName, weeklyActivities, totals, now);
      sent := Some(data);
      Complete(now, outcome);
      steps := [Sending, emailStatus];
    }

    /** The end of a send: record the outcome of the mail service's promise. */
    method Complete(now: Instant, outcome: Outcome)
      modifies this
      ensures clock == old(clock)
      ensures SendResult(outcome) ==>
        emailStatus == Sent && lastSentDate == Some(WeekKey(now))
        && storage == SetItem(old(storage), MarkerKey, WeekKey(now))
        && delivered == old(delivered) + [WeekOf(now)] && failedWeek == old(failedWeek)
      ensures !SendResult(outcome) ==>
        emailStatus == Error && lastSentDate == old(lastSentDate) && storage == old(storage)
        && delivered == old(delivered) && failedWeek == WeekOf(now)
    {
      if SendResult(outcome) {
        emailStatus := Sent;
        storage := SetItem(storage, MarkerKey, WeekKey(now));
        lastSentDate := Some(WeekKey(now));
        delivered := delivered + [WeekOf(now)];
      } else {
        emailStatus := Error;
        failedWeek := WeekOf(now);
      }
    }

    /** The five-second status reset: back to idle whatever the outcome. */
    method Reset()
      modifies this
      ensures emailStatus == Idle
      ensures lastSentDate == old(lastSentDate) && storage == old(storage) && delivered == old(delivered)
      ensures clock == old(clock)
      ensures old(Valid()) ==> Valid()
    {
      emailStatus := Idle;
    }

    /**
     * One scheduled check. When a send is due and there is an address,
     * this week's data goes out: on success the status is sent and this
     * week's key is recorded, on failure the status is error and the marker
     * stays. When no send is due nothing changes. Either way at most this
     * week is added to the deliveries, which stay at most one per week.
     */
    method CheckAndSend(now: Instant, outcome: Outcome) returns (sent: Option<WeeklyEmailData>)
      requires Valid() && AtOrBefore(clock, now)
      modifies this
      ensures Valid() && clock == now
      ensures sent.Some? ==> ShouldSendWeeklyEmail(old(lastSentDate), now)
      ensures delivered == old(delivered) || delivered == old(delivered) + [WeekOf(now)]
      ensures !ShouldSendWeeklyEmail(old(lastSentDate), now) || userEmail == "" ==>
        sent == None && emailStatus == old(emailStatus) && lastSentDate == old(lastSentDate)
        && storage == old(storage) && delivered == old(delivered)
      ensures ShouldSendWeeklyEmail(old(lastSentDate), now) && userEmail != "" ==>
        sent == Some(EmailData(userEmail, userName, weeklyActivities, totals, now))
      ensures ShouldSendWeeklyEmail(old(lastSentDate), now) && userEmail != "" && SendResult(outcome) ==>
        emailStatus == Sent && lastSentDate == Some(WeekKey(now))
        && storage == SetItem(old(storage), MarkerKey, WeekKey(now))
        && delivered == old(delivered) + [WeekOf(now)]
      ensures ShouldSendWeeklyEmail(old(lastSentDate), now) && userEmail != "" && !SendResult(outcome) ==>
        emailStatus == Error && lastSentDate == old(lastSentDate) && storage == old(storage)
        && delivered == old(delivered)
    {
      WeekOfMonotone(clock, now);
      LedgerAdvance(delivered, lastSentDate, WeekOf(clock), emailStatus == Error, failedWeek, WeekOf(now));
      if ShouldSendWeeklyEmail(lastSentDate, now) {
        LedgerMarker(delivered, lastSentDate, WeekOf(clock), emailStatus == Error, failedWeek, WeekOf(now));
        LedgerSend(delivered, lastSentDate, WeekOf(clock), emailStatus == Error, failedWeek, WeekOf(now));
        var steps;
        steps, sent := SendWeeklyEmail(now, outcome);
      } else {
        clock := now;
        sent := None;
      }
    }

    /**
     * The retry button, shown after a failure: another attempt, with the
     * same outcomes as a due send, and still at most one delivery per week.
     */
    method Retry(now: Instant, outcome: Outcome) returns (sent: Option<WeeklyEmailData>)
      requires Valid() && RetryVisible() && AtOrBefore(clock, now)
      modifies this
      ensures Valid() && clock == now
      ensures delivered == old(delivered) || delivered == old(delivered) + [WeekOf(now)]
      ensures userEmail == "" ==>
        sent == None && emailStatus == old(emailStatus) && lastSentDate == old(lastSentDate)
        && storage == old(storage) && delivered == old(delivered)
      ensures userEmail != "" ==> sent == Some(EmailData(userEmail, userName, weeklyActivities, totals, now))
      ensures userEmail != "" && SendResult(outcome) ==>
        emailStatus == Sent && lastSentDate == Some(WeekKey(now))
        && storage == SetItem(old(storage), MarkerKey, WeekKey(now))
        && delivered == old(delivered) + [WeekOf(now)]
      ensures userEmail != "" && !SendResult(outcome) ==>
        emailStatus == Error && lastSentDate == old(lastSentDate) && storage == old(storage)
        && delivered == old(delivered)
    {
      WeekOfMonotone(clock, now);
      LedgerAdvance(delivered, lastSentDate, WeekOf(clock), true, failedWeek, WeekOf(now));
      LedgerFailing(delivered, lastSentDate, WeekOf(clock), failedWeek, WeekOf(now));
      LedgerSend(delivered, lastSentDate, WeekOf(clock), true, failedWeek, WeekOf(now));
      var steps;
      steps, sent := SendWeeklyEmail(now, outcome);
    }
  }

  /**
   * Both components keep their marker in the one `localStorage`, under
   * different keys. After the plain scheduler's check, whatever it sent,
   * an AI component mounted on the resulting storage reads the same AI
   * marker as before, and the stored plain marker is the scheduler's own.
   */
  method SeparateMarkers(plain: WeeklyEmailScheduler, now: Instant, outcome: Outcome) returns (ai: AI.AIWeeklyEmailSystem)
    requires plain.Valid() && AtOrBefore(plain.clock, now)
    modifies plain
    ensures ai.lastSentDate == GetItem(old(plain.storage), AI.MarkerKey)
    ensures GetItem(ai.storage, MarkerKey) == plain.lastSentDate
  {
    var sent := plain.CheckAndSend(now, outcome);
    assert |MarkerKey| != |AI.MarkerKey|;
    ai := new AI.AIWeeklyEmailSystem(plain.userEmail, plain.userName, plain.weeklyActivities, plain.storage, now);
  }
}
