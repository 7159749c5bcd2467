# FitTrack core logic in Dafny

FitTrack is a React and TypeScript fitness app. It has an activity feed, a
weekly report, two weekly e-mail streams (plain and "AI"), an AI coach that
sends goal reminders, activity reminders and a notification panel. This
project models the parts of it that compute something: the weekly totals and
the insight tiers built from them, the send-once-per-week e-mail dispatchers,
the text formatting helpers, and the small pieces of UI state (follow list,
kudos button, reminder form). It also models the service layer over the
activity and user tables. Each source file is one module. Every contract is
proved.

The modules:

- **Weekly totals and insights.**
  - `WeeklySummary`: the fold the app writes five times (count, sums, distinct dates, `Math.round(days / 7 * 100)`).
  - `Insights`: the consistency, performance and calorie tiers, the capped weekly score, next-week targets and the AI focus area.
  - `Quotients`: JavaScript's `x / y` and `q || 0` over non-negative operands, kept exact (finite, `Infinity` or `NaN`).
- **Calendar and week keys.**
  - `Calendar`: a local instant as year and milliseconds since 1 January (Gregorian weekday, hour, day number).
  - `WeekNumbering`: `getWeekNumber` exactly as written, the `"{year}-W{n}"` marker, and the ledger invariant behind "at most one e-mail per week".
- **The two e-mail components.**
  - `AIWeeklyEmail` (`AIWeeklyEmailSystem.tsx`) and `WeeklyEmailScheduler` (`WeeklyEmailScheduler.tsx`).
  - Each is a class whose `emailStatus` and `lastSentDate` fields the send method updates.
  - The mail service's answer is an input (`Outcome`).
  - `LocalStorage`: the browser storage the two components read and write, as a map from keys to texts.
- **Services.**
  - `EmailService` (`emailService.ts`): formatting and template parameters.
  - `WeeklyEmailService` (`weeklyEmailService.ts`): the batch job over all subscribed users, with its per-user faults as inputs.
  - `ActivityService` and `UserService`: the tables as sequences of rows, and query failures as boolean inputs.
- **Components.**
  - `AIReminders`: the coach's messages, titles and time slots.
  - `ReminderModal`: a form class.
  - `ReminderList`: time and day formatting.
  - `NotificationCenter`: the unread count, the age buckets and the panel.
  - `Athletes`: a follow-list class.
  - `ActivityCard`: a kudos class, plus the icon and colour tables.
  - `WeeklyReportModal`: the dialog as the values it renders.
  - `Icons`: the shared emoji tables.
- **Helpers.**
  - `Lists`: filter, toggle, indexed map.
  - `Text`: decimal digits, split and join, capitalise.
  - `Activities`: the activity records.
  - `Wrappers`: `Option`.
  - `Encoding` and `CoachEmoji`: UTF-8 and Windows-1252, used for the findings below.
  - `EffectSyntax`: the bracket structure of one effect of `AIWeeklyEmailSystem.tsx`, used for the findings below.

Dates, hours and weekdays are plain inputs. The time zone is fixed. ISO
`YYYY-MM-DD` dates are day numbers, which sort in the same order as the
strings. Locale formatting (`toLocaleString`, `toLocaleDateString`) is a
`Locale` parameter.

Where a description of the program and the code disagree, the model follows
the code:

- `calculateNextSundayEvening` is sometimes described as "less than seven days ahead". At Sunday 19:00:00.000 exactly, the code returns the next Sunday, exactly seven days ahead. `AIWeeklyEmail.NextSundayEveningSpec` states "at most seven days", with equality exactly at that instant.
- The averages `total / count || 0` are 0 for an empty list. With a count of 0 and a positive total they are `Infinity`, which falls in the top performance tier. Totals built from a list cannot reach that case (`Insights.SummaryAverageFinite`). Totals handed to `emailService` from elsewhere can.
- The plain scheduler's comment says "Sunday evening", but its guard has no hour condition. The model follows the guard, and `WeeklyEmailScheduler.GuardsCompared` states how the two streams differ.

## Model

| member | source | states |
|---|---|---|
| `WeeklySummary.ActiveDates` | src/components/AIWeeklyEmailSystem.tsx:114 | a date is in the set exactly when some activity has it |
| `WeeklySummary.ConsistencyPercentage` | src/components/AIWeeklyEmailSystem.tsx:115 | the result lies within one half of `days / 7 * 100`, so it is `Math.round` of it; at most 100 for at most 7 days |
| `WeeklySummary.ConsistencyLandmarks` | src/components/AIWeeklyEmailSystem.tsx:115 | 0 days give 0 %, 7 give 100 %, 3 give 43 %, 4 give 57 %; more days never give a lower percentage |
| `WeeklySummary.ConsistencyBelowHalf` | src/services/emailService.ts:183 | the percentage is below 50 exactly when there are at most 3 workout days |
| `WeeklySummary.Summarize` | src/components/WeeklyEmailScheduler.tsx:51-55 | the count is the list length; days are at most the count and 0 only for an empty list; an empty list has zero totals; the percentage is that of the days |
| `WeeklySummary.WorkoutDaysBound` | src/components/WeeklyEmailScheduler.tsx:54 | distinct dates are never more than activities, and at least one for a non-empty list |
| `WeeklySummary.TotalsAppend` | src/components/WeeklyReportModal.tsx:29-34 | every total of a concatenation is the sum of the totals of its parts, and its dates are the union of the parts' dates |
| `WeeklySummary.WeekDates` | src/services/activityService.ts:70-78 | the week from `weekStart` to `weekStart + 6` holds exactly seven dates |
| `WeeklySummary.WithinWeek` | src/services/weeklyEmailService.ts:142-143 | activities dated within one week give at most 7 workout days and a percentage of at most 100 |
| `WeeklySummary.ExampleWeek` | src/components/WeeklyReportModal.tsx:29-35 | a concrete week: two runs on one day and a workout give 3 workouts, 2 days and 29 % |
| `Quotients.Divide` | src/services/emailService.ts:130 | `x / y` is finite exactly when `y > 0` (and then the exact quotient), and NaN exactly for `0 / 0` |
| `Quotients.OrZero` | src/services/emailService.ts:130 | `q \|\| 0` turns NaN into 0 and keeps every other value |
| `Insights.ConsistencyTierOf` | src/components/AIWeeklyEmailSystem.tsx:69-75 | each tier holds exactly on its range of days: at least 6, 4 to 5, 2 to 3, below 2 |
| `Insights.ConsistencyTierMonotone` | src/services/emailService.ts:117-127 | more workout days never give a lower consistency tier |
| `Insights.AverageDuration` | src/services/emailService.ts:130 | with workouts the average is the exact quotient; with none it is 0 when the total is 0 and `Infinity` otherwise |
| `Insights.SummaryAverageFinite` | src/components/WeeklyReportModal.tsx:60 | totals folded from one list always have a finite average |
| `Insights.PerformanceTierOf` | src/components/AIWeeklyEmailSystem.tsx:77-81 | each tier holds exactly on its range of the average: above 45, above 30 up to 45, at most 30; `Infinity` is the top tier |
| `Insights.PerformanceTierMonotone` | src/services/emailService.ts:129-139 | a longer average never gives a lower performance tier |
| `Insights.CalorieTierOf` | src/components/AIWeeklyEmailSystem.tsx:83-87 | each tier holds exactly on its range: above 2000, above 1000 up to 2000, at most 1000 |
| `Insights.WeeklyScore` | src/components/AIWeeklyEmailSystem.tsx:93 | the score is between 0 and 100, never above the uncapped sum, and equal either to 100 or to that sum |
| `Insights.WeeklyScoreMonotone` | src/services/weeklyEmailService.ts:59 | more days, minutes or calories never lower the score |
| `Insights.GenerateAIInsights` | src/services/weeklyEmailService.ts:35-67 | the three tiers are those of the totals' days, average and calories, and the score is within 0 to 100 |
| `Insights.EmptyWeekInsights` | src/components/AIWeeklyEmailSystem.tsx:61-95 | an empty week gets the lowest tier of each kind (average `0 / 0 \|\| 0`) and a score of 0 |
| `Insights.EliteWeekInsights` | src/components/AIWeeklyEmailSystem.tsx:61-95 | six 50-minute workouts on six days burning 2500 kcal get the top tiers and a capped score of 100 |
| `Insights.Max` | src/services/emailService.ts:155-157 | `Math.max` is at least both arguments and equal to one of them |
| `Insights.NextWeekGoals` | src/services/emailService.ts:154-158 | each target exceeds the current value, is at least its floor (5 days, 300 min, 2000 kcal) and is one of the two |
| `Insights.AINextWeekGoals` | src/services/emailService.ts:165-169 | days lie in 5 to 7, one more than this week's with a floor of 5, and 7 from six days on; duration, calories and score follow the AI offsets and floors; the score is capped at 100 with a missing score counted as 0 |
| `Insights.FullWeekTargets` | src/services/emailService.ts:155-166 | after a 7-day week the plain target is 8 days; the AI target stays at 7 |
| `Insights.AIFocusArea` | src/services/emailService.ts:179-192 | each focus holds exactly when the earlier rules fail and its own holds: consistency below 50, then average below 30, then calories below 1500, else excellence |
| `Insights.FocusOnConsistency` | src/services/emailService.ts:183-184 | for totals folded from a list, "build consistency" is chosen exactly when there are at most 3 workout days |
| `Calendar.WeekdayOfDay` | src/components/AIWeeklyEmailSystem.tsx:47 | the weekday of a day number is in 0 to 6 |
| `Calendar.WeekdayStep` | src/components/AIWeeklyEmailSystem.tsx:47 | the day after has the next weekday (Saturday wraps to Sunday), and a week later the same weekday |
| `Calendar.Weekday` | src/components/AIWeeklyEmailSystem.tsx:47 | `getDay()` is the weekday of the instant's day number, in 0 to 6 |
| `Calendar.Hours` | src/components/AIWeeklyEmailSystem.tsx:48 | `getHours()` is in 0 to 23 |
| `Calendar.BackToSunday` | src/services/weeklyEmailService.ts:27-31 | going back `getDay()` days always lands on a Sunday |
| `Calendar.Jan1Weekday` | src/components/AIWeeklyEmailSystem.tsx:56-58 | the weekday of 1 January is in 0 to 6 |
| `WeekNumbering.WeekNumber` | src/components/AIWeeklyEmailSystem.tsx:55-59 | the week number is at least 1 |
| `WeekNumbering.WeekNumberBounds` | src/components/AIWeeklyEmailSystem.tsx:57-58 | in milliseconds, the number is the least whole number of weeks covering the time since 1 January plus the weekday of 1 January plus one day |
| `WeekNumbering.WeekNumberIsCeiling` | src/components/AIWeeklyEmailSystem.tsx:55-59 | the number is the ceiling of `(pastDaysOfYear + firstDayOfYear.getDay() + 1) / 7`, with fractional days |
| `WeekNumbering.WeekNumberMonotone` | src/components/AIWeeklyEmailSystem.tsx:55-59 | within a year the number never decreases |
| `WeekNumbering.WeekNumberStep` | src/components/WeeklyEmailScheduler.tsx:36-40 | one millisecond later the number grows by one exactly at the first instant of a Saturday, and otherwise stays |
| `WeekNumbering.SundayWeekNumber` | src/components/WeeklyEmailScheduler.tsx:36-40 | on a Sunday the number is `(dayOfYear + jan1Weekday) / 7 + 1` |
| `WeekNumbering.Jan1SaturdayIsWeekTwo` | src/components/AIWeeklyEmailSystem.tsx:55-59 | when 1 January is a Saturday, its midnight is week 1 and any later instant that day is week 2 |
| `WeekNumbering.KeyStringInjective` | src/components/AIWeeklyEmailSystem.tsx:138 | two weeks with the same `"{year}-W{n}"` key are the same week |
| `WeekNumbering.WeekOfMonotone` | src/components/AIWeeklyEmailSystem.tsx:49 | a later instant never has an earlier (year, week) pair |
| `WeekNumbering.LedgerSend` | src/components/AIWeeklyEmailSystem.tsx:133-147 | a send into a week later than the last delivery keeps the weeks delivered strictly increasing and the marker naming the last one; a failure there leaves a pending retry for that week |
| `AIWeeklyEmail.DaysUntilEvening` | src/components/AIWeeklyEmailSystem.tsx:31-38 | at most 7 days; 0 exactly on Sunday before 19:00; 7 exactly on Sunday from 19:00; always lands on a Sunday |
| `AIWeeklyEmail.NextSundayEvening` | src/components/AIWeeklyEmailSystem.tsx:28-43 | the result is at 19:00:00.000 of its day |
| `AIWeeklyEmail.NextSundayEveningDay` | src/components/AIWeeklyEmailSystem.tsx:38 | the result is valid and falls `DaysUntilEvening` days after today, across New Year too |
| `AIWeeklyEmail.NextSundayEveningSpec` | src/components/AIWeeklyEmailSystem.tsx:28-43 | a Sunday at 19:00 strictly after now and at most seven days ahead; today when it is Sunday before 19:00; exactly seven days only at Sunday 19:00:00.000 |
| `AIWeeklyEmail.NextSundayEveningIsFirst` | src/components/AIWeeklyEmailSystem.tsx:28-43 | no Sunday 19:00 lies strictly between now and the result |
| `AIWeeklyEmail.ShouldSendWeeklyEmail` | src/components/AIWeeklyEmailSystem.tsx:45-53 | a send is due only on a Sunday from 19:00 on |
| `AIWeeklyEmail.MarkerBlocksItsWeek` | src/components/AIWeeklyEmailSystem.tsx:45-53 | with the marker set to some week's key, a send is due exactly on a Sunday from 19:00 in any other week |
| `AIWeeklyEmail.AIEmailData` | src/components/AIWeeklyEmailSystem.tsx:107-131 | the data carries this week's number, the year and the activities, and insights whose consistency tier is that of the days and whose score is within 0 to 100 |
| `AIWeeklyEmail.AIWeeklyEmailSystem.constructor` | src/components/AIWeeklyEmailSystem.tsx:22-25 | status idle, marker `getItem('lastAIWeeklyEmailSent')` of the given storage, totals of the activities, nothing delivered |
| `AIWeeklyEmail.AIWeeklyEmailSystem.SendAIWeeklyEmail` | src/components/AIWeeklyEmailSystem.tsx:97-151 | blocked (no address, or analysing or sending) it changes nothing; otherwise it passes through analysing and sending, hands over this week's data, and on success records this week's key in the field and under `lastAIWeeklyEmailSent` in storage, on failure sets error and keeps marker and storage |
| `AIWeeklyEmail.AIWeeklyEmailSystem.Complete` | src/components/AIWeeklyEmailSystem.tsx:133-147 | success: status sent, marker this week's key, stored under `lastAIWeeklyEmailSent`, this week delivered; false or throw: status error, marker and storage unchanged |
| `AIWeeklyEmail.AIWeeklyEmailSystem.Reset` | src/components/AIWeeklyEmailSystem.tsx:150 | the status returns to idle and nothing else changes |
| `AIWeeklyEmail.AIWeeklyEmailSystem.CheckAndSend` | src/components/AIWeeklyEmailSystem.tsx:176-178 | when a send is due and an address is set it sends this week's data: on success status sent, this week's key in the marker and in storage, this week delivered; on failure status error, marker and storage kept; when not due nothing changes; and it keeps the ledger: deliveries in strictly increasing weeks, so at most one per week |
| `AIWeeklyEmail.AIWeeklyEmailSystem.Retry` | src/components/AIWeeklyEmailSystem.tsx:293-300 | with an address it sends this week's data, with the same success and failure outcomes as `CheckAndSend`; without one nothing changes; it never delivers a second e-mail for a delivered week |
| `WeeklyEmailScheduler.ShouldSendWeeklyEmail` | src/components/WeeklyEmailScheduler.tsx:27-34 | a send is due only on a Sunday, at any hour |
| `WeeklyEmailScheduler.MarkerBlocksItsWeek` | src/components/WeeklyEmailScheduler.tsx:27-34 | with the marker set to some week's key, a send is due exactly on a Sunday of any other week |
| `WeeklyEmailScheduler.GuardsCompared` | src/components/WeeklyEmailScheduler.tsx:33 | whenever the AI stream is due the plain one is too, and the plain one alone is due exactly on a Sunday before 19:00 |
| `WeeklyEmailScheduler.EmailData` | src/components/WeeklyEmailScheduler.tsx:47-68 | the data carries this week's number, the year and the activities, and no insights |
| `WeeklyEmailScheduler.WeeklyEmailScheduler.constructor` | src/components/WeeklyEmailScheduler.tsx:22-25 | status idle, marker `getItem('lastWeeklyEmailSent')` of the given storage, totals of the activities |
| `WeeklyEmailScheduler.WeeklyEmailScheduler.SendWeeklyEmail` | src/components/WeeklyEmailScheduler.tsx:42-88 | blocked (no address, or sending) it changes nothing; otherwise it passes through sending only, and on success records this week's key in the field and under `lastWeeklyEmailSent` in storage, on failure sets error and keeps marker and storage |
| `WeeklyEmailScheduler.WeeklyEmailScheduler.Complete` | src/components/WeeklyEmailScheduler.tsx:70-84 | success: status sent and marker this week's key, stored under `lastWeeklyEmailSent`; false or throw: status error, marker and storage unchanged |
| `WeeklyEmailScheduler.WeeklyEmailScheduler.Reset` | src/components/WeeklyEmailScheduler.tsx:86-87 | the status returns to idle whatever the outcome, nothing else changes |
| `WeeklyEmailScheduler.WeeklyEmailScheduler.CheckAndSend` | src/components/WeeklyEmailScheduler.tsx:91-105 | when its guard holds and an address is set it sends this week's data: on success status sent, this week's key in the marker and in storage, this week delivered; on failure status error, marker and storage kept; otherwise nothing changes; deliveries stay in strictly increasing weeks, so at most one per week |
| `WeeklyEmailScheduler.WeeklyEmailScheduler.Retry` | src/components/WeeklyEmailScheduler.tsx:160-163 | with an address it sends this week's data, with the same outcomes as `CheckAndSend`; without one nothing changes; the at-most-once-per-week ledger is kept |
| `WeeklyEmailScheduler.SeparateMarkers` | src/components/WeeklyEmailScheduler.tsx:77 | after a check of the plain scheduler, an AI component mounted on the same storage reads the AI marker stored before it (`lastAIWeeklyEmailSent`), while the storage's `lastWeeklyEmailSent` is the plain scheduler's marker |
| `LocalStorage.GetItem` | src/components/AIWeeklyEmailSystem.tsx:24 | `getItem` gives the stored text exactly when the key is present, and null otherwise |
| `LocalStorage.SetItem` | src/components/AIWeeklyEmailSystem.tsx:140 | after `setItem` the key reads the new text and every other key reads as before |
| `EmailService.FormatDuration` | src/services/emailService.ts:111-115 | the text has an hours part exactly from 60 minutes on, and no line break |
| `EmailService.FormatParseDuration` | src/services/emailService.ts:111-115 | the text reads back as the same number of minutes, `60 * h + m` with at least one hour and the minutes below 60 |
| `EmailService.ParseDurationCanonical` | src/services/emailService.ts:111-115 | every text that reads back as a duration is exactly the rendering of that duration: the rendering is canonical |
| `EmailService.OneRendering` | src/services/emailService.ts:111-115 | the only text for a count of minutes is its rendering; from 60 minutes on it is the whole hours and the remaining minutes below 60, so 90 minutes is "1h 30m" and never "0h 90m" |
| `EmailService.FormatActivitiesList` | src/services/emailService.ts:141-152 | no activities give the empty text and one activity gives its own line |
| `EmailService.ActivitiesListLines` | src/services/emailService.ts:141-152 | split at line breaks, the list gives back one line per activity in input order |
| `EmailService.ActivityLineSingle` | src/services/emailService.ts:150 | an activity line (capitalised type, date, duration, optional distance, calories) has no line break |
| `EmailService.CapitalizeAvoids` | src/services/emailService.ts:150 | capitalising introduces no character other than an upper-case letter |
| `EmailService.Round` | src/services/emailService.ts:175 | `Math.round` is within one half of its argument, with halves rounded up |
| `EmailService.NextWeekGoalsLines` | src/services/emailService.ts:159-162 | the goals text splits into exactly its four goal lines |
| `EmailService.GoalLinesSingle` | src/services/emailService.ts:159-162 | there are four goal lines, and none contains a line break |
| `EmailService.AIParams` | src/services/emailService.ts:38-55 | missing insights become score 0 and empty texts; present ones are passed through as their texts; the duration reads back as the total |
| `EmailService.Params` | src/services/emailService.ts:79-93 | the consistency message and performance insight are those of the totals; the duration reads back as the total |
| `EmailService.SendResult` | src/services/emailService.ts:58-70 | the send reports success exactly when the response is ok, and failure when the request throws |
| `WeeklyEmailService.GetWeekStartDate` | src/services/weeklyEmailService.ts:25-33 | a Sunday 0 to 6 days before today, and today exactly when today is Sunday |
| `WeeklyEmailService.WeekStartIsTheSunday` | src/services/weeklyEmailService.ts:25-33 | it is the only Sunday among today and the six days before |
| `WeeklyEmailService.BuildReport` | src/services/weeklyEmailService.ts:138-163 | the report counts the rows, its days are at most the rows, its percentage is that of its days, its tiers are those of its totals (the performance tier that of the average duration) and its score is within 0 to 100 |
| `WeeklyEmailService.ReportAgreesWithUserStats` | src/services/weeklyEmailService.ts:138-141 | the report's count and sums equal what `getUserStats` folds from the same rows |
| `WeeklyEmailService.ProcessUser` | src/services/weeklyEmailService.ts:130-176 | the result is "sent" exactly when nothing threw, and a processing error exactly when the iteration threw; a report holds exactly that user's rows of the week, each as often as stored, and none when the query failed |
| `WeeklyEmailService.SendWeeklyReportsToAllUsers` | src/services/weeklyEmailService.ts:114-184 | with no subscribed users it computes no week start and sends nothing; otherwise every subscribed user is processed once, in order, each by its own faults only |
| `WeeklyEmailService.ProcessOne` | src/services/weeklyEmailService.ts:131-176 | the loop body gives the result `ProcessUser` specifies |
| `WeeklyReportModal.ShownDistance` | src/components/WeeklyReportModal.tsx:165-167 | the distance is shown exactly when present and non-zero, and then unchanged |
| `WeeklyReportModal.Breakdown` | src/components/WeeklyReportModal.tsx:151-170 | one row per activity in order, with its emoji, type, date, calories, shown distance, and a duration that reads back as its minutes |
| `WeeklyReportModal.Render` | src/components/WeeklyReportModal.tsx:27-76 | nothing while closed; open, the totals, messages, breakdown and targets are those of `weekData` and the total time reads back as the total |
| `WeeklyReportModal.ModalMatchesEmail` | src/components/WeeklyReportModal.tsx:47-76 | on the same activities the dialog shows the plain e-mail's total time, consistency message and performance insight |
| `WeeklyReportModal.EmptyWeekView` | src/components/WeeklyReportModal.tsx:151-194 | an empty week shows no rows, 0 workouts, 0 %, "0m" and the floor targets 5, 300, 2000 |
| `Icons.EmojiFor` | src/components/WeeklyReportModal.tsx:37-45 | a listed non-empty entry is returned, and a type not in the table gets the runner |
| `Icons.ReminderEmojiExtends` | src/components/ReminderList.tsx:18-28 | the reminder table agrees with the report table on every workout type |
| `Icons.YogaAndWalking` | src/components/ReminderList.tsx:18-28 | yoga and walking have their own emoji in the reminder list and fall back to the runner in the report |
| `AIReminders.Progress` | src/components/AIReminderSystem.tsx:44 | the progress is finite exactly with a positive target, and then it is `current * 100 / target` and below 100 exactly when the goal is unmet; NaN exactly for 0 of 0 |
| `AIReminders.ToFixed` | src/components/AIReminderSystem.tsx:50-52 | with no digits it is the rounded whole number; otherwise it has exactly that many digits after its point, the integer part has no leading zero and reads as the rounded count of units divided by 10^digits, and the decimals read as the remainder |
| `AIReminders.ToFixedNearest` | src/components/AIReminderSystem.tsx:50-52 | the text reads back as the rounded count of units of the last decimal place, which is within half a unit of `x` |
| `AIReminders.DecimalTextValue` | src/components/AIReminderSystem.tsx:50-52 | a count of units written with that many decimals reads back as the same count |
| `AIReminders.MessageTierOf` | src/components/AIReminderSystem.tsx:47-55 | "just started" exactly below 30 %, "crushed" exactly from 100 % on (and for Infinity or NaN), the middle tiers on 30 to 70 and 70 to 100 |
| `AIReminders.MotivationalMessage` | src/components/AIReminderSystem.tsx:43-56 | the message ends with the emoji of its tier |
| `AIReminders.ReminderTitle` | src/components/AIReminderSystem.tsx:58-68 | below 50 % "Time for …", from 50 % to below 90 % "Almost there with …!", from 90 % (or not comparable) "Final push for …" |
| `AIReminders.TitleMatchesMessage` | src/components/AIReminderSystem.tsx:43-68 | a "just started" message comes with "Time for", a "great progress" one with "Time for" or "Almost there", a "so close" one with "Almost there" or "Final push", a "crushed" one with "Final push" |
| `AIReminders.TierMonotone` | src/components/AIReminderSystem.tsx:47-55 | more distance towards the same target never gives a lower message tier |
| `AIReminders.SendAIReminder` | src/components/AIReminderSystem.tsx:70-81 | the reminder has the requested type (motivation by default), the goal's activity type, and that goal's title and message |
| `AIReminders.Reminders` | src/components/AIReminderSystem.tsx:102-104 | one reminder of the given type per goal, in goal order |
| `AIReminders.Nudges` | src/components/AIReminderSystem.tsx:92-97 | one motivation reminder per goal below 80 %, in goal order |
| `AIReminders.NudgesAreForUnfinishedGoals` | src/components/AIReminderSystem.tsx:91-98 | every morning nudge is for a goal of the list below 80 %, never "crushed", never titled "Final push" |
| `AIReminders.NoFinalPushBelow80` | src/components/AIReminderSystem.tsx:58-68 | a goal below 80 % is never titled "Final push" |
| `AIReminders.CheckAndSendReminders` | src/components/AIReminderSystem.tsx:85-118 | weekday 8:00 nudges, Wednesday 18:00 a goal check per goal, Sunday 19:00 exactly the one summary, and nothing at any other hour |
| `AIReminders.MorningNudges` | src/components/AIReminderSystem.tsx:92-97 | the `forEach` loop sends exactly the nudges, in order |
| `AIReminders.GoalChecks` | src/components/AIReminderSystem.tsx:102-104 | the `forEach` loop sends a goal check per goal, in order |
| `AIReminders.SlotsDisjoint` | src/components/AIReminderSystem.tsx:91-108 | no hour belongs to two of the three slots |
| `AIReminders.InitialGoalsNudged` | src/components/AIReminderSystem.tsx:26-41 | both built-in goals (74 % and 64 %) get morning nudges, with the "so close" and "great progress" messages |
| `AIReminders.InitialGoalsNumbers` | src/components/AIReminderSystem.tsx:50-52 | the built-in goals print "6.5" km to go and "64" % |
| `ReminderModal.ReminderForm.constructor` | src/components/ReminderModal.tsx:21-26 | the form starts with no title, a run at 07:00 and no days, and cannot be submitted |
| `ReminderModal.ReminderForm.SetTitle` | src/components/ReminderModal.tsx:98 | the title input sets the title only |
| `ReminderModal.ReminderForm.ChooseActivityType` | src/components/ReminderModal.tsx:115 | an activity button sets the type only |
| `ReminderModal.ReminderForm.SetTime` | src/components/ReminderModal.tsx:138 | the time input sets the time only |
| `ReminderModal.ReminderForm.HandleDayToggle` | src/components/ReminderModal.tsx:47-54 | a selected day is removed and another appended at the end; membership flips, other days are kept, no day appears twice |
| `ReminderModal.ReminderForm.HandleSubmit` | src/components/ReminderModal.tsx:56-72 | saves and closes exactly with a title and a day; the saved reminder is active and copies the form, whose days read back from their abbreviations, and the form resets; otherwise nothing changes |
| `ReminderModal.ReminderForm.Render` | src/components/ReminderModal.tsx:74-158 | nothing while closed; open, the fields are shown and a day button is selected exactly when its day is chosen |
| `ReminderModal.FillAndSubmit` | src/components/ReminderModal.tsx:56-72 | a title and one chosen day are saved as an active reminder for that day |
| `ReminderList.ParseInt` | src/components/ReminderList.tsx:45 | on the digit-led hour text of an "HH:MM" time, `parseInt` yields a number exactly when the text starts with a digit |
| `ReminderList.DisplayHour` | src/components/ReminderList.tsx:47 | the clock hour is in 1 to 12 and congruent to the hour modulo 12 |
| `ReminderList.FormatWellFormed` | src/components/ReminderList.tsx:43-49 | on "HH:MM" the clock hour is `hour % 12` or 12, the minutes pass through unchanged, and it is PM exactly from 12 on |
| `ReminderList.TwelveHourRoundTrip` | src/components/ReminderList.tsx:46-47 | the 24-hour hour is recovered from the clock hour and the meridiem |
| `ReminderList.MidnightIsTwelveAM` | src/components/ReminderList.tsx:47-48 | hour 00 reads "12:MM AM" |
| `ReminderList.NoonIsTwelvePM` | src/components/ReminderList.tsx:46-48 | hour 12 reads "12:MM PM" |
| `ReminderList.AfternoonIsPM` | src/components/ReminderList.tsx:46-48 | hours 13 to 23 read as the hour less twelve, PM |
| `ReminderList.Abbreviation` | src/components/ReminderList.tsx:31-40 | a day name gets a three-letter abbreviation without a comma; anything else the empty text |
| `ReminderList.AbbreviationInverse` | src/components/ReminderList.tsx:31-39 | the abbreviation determines the day |
| `ReminderList.JoinedAbbreviations` | src/components/ReminderList.tsx:40 | joined with ", ", the i-th abbreviation sits at position 5i |
| `ReminderList.DaysRoundTrip` | src/components/ReminderList.tsx:30-41 | the formatted days read back as the same days in the same order |
| `NotificationCenter.UnreadCount` | src/components/NotificationCenter.tsx:29 | the count is 0 exactly when all are read and the full length exactly when none is |
| `NotificationCenter.UnreadFilter` | src/components/NotificationCenter.tsx:29 | the unread filter is empty exactly when all are read, and keeps everything exactly when none is |
| `NotificationCenter.NotificationIcon` | src/components/NotificationCenter.tsx:31-42 | the bell is shown exactly for a type other than reminder, achievement and social |
| `NotificationCenter.AgeOf` | src/components/NotificationCenter.tsx:44-54 | "just now" exactly under a minute; otherwise the minutes, hours or days shown are the floor of the age in that unit, each below the next unit |
| `NotificationCenter.AgeMonotone` | src/components/NotificationCenter.tsx:44-54 | an older notification never shows a younger age |
| `NotificationCenter.AgeBoundaries` | src/components/NotificationCenter.tsx:51-54 | the buckets change at exactly one minute, one hour and one day, and a future time reads "just now" |
| `NotificationCenter.Render` | src/components/NotificationCenter.tsx:57-131 | nothing while closed; the badge and "Mark all read" appear exactly with unread items; one entry per notification, showing its title, its message and its age text, highlighted and with a mark button exactly when unread; the empty state exactly with none |
| `NotificationCenter.Items` | src/components/NotificationCenter.tsx:98-131 | one entry per notification, in order, each the entry of that notification at the current time |
| `NotificationCenter.HighlightedCount` | src/components/NotificationCenter.tsx:29-131 | the entries drawn highlighted are exactly as many as the unread notifications the badge counts |
| `NotificationCenter.BadgeCountsHighlighted` | src/components/NotificationCenter.tsx:66-70 | the open panel's badge shows the number of its own highlighted entries, and appears exactly when there is one |
| `Athletes.FollowList.constructor` | src/components/Athletes.tsx:5 | the page starts following "2" and "4" |
| `Athletes.FollowList.HandleFollow` | src/components/Athletes.tsx:82-88 | a followed id is removed and another appended at the end; membership flips, other ids are kept, no id appears twice |
| `Athletes.FollowList.Label` | src/components/Athletes.tsx:181 | "Following" exactly when followed, "Follow" exactly when not |
| `Athletes.FollowUnfollow` | src/components/Athletes.tsx:82-88 | following then unfollowing an athlete restores the list |
| `ActivityCard.Card.constructor` | src/components/ActivityCard.tsx:29-30 | not liked, with the activity's kudos |
| `ActivityCard.Card.HandleKudos` | src/components/ActivityCard.tsx:32-35 | the like flips, the count goes up on a like and down on an unlike, and it stays the activity's kudos plus one while liked |
| `ActivityCard.ActivityIconAgrees` | src/components/ActivityCard.tsx:37-50 | the icon switch agrees with the report's emoji table, and an unknown type gets the run icon |
| `ActivityCard.ActivityColor` | src/components/ActivityCard.tsx:52-65 | an unknown type gets the run colour, and every result is one of the four colours |
| `ActivityCard.ColorsDistinct` | src/components/ActivityCard.tsx:52-65 | the four types have four different colours |
| `ActivityCard.TypeLabels` | src/components/ActivityCard.tsx:85 | the badge reads "Run" and "Workout" for those types |
| `Text.Capitalize` | src/components/ActivityCard.tsx:85 | the first character is upper-cased and the rest kept |
| `Text.SplitJoin` | src/services/emailService.ts:151 | lines without the separator, joined, split back into themselves |
| `ActivityService.Insert` | src/services/activityService.ts:79 | inserting adds exactly that row |
| `ActivityService.InsertOrdered` | src/services/activityService.ts:79 | inserting into a date-ordered list keeps it ordered |
| `ActivityService.SortByDate` | src/services/activityService.ts:48 | the result is ordered by date and a permutation of the rows |
| `ActivityService.OwnedBy` | src/services/activityService.ts:47 | exactly the user's rows, each as often as in the table |
| `ActivityService.Limit` | src/services/activityService.ts:50-52 | the first `limit` rows when a non-zero limit is below the count, else all |
| `ActivityService.GetUserActivities` | src/services/activityService.ts:42-66 | only the user's rows from the table, newest first; none when the query fails |
| `ActivityService.UserActivitiesAreLatest` | src/services/activityService.ts:44-52 | the length is the limit or the user's row count; no row of the user left out is newer than one returned; without a limit all the user's rows |
| `ActivityService.GetWeeklyActivities` | src/services/activityService.ts:68-91 | exactly the user's rows dated from `weekStart` to `weekStart + 6`, oldest first; none when the query fails |
| `ActivityService.WeeklyActivitiesWithinWeek` | src/services/activityService.ts:70-79 | a week's rows have at most 7 workout days and at most 100 % consistency |
| `ActivityService.StatsAgree` | src/services/activityService.ts:110-118 | the `reduce` gives the row count and the same sums as the weekly fold, with a missing distance counted as 0 |
| `ActivityService.StatsSnoc` | src/services/activityService.ts:110-118 | one more row adds one activity and its duration, distance or 0, and calories |
| `ActivityService.GetUserStats` | src/services/activityService.ts:93-125 | the all-zero record when the query fails; otherwise the count of the user's rows and the sums of their durations, distances (a missing one as 0) and calories, the same totals as the weekly fold |
| `ActivityService.CreateActivity` | src/services/activityService.ts:14-40 | on failure nothing is written and null returned; otherwise one row is appended, copying the data, with distance defaulting to 0 and the date to today |
| `ActivityService.CreateThenStats` | src/services/activityService.ts:18-26 | after a create the user's stats grow by exactly that activity |
| `ActivityService.CreateThenWeekly` | src/services/activityService.ts:18-26 | an activity created in a week is among that week's activities |
| `UserService.GetAllUsersWithWeeklyReports` | src/services/userService.ts:96-113 | exactly the subscribed users, each as often as in the table; none when the query fails |
| `UserService.Single` | src/services/userService.ts:53 | `.single()` yields a row exactly when exactly one row matches |
| `UserService.GetUserByEmail` | src/services/userService.ts:47-65 | the user with that e-mail when it is the only one and the query succeeds, else null |
| `UserService.CreateUser` | src/services/userService.ts:19-45 | on failure nothing is written and null returned; otherwise one user is appended with the given fields |
| `UserService.BuildUpdateData` | src/services/userService.ts:69-75 | names and avatar are copied exactly when truthy, the two flags exactly when defined (also false); no other keys; an all-undefined input gives an empty record |
| `UserService.ApplyUpdate` | src/services/userService.ts:77-82 | an update never changes id, e-mail or full name, and an empty record changes nothing |
| `UserService.UpdateUser` | src/services/userService.ts:67-94 | null when the query fails or no row has the id; otherwise only that row changes, taking exactly the supplied fields |
| `Lists.Filter` | src/components/NotificationCenter.tsx:29 | the kept elements satisfy the predicate, each as often as in the input |
| `Lists.FilterAppend` | src/components/AIReminderSystem.tsx:92-97 | filtering distributes over concatenation |
| `Lists.Toggle` | src/components/Athletes.tsx:83-86 | the element's membership flips and every other's is kept |
| `Lists.ToggleKeepsNoDuplicates` | src/components/ReminderModal.tsx:50-52 | toggling never creates a duplicate |
| `Lists.ToggleKeepsOthers` | src/components/Athletes.tsx:85 | other elements keep their order |
| `Lists.ToggleTwiceAbsent` | src/components/Athletes.tsx:84-86 | toggling an absent element twice restores the list |
| `Lists.ToggleTwicePresent` | src/components/ReminderModal.tsx:50-52 | toggling a present element twice moves it to the end and keeps membership |
| `Encoding.MisreadDecodes` | src/components/AIReminderSystem.tsx:48 | reading text as UTF-8 bytes decoded as Windows-1252 is what `Misread` gives |
| `CoachEmoji.GarbledEmoji` | src/components/AIReminderSystem.tsx:47-55 | each message's closing characters as written are the misread tier emoji, not the emoji |
| `CoachEmoji.GarbledChartEmoji` | src/components/AIReminderSystem.tsx:112 | the summary's closing characters as written are the misread chart emoji |
| `EffectSyntax.AsWrittenEffectUnbalanced` | src/components/AIWeeklyEmailSystem.tsx:154-188 | as written, after line 179 only the `(` of `useEffect(` is open, and the `}` of line 188 does not close it: the delimiters do not balance |
| `EffectSyntax.CorrectedEffectBalanced` | src/components/AIWeeklyEmailSystem.tsx:154-188 | with the countdown closed after line 175 and the check opened as its own effect, the whole and each of the two effects balance |

## Left out

- `{activity.distance && …}` at `WeeklyReportModal.tsx:165` renders the number 0 as a stray "0" text when the distance is 0, which `createActivity` stores by default. `WeeklyReportModal.ShownDistance` models only that no distance line is shown; the stray text is part of the JSX layout left out below.
- JSX rendering: layout, Tailwind classes, icons, progress-bar widths, the status icons and status texts of both e-mail components (`AIWeeklyEmailSystem.tsx:190-218`, `WeeklyEmailScheduler.tsx:107-130`). This includes the info text at `WeeklyEmailScheduler.tsx:155`, which begins with "ðŸ“§", the same UTF-8-read-as-Windows-1252 garbling of the envelope emoji 📧 as the coach's emoji under Findings. The presentational pages (App, Navbar, AuthPage, Dashboard, Profile, Leaderboard, ActivityFeed) are not part of this model.
- The countdown text "in N days and H hours" of `AIWeeklyEmailSystem.tsx:154-172` is left out. It is display only, and its time source is the clock. Its input, `calculateNextSundayEvening`, is modelled.
- Timers and asynchrony: `setInterval`, `setTimeout`, the 2-second "analysis" delay and the random reminder delays are left out. The 5- and 10-second status resets are the explicit `Reset` methods. The hourly checks are the `CheckAndSend` methods, called with the time of each check.
- `AIWeeklyEmailSystem.tsx` does not parse as written. The `};` of line 179 closes the countdown effect's arrow body while the argument list of `useEffect(` (line 154) is still open, so the `}` of line 188 meets a `(` (`EffectSyntax.AsWrittenEffectUnbalanced`, listed under Findings). Lines 180-188 would also call an undefined `checkAndSendEmail` and declare `interval` twice. None of the component runs as written. The model follows the evidently intended code: `AIWeeklyEmail.AIWeeklyEmailSystem.CheckAndSend` is the hourly check that the plain scheduler's effect performs.
- External calls: `fetch` to EmailJS, Supabase queries, `localStorage` and `console`.
  - A send's result is an `Outcome` input: ok, not ok, or thrown.
  - A query failure is a boolean input.
  - The tables are sequences.
  - `localStorage` is a `Storage` map given to each component when it is created. Each component then holds its own copy. A write by one reaches the other only when the other is created on the resulting storage, which is how `WeeklyEmailScheduler.SeparateMarkers` states that the two keys do not interfere.
- Ids and timestamps built from `Date.now()` and `Math.random()` are parameters.
- Time zones, DST and the UTC shift of `toISOString().split('T')[0]` are left out. Instants are local, dates are day numbers, and the year is passed to the model.
- `toLocaleString` and `toLocaleDateString` are functions of a `Locale` parameter. The model does not fix their output.
- Floating point: all quotients are exact reals. JavaScript's binary rounding of `toFixed`, `Math.round` and sums of distances is not modelled.
- `sessionProgress` in `AIReminderSystem.tsx:45` and `:144` is computed and never used, so it is left out.
- `AIReminders.MotivationalMessage`: the contract states the tier (`MessageTierOf`) and the closing emoji. It does not restate the wording of each tier.
- `AIReminders.ToFixed`: it rounds the exact decimal half up, and only for non-negative values, which are the only ones the coach passes. JavaScript rounds the binary double.
- `ReminderList.ParseInt`: models `parseInt` on unsigned decimal text only. JavaScript's `parseInt` also skips leading whitespace, accepts a sign and reads a `0x` prefix as hexadecimal (`parseInt(" 7")` is 7, `parseInt("-3")` is -3), where the model gives NaN. The text it is given is always the hour of an "HH:MM" time from a time input or the built-in reminders.
- `Text.Capitalize`: `Text.ToUpperAscii` upper-cases the ASCII letters a to z only. JavaScript's `toUpperCase` is Unicode-wide (for example "ß" becomes "SS", two characters). The activity types it is applied to are lower-case ASCII words.
- `ActivityService.SortByDate`: the database leaves the order of rows with the same date unspecified. The model fixes one order. Its contracts claim only the date order and the permutation.
- `AIWeeklyEmail.ShouldSendWeeklyEmail` and `WeeklyEmailScheduler.ShouldSendWeeklyEmail`: their own contracts state the necessary Sunday and hour conditions. The "exactly when" form is stated by `MarkerBlocksItsWeek`, for a marker that is some week's key.
- `WeekNumbering.WeekNumber`: its own contract states only that the number is at least 1. The formula is stated by `WeekNumberIsCeiling` and `WeekNumberBounds`.
- `triggerWeeklyReports` (`weeklyEmailService.ts:187-190`) only logs and calls `sendWeeklyReportsToAllUsers`.
- The console report of `sendEmailToUser` is left out. Its result, true unless it throws, is the `sendThrew` fault.

## Findings

| source | as written | input that shows it | evidently intended | confidence | as-written member | corrected member |
|---|---|---|---|---|---|---|
| src/components/AIReminderSystem.tsx:47-55 | each motivational message ends with the UTF-8 bytes of its emoji read as Windows-1252, for example "ðŸƒâ€â™‚ï¸" | any goal, e.g. the built-in running goal at 74 % gets "… You've got this! ðŸŽ¯" | the emoji itself (🏃‍♂️, 💪, 🎯, 🏆) | high; not executed | `CoachEmoji.GarbledEmoji` | `AIReminders.MotivationalMessage` |
| src/components/AIReminderSystem.tsx:112 | the weekly summary reminder ends with "ðŸ“Š" | Sunday at 19:00 | the chart emoji 📊 | high; not executed | `CoachEmoji.GarbledChartEmoji` | `AIReminders.CheckAndSendReminders` |
| src/components/AIWeeklyEmailSystem.tsx:174-188 | the `};` of line 179 ends the countdown effect's body inside the argument list of `useEffect(`, and no header opens the hourly check, so the module does not parse | the module itself: the `}` of line 188 meets the `(` of line 154 | the countdown effect closed after its interval (line 175), and the hourly check as its own effect defining `checkAndSendEmail`, as in `WeeklyEmailScheduler.tsx:91-105`; the model's hourly check is `AIWeeklyEmail.AIWeeklyEmailSystem.CheckAndSend` | high; not executed | `EffectSyntax.AsWrittenEffectUnbalanced` | `EffectSyntax.CorrectedEffectBalanced` |
