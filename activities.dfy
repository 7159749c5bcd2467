/**
 * Activity records. The weekly components receive activities as
 * `{date, type, duration, distance?, calories}`; the `user_activities`
 * table stores rows with an owner, a title and an `activity_date`.
 */
module Activities {
  import opened Wrappers

  /**
   * A calendar date as a day number (1 January 1970 is day 0). The source
   * keeps dates as 'YYYY-MM-DD' strings, which compare in the same order.
   */
  type Date = int

  /** One workout: duration in minutes, optional distance in km. */
  datatype Activity = Activity(date: Date, kind: string, duration: nat, distance: Option<real>, calories: nat)

  /** A row of the `user_activities` table (`created_at` is not modelled). */
  datatype UserActivity = UserActivity(
    id: string,
    userId: string,
    kind: string,
    title: string,
    duration: nat,
    distance: Option<real>,
    calories: nat,
    activityDate: Date)

  /** The fields of a row that the weekly report reads. */
  function AsActivity(row: UserActivity): (a: Activity)
    ensures a.date == row.activityDate && a.kind == row.kind
    ensures a.duration == row.duration && a.distance == row.distance && a.calories == row.calories
  {
    Activity(row.activityDate, row.kind, row.duration, row.distance, row.calories)
  }

  function AsActivities(rows: seq<UserActivity>): (acts: seq<Activity>)
    ensures |acts| == |rows|
    ensures forall i :: 0 <= i < |rows| ==> acts[i] == AsActivity(rows[i])
  {
    seq(|rows|, i requires 0 <= i < |rows| => AsActivity(rows[i]))
  }
}
