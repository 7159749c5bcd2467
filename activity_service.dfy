/**
 * src/services/activityService.ts over a model of the `user_activities`
 * table: the table is a sequence of rows in insertion order, a query that
 * fails (an error result or an exception) is a `failed` flag, and each
 * operation returns what the service returns in either case.
 */
module ActivityService {
  import opened Wrappers
  import opened Lists
  import opened Activities
  import opened WeeklySummary

  /** `a` may stand before `b` in the requested `order('activity_date')`. */
  predicate InOrder(a: UserActivity, b: UserActivity, descending: bool) {
    if descending then a.activityDate >= b.activityDate else a.activityDate <= b.activityDate
  }

  ghost predicate Ordered(rows: seq<UserActivity>, descending: bool) {
    forall i, j :: 0 <= i < j < |rows| ==> InOrder(rows[i], rows[j], descending)
  }

  /** Insert `x` before the first row it may precede. */
  function Insert(x: UserActivity, rows: seq<UserActivity>, descending: bool): (r: seq<UserActivity>)
    ensures multiset(r) == multiset(rows) + multiset{x}
    ensures |r| == |rows| + 1 && (r[0] == x || (rows != [] && r[0] == rows[0]))
  {
    if rows == [] then [x]
    else if InOrder(x, rows[0], descending) then [x] + rows
    else
      assert rows == [rows[0]] + rows[1..];
      [rows[0]] + Insert(x, rows[1..], descending)
  }

  /** Inserting into an ordered list keeps it ordered. */
  lemma {:induction false} InsertOrdered(x: UserActivity, rows: seq<UserActivity>, descending: bool)
    requires Ordered(rows, descending)
    ensures Ordered(Insert(x, rows, descending), descending)
    decreases |rows|
  {
    if rows == [] {
    } else if InOrder(x, rows[0], descending) {
      HeadFirst(x, rows, descending);
    } else {
      var tail := rows[1..];
      assert rows == [rows[0]] + tail;
      assert Ordered(tail, descending) by {
        forall i, j | 0 <= i < j < |tail| ensures InOrder(tail[i], tail[j], descending) {
          assert tail[i] == rows[i + 1] && tail[j] == rows[j + 1];
        }
      }
      InsertOrdered(x, tail, descending);
      HeadPrecedes(rows[0], x, tail, Insert(x, tail, descending), descending);
    }
  }

  /** A row that may precede every row of an ordered list may be put in front of it. */
  lemma ConsOrdered(head: UserActivity, tail: seq<UserActivity>, descending: bool)
    requires Ordered(tail, descending)
    requires forall k :: 0 <= k < |tail| ==> InOrder(head, tail[k], descending)
    ensures Ordered([head] + tail, descending)
  {
    var r := [head] + tail;
    forall i, j | 0 <= i < j < |r| ensures InOrder(r[i], r[j], descending) {
      assert r[j] == tail[j - 1];
      if i > 0 {
        assert r[i] == tail[i - 1];
      }
    }
  }

  /** A row that may precede the first row of an ordered list may precede all of it. */
  lemma HeadFirst(x: UserActivity, rows: seq<UserActivity>, descending: bool)
    requires Ordered(rows, descending) && rows != [] && InOrder(x, rows[0], descending)
    ensures Ordered([x] + rows, descending)
  {
    forall k | 0 <= k < |rows| ensures InOrder(x, rows[k], descending) {
      if k > 0 {
        assert InOrder(rows[0], rows[k], descending);
      }
    }
    ConsOrdered(x, rows, descending);
  }

  /** The head of an ordered list stays in front when `x`, which it may precede, joins the tail. */
  lemma HeadPrecedes(head: UserActivity, x: UserActivity, tail: seq<UserActivity>, rest: seq<UserActivity>, descending: bool)
    requires Ordered([head] + tail, descending) && InOrder(head, x, descending)
    requires multiset(rest) == multiset(tail) + multiset{x}
    requires Ordered(rest, descending)
    ensures Ordered([head] + rest, descending)
  {
    forall k | 0 <= k < |rest| ensures InOrder(head, rest[k], descending) {
      assert rest[k] in multiset(rest);
      if rest[k] != x {
        assert rest[k] in multiset(tail);
        var j :| 0 <= j < |tail| && tail[j] == rest[k];
        var whole := [head] + tail;
        assert whole[0] == head && whole[j + 1] == tail[j];
        assert InOrder(whole[0], whole[j + 1], descending);
      }
    }
    ConsOrdered(head, rest, descending);
  }

  /**
   * The rows in the order of `activity_date` the query asks for. The
   * database leaves the order of equal dates open; this sort keeps them
   * in table order.
   */
  function SortByDate(rows: seq<UserActivity>, descending: bool): (r: seq<UserActivity>)
    ensures Ordered(r, descending)
    ensures multiset(r) == multiset(rows)
    ensures |r| == |rows|
  {
    if rows == [] then []
    else
      assert rows == [rows[0]] + rows[1..];
      InsertOrdered(rows[0], SortByDate(rows[1..], descending), descending);
      Insert(rows[0], SortByDate(rows[1..], descending), descending)
  }

  /** `.eq('user_id', userId)`. */
  function OwnedBy(store: seq<UserActivity>, userId: string): (r: seq<UserActivity>)
    ensures forall i :: 0 <= i < |r| ==> r[i].userId == userId
    ensures forall x :: multiset(r)[x] == if x.userId == userId then multiset(store)[x] else 0
  {
    Filter(store, Owner(userId))
  }

  function Owner(userId: string): UserActivity -> bool {
    (x: UserActivity) => x.userId == userId
  }

  /** `if (limit) query = query.limit(limit)`: an absent or zero limit keeps every row. */
  function Limit(rows: seq<UserActivity>, limit: Option<nat>): (r: seq<UserActivity>)
    ensures |r| == (if limit.Some? && limit.value != 0 && limit.value < |rows| then limit.value else |rows|)
    ensures r == rows[..|r|]
  {
    match limit
    case Some(n) => if n != 0 && n < |rows| then rows[..n] else rows
    case None => rows
  }

  /**
   * `getUserActivities`: this user's rows, most recent first, cut to the
   * limit when one is given; `[]` when the query fails.
   */
  function GetUserActivities(store: seq<UserActivity>, userId: string, limit: Option<nat>, failed: bool): (r: seq<UserActivity>)
    ensures failed ==> r == []
    ensures forall i :: 0 <= i < |r| ==> r[i].userId == userId && r[i] in store
    ensures Ordered(r, true)
  {
    if failed then []
    else
      var owned := OwnedBy(store, userId);
      var sorted := SortByDate(owned, true);
      var r := Limit(sorted, limit);
      assert forall i :: 0 <= i < |r| ==> r[i] == sorted[i] && sorted[i] in multiset(owned);
      r
  }

  /** How many rows `getUserActivities` returns, and that they are the most recent ones. */
  lemma UserActivitiesAreLatest(store: seq<UserActivity>, userId: string, limit: Option<nat>, x: UserActivity, i: nat)
    requires x in store && x.userId == userId
    ensures var r := GetUserActivities(store, userId, limit, false);
      var n := |OwnedBy(store, userId)|;
      && |r| == (if limit.Some? && limit.value != 0 && limit.value < n then limit.value else n)
      && (i < |r| && x !in r ==> x.activityDate <= r[i].activityDate)
      && (limit.None? || limit == Some(0) ==> multiset(r) == multiset(OwnedBy(store, userId)))
  {
    var sorted := SortByDate(OwnedBy(store, userId), true);
    var r := GetUserActivities(store, userId, limit, false);
    assert r == sorted[..|r|];
    if i < |r| && x !in r {
      InOwned(store, userId, x);
      InSorted(OwnedBy(store, userId), true, x);
      BehindPrefix(sorted, |r|, x, i);
    }
    if limit.None? || limit == Some(0) {
      assert r == sorted;
    }
  }

  /** In a list ordered most recent first, a row outside a prefix is no more recent than the rows in it. */
  lemma BehindPrefix(sorted: seq<UserActivity>, n: nat, x: UserActivity, i: nat)
    requires Ordered(sorted, true) && i < n <= |sorted|
    requires x in sorted && x !in sorted[..n]
    ensures x.activityDate <= sorted[i].activityDate
  {
    var j :| 0 <= j < |sorted| && sorted[j] == x;
    assert forall k :: 0 <= k < n ==> sorted[..n][k] == sorted[k];
    assert j >= n;
    assert InOrder(sorted[i], sorted[j], true);
  }

  lemma InOwned(store: seq<UserActivity>, userId: string, x: UserActivity)
    requires x in store && x.userId == userId
    ensures x in OwnedBy(store, userId)
  {
    assert multiset(OwnedBy(store, userId))[x] == multiset(store)[x];
  }

  lemma InSorted(rows: seq<UserActivity>, descending: bool, x: UserActivity)
    requires x in rows
    ensures x in SortByDate(rows, descending)
  {
    assert x in multiset(rows);
  }

  /** The rows of one user dated `weekStart` to `weekStart + 6` inclusive. */
  predicate InWeek(x: UserActivity, userId: string, weekStart: Date) {
    x.userId == userId && weekStart <= x.activityDate <= weekStart + 6
  }

  /**
   * `getWeeklyActivities`: this user's rows of the week starting at
   * `weekStart`, oldest first; `[]` when the query fails.
   */
  function GetWeeklyActivities(store: seq<UserActivity>, userId: string, weekStart: Date, failed: bool): (r: seq<UserActivity>)
    ensures failed ==> r == []
    ensures forall i :: 0 <= i < |r| ==> InWeek(r[i], userId, weekStart)
    ensures !failed ==> forall x :: multiset(r)[x] == if InWeek(x, userId, weekStart) then multiset(store)[x] else 0
    ensures Ordered(r, false)
  {
    if failed then []
    else
      var week := Filter(store, (x: UserActivity) => InWeek(x, userId, weekStart));
      var r := SortByDate(week, false);
      assert forall i :: 0 <= i < |r| ==> r[i] in multiset(week);
      r
  }

  /** A week's rows span at most seven dates, so their consistency is at most 100%. */
  lemma WeeklyActivitiesWithinWeek(store: seq<UserActivity>, userId: string, weekStart: Date, failed: bool)
    ensures var acts := AsActivities(GetWeeklyActivities(store, userId, weekStart, failed));
      WorkoutDays(acts) <= 7 && Summarize(acts).consistencyPercentage <= 100
  {
    var acts := AsActivities(GetWeeklyActivities(store, userId, weekStart, failed));
    WithinWeek(acts, weekStart);
  }

  datatype Stats = Stats(totalActivities: nat, totalDuration: nat, totalDistance: real, totalCalories: nat)

  const NoStats := Stats(0, 0, 0.0, 0)

  /** The `reduce` of `getUserStats`, one row at a time from the left. */
  function StatsOf(rows: seq<UserActivity>): Stats {
    if rows == [] then NoStats
    else
      var acc := StatsOf(rows[..|rows| - 1]);
      var x := rows[|rows| - 1];
      Stats(acc.totalActivities + 1, acc.totalDuration + x.duration,
            acc.totalDistance + DistanceOrZero(AsActivity(x)), acc.totalCalories + x.calories)
  }

  /** The fold agrees with the weekly totals of the same rows. */
  lemma {:induction false} StatsAgree(rows: seq<UserActivity>)
    ensures StatsOf(rows) == Stats(|rows|, TotalDuration(AsActivities(rows)),
                                   TotalDistance(AsActivities(rows)), TotalCalories(AsActivities(rows)))
    decreases |rows|
  {
    if rows != [] {
      var init := rows[..|rows| - 1];
      StatsAgree(init);
      assert AsActivities(rows)[..|rows| - 1] == AsActivities(init);
    }
  }

  /**
   * `getUserStats`: the user's row count and the sums of their durations,
   * distances (a missing one as 0) and calories; all zero when the query
   * fails.
   */
  function GetUserStats(store: seq<UserActivity>, userId: string, failed: bool): (s: Stats)
    ensures failed ==> s == NoStats
    ensures !failed ==> s.totalActivities == |OwnedBy(store, userId)|
    ensures !failed ==> var own := AsActivities(OwnedBy(store, userId));
      && s.totalDuration == TotalDuration(own)
      && s.totalDistance == TotalDistance(own)
      && s.totalCalories == TotalCalories(own)
  {
    if failed then NoStats
    else
      StatsAgree(OwnedBy(store, userId));
      StatsOf(OwnedBy(store, userId))
  }

  /** The input of `createActivity`; an absent field is `None`. */
  datatype CreateActivityData = CreateActivityData(
    userId: string,
    kind: string,
    title: string,
    duration: nat,
    distance: Option<real>,
    calories: nat,
    activityDate: Option<Date>)

  /** The table after an insert, and what `createActivity` returns. */
  datatype Created = Created(store: seq<UserActivity>, row: Option<UserActivity>)

  /**
   * `createActivity`: insert a row, with distance `distance || 0` and date
   * `activityDate || today`; on failure nothing is inserted and the result
   * is null. The row id is assigned by the database and passed in.
   */
  function CreateActivity(store: seq<UserActivity>, data: CreateActivityData, id: string, today: Date, failed: bool): (c: Created)
    ensures failed ==> c == Created(store, None)
    ensures !failed ==> c.row.Some? && c.store == store + [c.row.value]
    ensures !failed ==> var x := c.row.value;
      && x.id == id && x.userId == data.userId && x.kind == data.kind && x.title == data.title
      && x.duration == data.duration && x.calories == data.calories
      && x.distance == Some(data.distance.GetOr(0.0))
      && x.activityDate == data.activityDate.GetOr(today)
  {
    if failed then Created(store, None)
    else
      var x := UserActivity(id, data.userId, data.kind, data.title, data.duration,
                            Some(data.distance.GetOr(0.0)), data.calories, data.activityDate.GetOr(today));
      Created(store + [x], Some(x))
  }

  /** A created activity adds exactly its own values to its owner's statistics. */
  lemma CreateThenStats(store: seq<UserActivity>, data: CreateActivityData, id: string, today: Date)
    ensures var c := CreateActivity(store, data, id, today, false);
      var before := GetUserStats(store, data.userId, false);
      GetUserStats(c.store, data.userId, false) ==
        Stats(before.totalActivities + 1, before.totalDuration + data.duration,
              before.totalDistance + data.distance.GetOr(0.0), before.totalCalories + data.calories)
  {
    var c := CreateActivity(store, data, id, today, false);
    var x := c.row.value;
    var before := OwnedBy(store, data.userId);
    OwnedByAppend(store, x);
    StatsSnoc(before, x);
    var b := GetUserStats(store, data.userId, false);
    var a := GetUserStats(c.store, data.userId, false);
    assert b == StatsOf(before);
    assert a == StatsOf(before + [x]);
    assert DistanceOrZero(AsActivity(x)) == data.distance.GetOr(0.0);
    assert a.totalActivities == b.totalActivities + 1 && a.totalDuration == b.totalDuration + data.duration;
    assert a.totalDistance == b.totalDistance + data.distance.GetOr(0.0);
    assert a.totalCalories == b.totalCalories + data.calories;
  }

  lemma OwnedByAppend(store: seq<UserActivity>, x: UserActivity)
    ensures OwnedBy(store + [x], x.userId) == OwnedBy(store, x.userId) + [x]
  {
    var p := Owner(x.userId);
    FilterAppend(store, [x], p);
    assert Filter([x], p) == [x];
  }

  lemma StatsSnoc(rows: seq<UserActivity>, x: UserActivity)
    ensures var acc := StatsOf(rows);
      StatsOf(rows + [x]) == Stats(acc.totalActivities + 1, acc.totalDuration + x.duration,
                                   acc.totalDistance + DistanceOrZero(AsActivity(x)), acc.totalCalories + x.calories)
  {
    assert (rows + [x])[..|rows|] == rows;
  }

  /** A created activity appears in its owner's week. */
  lemma CreateThenWeekly(store: seq<UserActivity>, data: CreateActivityData, id: string, today: Date, weekStart: Date)
    requires var d := data.activityDate.GetOr(today); weekStart <= d <= weekStart + 6
    ensures var c := CreateActivity(store, data, id, today, false);
      c.row.value in GetWeeklyActivities(c.store, data.userId, weekStart, false)
  {
    var c := CreateActivity(store, data, id, today, false);
    var x := c.row.value;
    assert multiset(c.store)[x] > 0;
    assert multiset(GetWeeklyActivities(c.store, data.userId, weekStart, false))[x] > 0;
  }
}
