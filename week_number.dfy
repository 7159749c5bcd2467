/**
 * `getWeekNumber` and the week key `"{year}-W{weekNumber}"`, written
 * identically in src/components/AIWeeklyEmailSystem.tsx and
 * src/components/WeeklyEmailScheduler.tsx. The number is
 * `ceil((pastDaysOfYear + jan1Weekday + 1) / 7)` where `pastDaysOfYear`
 * keeps the fraction of the current day, so it is not ISO 8601 week
 * numbering: it steps up just after 00:00 every Saturday.
 */
module WeekNumbering {
  import opened Wrappers
  import opened Calendar
  import opened Text

  /** The week number of `t`: the integer ceiling of (ms + DAY * (jan1Weekday + 1)) / WEEK. */
  function WeekNumber(t: Instant): (n: nat)
    ensures n >= 1
  {
    (t.msIntoYear + MsPerDay * (Jan1Weekday(t.year) + 1) + MsPerWeek - 1) / MsPerWeek
  }

  /** The week number as an integer ceiling, the form the proofs below use. */
  lemma WeekNumberBounds(t: Instant)
    ensures var x := t.msIntoYear + MsPerDay * (Jan1Weekday(t.year) + 1);
      (WeekNumber(t) - 1) * MsPerWeek < x <= WeekNumber(t) * MsPerWeek
  {
  }

  /**
   * The week number is the ceiling of the source's real-valued expression
   * `(pastDaysOfYear + jan1Weekday + 1) / 7`, where `pastDaysOfYear` keeps
   * the fraction of the current day.
   */
  lemma WeekNumberIsCeiling(t: Instant)
    ensures var x := ((t.msIntoYear as real) / (MsPerDay as real) + (Jan1Weekday(t.year) + 1) as real) / 7.0;
      (WeekNumber(t) - 1) as real < x <= WeekNumber(t) as real
  {
    var n := WeekNumber(t);
    var x := t.msIntoYear + MsPerDay * (Jan1Weekday(t.year) + 1);
    WeekNumberBounds(t);
    assert (x as real) / (MsPerWeek as real)
        == ((t.msIntoYear as real) / (MsPerDay as real) + (Jan1Weekday(t.year) + 1) as real) / 7.0;
    assert ((n - 1) * MsPerWeek) as real < x as real <= (n * MsPerWeek) as real;
  }

  /** Within one year the week number never decreases. */
  lemma WeekNumberMonotone(a: Instant, b: Instant)
    requires a.year == b.year && a.msIntoYear <= b.msIntoYear
    ensures WeekNumber(a) <= WeekNumber(b)
  {
    WeekNumberBounds(a);
    WeekNumberBounds(b);
  }

  /**
   * One millisecond later the week number is the same, except at exactly
   * 00:00:00.000 on a Saturday, after which it is one more.
   */
  lemma WeekNumberStep(t: Instant)
    ensures var next := Instant(t.year, t.msIntoYear + 1);
      WeekNumber(next) == WeekNumber(t) + (if t.msIntoYear % MsPerDay == 0 && Weekday(t) == 6 then 1 else 0)
  {
    var w := Jan1Weekday(t.year);
    var d, r := t.msIntoYear / MsPerDay, t.msIntoYear % MsPerDay;
    var m := d + w + 1;
    var k, s := m / 7, m % 7;
    var x := t.msIntoYear + MsPerDay * (w + 1);
    assert x == MsPerWeek * k + (MsPerDay * s + r);
    assert 0 <= MsPerDay * s + r < MsPerWeek;
    WeekNumberBounds(t);
    WeekNumberBounds(Instant(t.year, t.msIntoYear + 1));
    WeekdayInYear(t);
    Calendar.Mod7Shift(w + d, 1);
    if MsPerDay * s + r == 0 {
      assert WeekNumber(t) == k;
    } else {
      assert WeekNumber(t) == k + 1;
    }
  }

  /** On a Sunday the week number is fixed for the whole day. */
  lemma SundayWeekNumber(t: Instant)
    requires Weekday(t) == 0
    ensures WeekNumber(t) == (DayOfYear(t) + Jan1Weekday(t.year)) / 7 + 1
  {
    var w := Jan1Weekday(t.year);
    var d, r := DayOfYear(t), t.msIntoYear % MsPerDay;
    WeekdayInYear(t);
    var k := (d + w) / 7;
    assert d + w == 7 * k;
    var x := t.msIntoYear + MsPerDay * (w + 1);
    assert x == MsPerWeek * k + MsPerDay + r;
    WeekNumberBounds(t);
  }

  /**
   * When 1 January is a Saturday, its first millisecond is week 1 and the
   * rest of the day is already week 2.
   */
  lemma Jan1SaturdayIsWeekTwo(y: nat, ms: nat)
    requires Jan1Weekday(y) == 6 && 0 < ms < MsPerDay
    ensures WeekNumber(Instant(y, 0)) == 1
    ensures WeekNumber(Instant(y, ms)) == 2
  {
    WeekNumberBounds(Instant(y, 0));
    WeekNumberBounds(Instant(y, ms));
  }

  /** 1 January 2022 was such a Saturday. */
  lemma Jan1Of2022IsSaturday()
    ensures Jan1Weekday(2022) == 6
  {
  }

  /** A calendar week as the source identifies it. */
  datatype WeekId = WeekId(year: nat, week: nat)

  function WeekOf(t: Instant): WeekId {
    WeekId(t.year, WeekNumber(t))
  }

  /** `${year}-W${weekNumber}`. */
  function KeyString(w: WeekId): string {
    NatToString(w.year) + "-W" + NatToString(w.week)
  }

  /** The week-key marker of instant `t`. */
  function WeekKey(t: Instant): string {
    KeyString(WeekOf(t))
  }

  /** Distinct weeks have distinct keys, so comparing keys compares weeks. */
  lemma {:induction false} KeyStringInjective(a: WeekId, b: WeekId)
    requires KeyString(a) == KeyString(b)
    ensures a == b
  {
    var ya, yb := NatToString(a.year), NatToString(b.year);
    var s := KeyString(a);
    assert '-' !in ya && '-' !in yb;
    assert s == ya + ['-'] + ("W" + NatToString(a.week));
    assert s == yb + ['-'] + ("W" + NatToString(b.week));
    IndexOfAfter(ya, '-', "W" + NatToString(a.week));
    IndexOfAfter(yb, '-', "W" + NatToString(b.week));
    assert |ya| == |yb|;
    assert ya == s[..|ya|] == yb;
    NatToStringInjective(a.year, b.year);
    assert NatToString(a.week) == s[|ya| + 2..] == NatToString(b.week);
    NatToStringInjective(a.week, b.week);
  }

  predicate WeekLe(a: WeekId, b: WeekId) {
    a.year < b.year || (a.year == b.year && a.week <= b.week)
  }

  predicate WeekLt(a: WeekId, b: WeekId) {
    WeekLe(a, b) && a != b
  }

  /** Later instants never fall in earlier weeks. */
  lemma WeekOfMonotone(a: Instant, b: Instant)
    requires AtOrBefore(a, b)
    ensures WeekLe(WeekOf(a), WeekOf(b))
  {
    if a.year == b.year {
      WeekNumberMonotone(a, b);
    }
  }

  /** Weeks listed in strictly increasing order, hence each at most once. */
  ghost predicate Increasing(ws: seq<WeekId>) {
    forall i, j :: 0 <= i < j < |ws| ==> WeekLt(ws[i], ws[j])
  }

  /** A week later than the last keeps the list increasing. */
  lemma {:induction false} AppendIncreasing(ws: seq<WeekId>, w: WeekId)
    requires Increasing(ws)
    requires ws != [] ==> WeekLt(ws[|ws| - 1], w)
    ensures Increasing(ws + [w])
  {
    var vs := ws + [w];
    forall i, j | 0 <= i < j < |vs|
      ensures WeekLt(vs[i], vs[j])
    {
      if j == |ws| && i < |ws| - 1 {
        assert WeekLt(ws[i], ws[|ws| - 1]);
      }
    }
  }

  /**
   * The delivery record both e-mail components keep: the weeks delivered
   * so far increase, the marker holds the key of the last of them, none
   * lies after the current week `now`, and while a send is `failing` its
   * week `failedWeek` is no later than `now` and after every delivery.
   */
  ghost predicate Ledger(delivered: seq<WeekId>, marker: Option<string>, now: WeekId, failing: bool, failedWeek: WeekId) {
    && Increasing(delivered)
    && (delivered != [] ==>
          marker == Some(KeyString(delivered[|delivered| - 1])) && WeekLe(delivered[|delivered| - 1], now))
    && (failing ==> WeekLe(failedWeek, now) && (delivered != [] ==> WeekLt(delivered[|delivered| - 1], failedWeek)))
  }

  /** Time passing keeps the record. */
  lemma LedgerAdvance(d: seq<WeekId>, m: Option<string>, c: WeekId, f: bool, fw: WeekId, w: WeekId)
    requires Ledger(d, m, c, f, fw) && WeekLe(c, w)
    ensures Ledger(d, m, w, f, fw)
  {
  }

  /** A marker other than the key of week `w` means `w` was not the last delivery. */
  lemma LedgerMarker(d: seq<WeekId>, m: Option<string>, c: WeekId, f: bool, fw: WeekId, w: WeekId)
    requires Ledger(d, m, c, f, fw) && m != Some(KeyString(w))
    ensures d != [] ==> d[|d| - 1] != w
  {
  }

  /** While a send is failing, no later week has been delivered. */
  lemma LedgerFailing(d: seq<WeekId>, m: Option<string>, c: WeekId, fw: WeekId, w: WeekId)
    requires Ledger(d, m, c, true, fw) && WeekLe(c, w)
    ensures d != [] ==> d[|d| - 1] != w
  {
  }

  /**
   * A send in week `w`, not yet delivered and no earlier than the current
   * week, keeps the record whichever way it ends: delivered (the week is
   * appended and becomes the marker) or failed (the week becomes the
   * failing one).
   */
  lemma LedgerSend(d: seq<WeekId>, m: Option<string>, c: WeekId, f: bool, fw: WeekId, w: WeekId)
    requires Ledger(d, m, c, f, fw) && WeekLe(c, w)
    requires d != [] ==> d[|d| - 1] != w
    ensures Ledger(d + [w], Some(KeyString(w)), w, false, fw)
    ensures Ledger(d, m, w, true, w)
  {
    AppendIncreasing(d, w);
    var e := d + [w];
    assert e[|e| - 1] == w;
  }
}
