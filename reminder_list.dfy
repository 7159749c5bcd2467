/**
 * src/components/ReminderList.tsx: how a saved reminder is shown — its
 * time on a 12-hour clock, its days as abbreviations and its activity
 * emoji (the table lives in Icons).
 */
module ReminderList {
  import opened Wrappers
  import opened Text

  // ---------------------------------------------------------------- formatTime

  /** The longest prefix of decimal digits. */
  function LeadingDigits(s: string): (d: string)
    ensures AllDigits(d) && |d| <= |s| && d == s[..|d|]
    ensures |d| < |s| ==> !IsDigit(s[|d|])
  {
    if s == [] || !IsDigit(s[0]) then "" else [s[0]] + LeadingDigits(s[1..])
  }

  /** `parseInt` of an unsigned decimal: `None` stands for NaN (no leading digit). */
  function ParseInt(s: string): (n: Option<nat>)
    ensures n.Some? <==> s != [] && IsDigit(s[0])
  {
    var d := LeadingDigits(s);
    if d == "" then None else Some(ParseNat(d))
  }

  /** `hour % 12 || 12`: 0 and NaN both become 12. */
  function DisplayHour(hour: Option<nat>): (h: nat)
    ensures 1 <= h <= 12
    ensures hour.Some? ==> h % 12 == hour.value % 12
  {
    if hour.Some? && hour.value % 12 != 0 then hour.value % 12 else 12
  }

  /** `hour >= 12 ? 'PM' : 'AM'`; NaN compares false. */
  function Meridiem(hour: Option<nat>): string {
    if hour.Some? && hour.value >= 12 then "PM" else "AM"
  }

  /**
   * `formatTime`: split at ':', read the hour with `parseInt` and write
   * "{h12}:{minutes} {AM|PM}". A missing minutes part is interpolated as
   * "undefined", as a template literal does.
   */
  function FormatTime(time: string): string {
    var parts := Split(time, ':');
    var hour := ParseInt(parts[0]);
    var minutes := if |parts| >= 2 then parts[1] else "undefined";
    NatToString(DisplayHour(hour)) + ":" + minutes + " " + Meridiem(hour)
  }

  /** A value of an `<input type="time">`: "HH:MM" with hour below 24 and minute below 60. */
  predicate WellFormedTime(time: string) {
    && |time| == 5 && time[2] == ':'
    && IsDigit(time[0]) && IsDigit(time[1]) && IsDigit(time[3]) && IsDigit(time[4])
    && ParseNat(time[..2]) < 24 && ParseNat(time[3..]) < 60
  }

  function HourOf(time: string): nat
    requires WellFormedTime(time)
  {
    ParseNat(time[..2])
  }

  /**
   * On a well-formed time the minutes pass through unchanged, the clock
   * reads 1 to 12, and it is PM exactly from 12:00 on.
   */
  lemma FormatWellFormed(time: string)
    requires WellFormedTime(time)
    ensures var h := HourOf(time);
      FormatTime(time) == NatToString(if h % 12 == 0 then 12 else h % 12) + ":" + time[3..] + " " +
                          (if h >= 12 then "PM" else "AM")
  {
    assert time == time[..2] + [':'] + time[3..];
    IndexOfAfter(time[..2], ':', time[3..]);
    assert Split(time[3..], ':') == [time[3..]] by {
      IndexOfNone(time[3..], ':');
    }
    assert LeadingDigits(time[..2]) == time[..2] by {
      assert LeadingDigits(time[..2][1..]) == time[..2][1..];
    }
  }

  lemma IndexOfNone(s: string, c: char)
    requires AllDigits(s)
    ensures IndexOf(s, c) == None || IsDigit(c)
  {
    if IndexOf(s, c).Some? {
      assert s[IndexOf(s, c).value] == c;
    }
  }

  /** Reads the 24-hour hour back from the 12-hour clock and the meridiem. */
  function To24Hour(display: nat, meridiem: string): nat {
    (display % 12) + (if meridiem == "PM" then 12 else 0)
  }

  /** The 12-hour rendering loses nothing: the hour can be recovered from it. */
  lemma TwelveHourRoundTrip(hour: nat)
    requires hour < 24
    ensures To24Hour(DisplayHour(Some(hour)), Meridiem(Some(hour))) == hour
  {
  }

  /** The hour 00 reads as 12 AM. */
  lemma MidnightIsTwelveAM(time: string)
    requires WellFormedTime(time) && HourOf(time) == 0
    ensures FormatTime(time) == "12" + ":" + time[3..] + " " + "AM"
  {
    FormatWellFormed(time);
    Twelve();
  }

  /** The hour 12 reads as 12 PM. */
  lemma NoonIsTwelvePM(time: string)
    requires WellFormedTime(time) && HourOf(time) == 12
    ensures FormatTime(time) == "12" + ":" + time[3..] + " " + "PM"
  {
    FormatWellFormed(time);
    Twelve();
  }

  /** An afternoon hour reads as the hour less twelve, PM. */
  lemma AfternoonIsPM(time: string)
    requires WellFormedTime(time) && 13 <= HourOf(time)
    ensures FormatTime(time) == NatToString(HourOf(time) - 12) + ":" + time[3..] + " " + "PM"
  {
    FormatWellFormed(time);
    assert HourOf(time) % 12 == HourOf(time) - 12;
  }

  lemma Twelve()
    ensures NatToString(12) == "12"
  {
    SmallNatToString(12);
  }

  // ---------------------------------------------------------------- formatDays

  const DayNames: seq<string> := ["monday", "tuesday", "wednesday", "thursday", "friday", "saturday", "sunday"]
  const DayAbbreviations: seq<string> := ["Mon", "Tue", "Wed", "Thu", "Fri", "Sat", "Sun"]

  /** `dayMap[day]`; an unknown name is `undefined`, which `join` writes as "". */
  function Abbreviation(day: string): (a: string)
    ensures day in DayNames ==> |a| == 3 && ',' !in a && a in DayAbbreviations
    ensures day !in DayNames ==> a == ""
  {
    if day == "monday" then "Mon"
    else if day == "tuesday" then "Tue"
    else if day == "wednesday" then "Wed"
    else if day == "thursday" then "Thu"
    else if day == "friday" then "Fri"
    else if day == "saturday" then "Sat"
    else if day == "sunday" then "Sun"
    else ""
  }

  /** The inverse table. */
  function DayName(abbreviation: string): string {
    if abbreviation == "Mon" then "monday"
    else if abbreviation == "Tue" then "tuesday"
    else if abbreviation == "Wed" then "wednesday"
    else if abbreviation == "Thu" then "thursday"
    else if abbreviation == "Fri" then "friday"
    else if abbreviation == "Sat" then "saturday"
    else if abbreviation == "Sun" then "sunday"
    else ""
  }

  lemma AbbreviationInverse(day: string)
    requires day in DayNames
    ensures DayName(Abbreviation(day)) == day
  {
  }

  function Abbreviations(days: seq<string>): (r: seq<string>)
    ensures |r| == |days| && forall i :: 0 <= i < |days| ==> r[i] == Abbreviation(days[i])
  {
    seq(|days|, i requires 0 <= i < |days| => Abbreviation(days[i]))
  }

  /** `formatDays`: the abbreviations in input order, joined with ", ". */
  function FormatDays(days: seq<string>): string {
    Join(Abbreviations(days), ", ")
  }

  /** Every abbreviation is three letters, so the i-th one starts at position 5i. */
  lemma {:induction false} JoinedAbbreviations(parts: seq<string>, i: nat)
    requires forall k :: 0 <= k < |parts| ==> |parts[k]| == 3
    requires i < |parts|
    ensures |Join(parts, ", ")| == 5 * |parts| - 2
    ensures Join(parts, ", ")[5 * i .. 5 * i + 3] == parts[i]
    decreases |parts|
  {
    if |parts| > 1 {
      var rest := Join(parts[1..], ", ");
      JoinedAbbreviations(parts[1..], if i == 0 then 0 else i - 1);
      assert Join(parts, ", ") == parts[0] + ", " + rest;
      if i > 0 {
        assert Join(parts, ", ")[5 * i .. 5 * i + 3] == rest[5 * (i - 1) .. 5 * (i - 1) + 3];
      }
    }
  }

  /** Reads the day names back from a `formatDays` text of valid names. */
  function ParseDays(text: string): seq<string> {
    var n := (|text| + 2) / 5;
    seq(n, i requires 0 <= i < n => if 5 * i + 3 <= |text| then DayName(text[5 * i .. 5 * i + 3]) else "")
  }

  /** The abbreviated list keeps every day and its position. */
  lemma DaysRoundTrip(days: seq<string>)
    requires |days| >= 1
    requires forall d :: d in days ==> d in DayNames
    ensures ParseDays(FormatDays(days)) == days
  {
    var text := FormatDays(days);
    DayAt(days, 0);
    forall i | 0 <= i < |days|
      ensures DayName(text[5 * i .. 5 * i + 3]) == days[i]
    {
      DayAt(days, i);
    }
    ParseDaysBack(text, days);
  }

  /** A text whose five-character slots name the days parses back to them. */
  lemma ParseDaysBack(text: string, days: seq<string>)
    requires |days| >= 1 && |text| == 5 * |days| - 2
    requires forall i :: 0 <= i < |days| ==> DayName(text[5 * i .. 5 * i + 3]) == days[i]
    ensures ParseDays(text) == days
  {
    assert (|text| + 2) / 5 == |days|;
  }

  /** The i-th abbreviation of the text reads back as the i-th day. */
  lemma DayAt(days: seq<string>, i: nat)
    requires forall d :: d in days ==> d in DayNames
    requires i < |days|
    ensures |FormatDays(days)| == 5 * |days| - 2
    ensures DayName(FormatDays(days)[5 * i .. 5 * i + 3]) == days[i]
  {
    var parts := Abbreviations(days);
    JoinedAbbreviations(parts, i);
    AbbreviationInverse(days[i]);
  }
}
