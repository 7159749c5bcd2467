/**
 * src/components/NotificationCenter.tsx: the notification panel as the
 * values it renders — the unread badge, the "Mark all read" button, and
 * per notification its icon, relative time and mark-as-read button.
 * Marking itself is done by callbacks of the parent and is not part of
 * this component.
 */
module NotificationCenter {
  import opened Wrappers
  import opened Text
  import opened Lists
  import opened Calendar

  datatype Notification = Notification(
    id: string,
    title: string,
    message: string,
    kind: string,
    timestamp: int,   // milliseconds since the epoch
    isRead: bool,
    activityType: Option<string>)

  function Unread(): Notification -> bool {
    (n: Notification) => !n.isRead
  }

  /** `notifications.filter(n => !n.isRead).length`. */
  function UnreadCount(ns: seq<Notification>): (c: nat)
    ensures c <= |ns|
    ensures c == 0 <==> forall i :: 0 <= i < |ns| ==> ns[i].isRead
    ensures c == |ns| <==> forall i :: 0 <= i < |ns| ==> !ns[i].isRead
  {
    UnreadFilter(ns);
    |Filter(ns, Unread())|
  }

  lemma UnreadFilter(ns: seq<Notification>)
    ensures |Filter(ns, Unread())| == 0 <==> forall i :: 0 <= i < |ns| ==> ns[i].isRead
    ensures |Filter(ns, Unread())| == |ns| <==> forall i :: 0 <= i < |ns| ==> !ns[i].isRead
  {
    var unread := Filter(ns, Unread());
    if |unread| == 0 {
      forall i | 0 <= i < |ns| ensures ns[i].isRead {
        assert multiset(ns)[ns[i]] > 0;
      }
    }
    if |unread| == |ns| {
      FilterCountsAll(ns, Unread());
    }
    if forall i :: 0 <= i < |ns| ==> !ns[i].isRead {
      FilterAll(ns, Unread());
    }
    if exists i :: 0 <= i < |ns| && !ns[i].isRead {
      var i :| 0 <= i < |ns| && !ns[i].isRead;
      assert multiset(unread)[ns[i]] == multiset(ns)[ns[i]] > 0;
    }
  }

  /** The icon of `getNotificationIcon`: a clock, a trophy, two people, or a bell by default. */
  datatype Icon = ClockIcon | TrophyEmoji | PeopleEmoji | BellIcon

  function NotificationIcon(kind: string): (i: Icon)
    ensures i == BellIcon <==> kind !in ["reminder", "achievement", "social"]
  {
    if kind == "reminder" then ClockIcon
    else if kind == "achievement" then TrophyEmoji
    else if kind == "social" then PeopleEmoji
    else BellIcon
  }

  function IconText(i: Icon): Option<string> {
    match i
    case TrophyEmoji => Some("\U{1F3C6}")
    case PeopleEmoji => Some("\U{1F465}")
    case _ => None
  }

  /** The bucket `formatTime` picks for an age of `diff` milliseconds. */
  datatype Age = JustNow | MinutesAgo(minutes: nat) | HoursAgo(hours: nat) | DaysAgo(days: nat)

  /**
   * `formatTime`: whole minutes, hours and days by `Math.floor` (which is
   * Dafny's division for a positive divisor, also for a timestamp in the
   * future), then the first bucket that fits.
   */
  function AgeOf(diff: int): (a: Age)
    ensures a == JustNow <==> diff < MsPerMinute
    ensures a.MinutesAgo? ==> 1 <= a.minutes < 60 && a.minutes * MsPerMinute <= diff < (a.minutes + 1) * MsPerMinute
    ensures a.HoursAgo? ==> 1 <= a.hours < 24 && a.hours * MsPerHour <= diff < (a.hours + 1) * MsPerHour
    ensures a.DaysAgo? ==> 1 <= a.days && a.days * MsPerDay <= diff < (a.days + 1) * MsPerDay
  {
    var minutes := diff / 60000;
    var hours := minutes / 60;
    var days := hours / 24;
    if minutes < 1 then JustNow
    else if minutes < 60 then MinutesAgo(minutes)
    else if hours < 24 then HoursAgo(hours)
    else DaysAgo(days)
  }

  /** The age text: "Just now", "{m}m ago", "{h}h ago" or "{d}d ago". */
  function AgeText(a: Age): string {
    match a
    case JustNow => "Just now"
    case MinutesAgo(m) => NatToString(m) + "m ago"
    case HoursAgo(h) => NatToString(h) + "h ago"
    case DaysAgo(d) => NatToString(d) + "d ago"
  }

  function FormatTime(timestamp: int, now: int): string {
    AgeText(AgeOf(now - timestamp))
  }

  /** Coarseness of a bucket, for comparing ages. */
  function Rank(a: Age): nat {
    match a
    case JustNow => 0
    case MinutesAgo(_) => 1
    case HoursAgo(_) => 2
    case DaysAgo(_) => 3
  }

  /** An older notification never shows a younger age. */
  lemma AgeMonotone(d1: int, d2: int)
    requires d1 <= d2
    ensures Rank(AgeOf(d1)) <= Rank(AgeOf(d2))
    ensures AgeOf(d1).MinutesAgo? && AgeOf(d2).MinutesAgo? ==> AgeOf(d1).minutes <= AgeOf(d2).minutes
    ensures AgeOf(d1).HoursAgo? && AgeOf(d2).HoursAgo? ==> AgeOf(d1).hours <= AgeOf(d2).hours
    ensures AgeOf(d1).DaysAgo? && AgeOf(d2).DaysAgo? ==> AgeOf(d1).days <= AgeOf(d2).days
  {
    var a1, a2 := AgeOf(d1), AgeOf(d2);
    if a2.MinutesAgo? && a1.MinutesAgo? {
      assert a1.minutes * MsPerMinute <= d1 <= d2 < (a2.minutes + 1) * MsPerMinute;
    }
    if a2.HoursAgo? && a1.HoursAgo? {
      assert a1.hours * MsPerHour <= d1 <= d2 < (a2.hours + 1) * MsPerHour;
    }
    if a2.DaysAgo? && a1.DaysAgo? {
      assert a1.days * MsPerDay <= d1 <= d2 < (a2.days + 1) * MsPerDay;
    }
  }

  /** Bucket boundaries: under a minute, 59 minutes, one hour, one day. */
  lemma AgeBoundaries()
    ensures AgeOf(59999) == JustNow && AgeOf(-5000) == JustNow
    ensures AgeOf(60000) == MinutesAgo(1)
    ensures AgeOf(3599999) == MinutesAgo(59) && AgeOf(3600000) == HoursAgo(1)
    ensures AgeOf(86399999) == HoursAgo(23) && AgeOf(86400000) == DaysAgo(1)
  {
  }

  /** One entry of the list. */
  datatype Item = Item(
    id: string, icon: Icon, title: string, message: string, time: string, highlighted: bool, markButton: bool)

  datatype PanelView = PanelView(
    badge: Option<nat>, markAllButton: bool, items: seq<Item>, emptyState: bool)

  function ItemOf(n: Notification, now: int): Item {
    Item(n.id, NotificationIcon(n.kind), n.title, n.message, FormatTime(n.timestamp, now), !n.isRead, !n.isRead)
  }

  /** The list: one entry per notification, in order. */
  function Items(ns: seq<Notification>, now: int): (items: seq<Item>)
    ensures |items| == |ns|
    ensures forall i :: 0 <= i < |ns| ==> items[i] == ItemOf(ns[i], now)
  {
    seq(|ns|, i requires 0 <= i < |ns| => ItemOf(ns[i], now))
  }

  /**
   * The panel: nothing while closed; the badge and "Mark all read" only
   * with unread notifications; one entry per notification, highlighted and
   * with its own mark button exactly when unread, showing its title,
   * message and age; the empty state exactly when there are none.
   */
  function Render(isOpen: bool, ns: seq<Notification>, now: int): (v: Option<PanelView>)
    ensures v.None? <==> !isOpen
    ensures v.Some? ==> var p := v.value;
      && (p.markAllButton <==> exists i :: 0 <= i < |ns| && !ns[i].isRead)
      && (p.badge.Some? <==> p.markAllButton)
      && (p.badge.Some? ==> p.badge.value == UnreadCount(ns))
      && (p.emptyState <==> ns == [])
      && |p.items| == |ns|
      && (forall i :: 0 <= i < |ns| ==> (p.items[i].markButton <==> !ns[i].isRead))
      && (forall i :: 0 <= i < |ns| ==> (p.items[i].highlighted <==> !ns[i].isRead))
      && (forall i :: 0 <= i < |ns| ==> p.items[i].id == ns[i].id && p.items[i].icon == NotificationIcon(ns[i].kind))
      && (forall i :: 0 <= i < |ns| ==> p.items[i].title == ns[i].title && p.items[i].message == ns[i].message)
      && (forall i :: 0 <= i < |ns| ==> p.items[i].time == AgeText(AgeOf(now - ns[i].timestamp)))
  {
    if !isOpen then None
    else
      var unread := UnreadCount(ns);
      Some(PanelView(
        if unread > 0 then Some(unread) else None,
        unread > 0,
        Items(ns, now),
        |ns| == 0))
  }

  function Highlighted(): Item -> bool {
    (it: Item) => it.highlighted
  }

  /** The entries drawn highlighted are as many as the unread notifications. */
  lemma {:induction false} HighlightedCount(ns: seq<Notification>, now: int)
    ensures |Filter(Items(ns, now), Highlighted())| == UnreadCount(ns)
    decreases |ns|
  {
    if ns != [] {
      var front, last := ns[..|ns| - 1], ns[|ns| - 1];
      assert ns == front + [last];
      assert Items(ns, now) == Items(front, now) + [ItemOf(last, now)];
      FilterSnoc(Items(front, now), ItemOf(last, now), Highlighted());
      FilterSnoc(front, last, Unread());
      HighlightedCount(front, now);
    }
  }

  /**
   * The open panel's badge counts the highlighted entries of its own list,
   * and appears exactly when there is one.
   */
  lemma BadgeCountsHighlighted(ns: seq<Notification>, now: int)
    ensures var p := Render(true, ns, now).value;
      var shown := |Filter(p.items, Highlighted())|;
      p.badge == if shown > 0 then Some(shown) else None
  {
    HighlightedCount(ns, now);
  }
}
