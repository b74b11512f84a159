/** The top bar (src/components/layout/Navbar.tsx): the bell with its
    unread badge, the dropdown of the latest notifications with an icon and
    a relative time for each, and the open flag. */
module Navbar {
  import opened Wrappers
  import opened Strings
  import opened Types
  import opened NotificationContext

  const MinuteMs: int := 60000
  const HourMs: int := 3600000
  const DayMs: int := 86400000

  /** `Math.floor(a / b)` for a positive divisor; Dafny's `/` rounds toward
      negative infinity when the divisor is positive, as `floor` does. */
  function FloorDiv(a: int, b: int): (q: int)
    requires b > 0
    ensures q * b <= a < q * b + b
  {
    a / b
  }

  /** `formatTimeAgo`: the cascade on whole minutes, hours and days since
      `createdAt`. */
  function FormatTimeAgo(now: int, createdAt: int): string {
    var diffMs := now - createdAt;
    var diffMins, diffHours, diffDays := FloorDiv(diffMs, MinuteMs), FloorDiv(diffMs, HourMs), FloorDiv(diffMs, DayMs);
    if diffMins < 1 then "Just now"
    else if diffMins < 60 then IntToString(diffMins) + "m ago"
    else if diffHours < 24 then IntToString(diffHours) + "h ago"
    else IntToString(diffDays) + "d ago"
  }

  /** The four outcomes by the elapsed milliseconds: under a minute
      (a timestamp in the future included) is "Just now"; otherwise the
      whole minutes (1..59), hours (1..23) or days (1 and more). */
  lemma TimeAgoCases(now: int, createdAt: int)
    ensures var d := now - createdAt; var r := FormatTimeAgo(now, createdAt);
      && (d < MinuteMs ==> r == "Just now")
      && (MinuteMs <= d < HourMs ==> 1 <= d / MinuteMs <= 59 && r == NatToString(d / MinuteMs) + "m ago")
      && (HourMs <= d < DayMs ==> 1 <= d / HourMs <= 23 && r == NatToString(d / HourMs) + "h ago")
      && (DayMs <= d ==> 1 <= d / DayMs && r == NatToString(d / DayMs) + "d ago")
  {
    var d := now - createdAt;
    var m, h := FloorDiv(d, MinuteMs), FloorDiv(d, HourMs);
    if d >= MinuteMs {
      assert m >= 1;
    }
    if d >= HourMs {
      assert m >= 60;
      assert h >= 1;
    }
    if d >= DayMs {
      assert h >= 24;
    }
    if d < HourMs {
      assert m < 60;
    }
    if d < DayMs {
      assert h < 24;
    }
  }

  /** `getNotificationIcon`, on the type's name. */
  function Icon(typeName: string): (icon: string)
    ensures typeName !in {"success", "warning", "error"} ==> icon == "\U{2139}\U{FE0F}"
  {
    if typeName == "success" then "\U{2705}"
    else if typeName == "warning" then "\U{26A0}\U{FE0F}"
    else if typeName == "error" then "\U{274C}"
    else "\U{2139}\U{FE0F}"
  }

  /** The icon of every notification type. */
  lemma Icons(t: NotificationType)
    ensures Icon(NotificationTypeName(t)) ==
      match t
      case Success => "\U{2705}"
      case Warning => "\U{26A0}\U{FE0F}"
      case Error => "\U{274C}"
      case Info => "\U{2139}\U{FE0F}"
  {
  }

  /** The four notification types get four different icons. */
  lemma IconsDistinct(a: NotificationType, b: NotificationType)
    requires a != b
    ensures Icon(NotificationTypeName(a)) != Icon(NotificationTypeName(b))
  {
    var ia, ib := Icon(NotificationTypeName(a)), Icon(NotificationTypeName(b));
    assert ia[0] != ib[0];
  }

  /** The bell badge: absent without unread notifications, "99+" above 99,
      the number otherwise. */
  function BadgeText(unreadCount: nat): (text: Option<string>)
    ensures text.Some? <==> unreadCount > 0
    ensures unreadCount > 99 ==> text == Some("99+")
    ensures text.Some? ==> 0 < |text.value| <= 3
  {
    if unreadCount == 0 then None
    else if unreadCount > 99 then Some("99+")
    else
      assert |NatToString(unreadCount / 10)| == 1 || unreadCount < 10;
      Some(NatToString(unreadCount))
  }

  /** For 1..99 the badge is the number's decimal text. */
  lemma BadgeShowsCount(unreadCount: nat)
    requires 0 < unreadCount <= 99
    ensures BadgeText(unreadCount) == Some(NatToString(unreadCount))
    ensures DecodeNat(BadgeText(unreadCount).value) == unreadCount
  {
    DecodeNatToString(unreadCount);
  }

  /** `getLatestNotifications(10)`: what the dropdown lists. */
  function DropdownItems(ns: seq<Notification>): (r: seq<Notification>)
    ensures |r| <= 10
    ensures r == ns[..if |ns| < 10 then |ns| else 10]
  {
    LatestIsPrefix(ns, 10);
    LatestNotifications(ns, 10)
  }

  /** `handleNotificationClick`. */
  function Toggle(open: bool): (r: bool)
    ensures r != open
  {
    !open
  }

  /** The close button, and a click outside both the bell and the list. */
  function Close(open: bool): (r: bool)
    ensures !r
  {
    false
  }

  lemma ToggleTwice(open: bool)
    ensures Toggle(Toggle(open)) == open
  {
  }
}
