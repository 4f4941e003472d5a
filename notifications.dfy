/**
 * The notification pop-up: whether the bell shows its unread dot, the icon
 * chosen for a notification's type, and the relative-time label of a
 * timestamp. The time elapsed since the timestamp, in milliseconds, is a
 * parameter: the clock is outside the model.
 */
module Notifications {
  import opened Common
  import opened Records
  import opened JsText

  /** `data.some(notification => !notification.read)`. */
  function HasUnread(ns: seq<Notification>): (r: bool)
    ensures r <==> exists i :: 0 <= i < |ns| && !ns[i].read
  {
    if ns == [] then false
    else !ns[0].read || HasUnread(ns[1..])
  }

  /** A list in which every notification is read shows no dot; one unread notification
      anywhere in the list shows it, and one more read notification changes nothing. */
  lemma UnreadDot(ns: seq<Notification>, extra: Notification)
    ensures HasUnread(seq(|ns|, i requires 0 <= i < |ns| => ns[i].(read := true))) == false
    ensures !extra.read ==> HasUnread(ns + [extra]) && HasUnread([extra] + ns)
    ensures extra.read ==> HasUnread(ns + [extra]) == HasUnread(ns)
  {
    if !extra.read {
      assert (ns + [extra])[|ns|] == extra;
      assert ([extra] + ns)[0] == extra;
    } else {
      forall i | 0 <= i < |ns| && !ns[i].read
        ensures HasUnread(ns + [extra])
      {
        assert (ns + [extra])[i] == ns[i];
      }
    }
  }

  /** The icon drawn for a notification. */
  datatype NotificationIcon = DollarSignIcon | CreditCardIcon | AlertCircleIcon | ClockIcon

  /** `getNotificationIcon`: the switch over `type?.toLowerCase()`. */
  function NotificationIconFor(kind: Option<string>): (r: NotificationIcon)
    ensures kind.Some? && ToLower(kind.value) == "transaction" ==> r == DollarSignIcon
    ensures kind.Some? && ToLower(kind.value) == "account" ==> r == CreditCardIcon
    ensures kind.Some? && ToLower(kind.value) == "alert" ==> r == AlertCircleIcon
    ensures r == ClockIcon <==> kind.None? || ToLower(kind.value) !in {"transaction", "account", "alert"}
  {
    match kind
    case None => ClockIcon
    case Some(t) =>
      var lower := ToLower(t);
      if lower == "transaction" then DollarSignIcon
      else if lower == "account" then CreditCardIcon
      else if lower == "alert" then AlertCircleIcon
      else ClockIcon
  }

  /** The type is matched regardless of the case of its ASCII letters: lower-casing it
      first changes nothing. */
  lemma NotificationIconIgnoresCase(t: string)
    ensures NotificationIconFor(Some(ToLower(t))) == NotificationIconFor(Some(t))
    ensures NotificationIconFor(Some("ALERT")) == AlertCircleIcon
    ensures NotificationIconFor(Some("Transaction")) == DollarSignIcon
  {
  }

  /** `${n} unit${n > 1 ? 's' : ''} ago`. */
  function AgoLabel(n: nat, unit: string): (r: string)
    ensures |r| > 0 && '0' <= r[0] <= '9'
  {
    Decimal(n) + " " + unit + (if n > 1 then "s" else "") + " ago"
  }

  /** `getTimeAgo`: seconds, minutes, hours and days are successive floor divisions of
      the elapsed milliseconds; the largest positive unit is shown. A timestamp less than
      a minute old, or in the future, is "Just now". Hours are then 1 to 23 and minutes
      1 to 59. */
  function TimeAgo(elapsed: int): (r: string)
    ensures r == "Just now" <==> elapsed < 60000
    ensures elapsed >= 86400000 ==> r == AgoLabel(elapsed / 86400000, "day")
    ensures 3600000 <= elapsed < 86400000 ==>
      1 <= elapsed / 3600000 <= 23 && r == AgoLabel(elapsed / 3600000, "hour")
    ensures 60000 <= elapsed < 3600000 ==>
      1 <= elapsed / 60000 <= 59 && r == AgoLabel(elapsed / 60000, "minute")
  {
    FloorSteps(elapsed);
    var seconds := elapsed / 1000;
    var minutes := seconds / 60;
    var hours := minutes / 60;
    var days := hours / 24;
    if days > 0 then AgoLabel(days, "day")
    else if hours > 0 then AgoLabel(hours, "hour")
    else if minutes > 0 then AgoLabel(minutes, "minute")
    else "Just now"
  }

  /** Successive floor divisions by 1000, 60, 60 and 24 are single floor divisions by
      their products. */
  lemma FloorSteps(e: int)
    ensures e / 1000 / 60 == e / 60000
    ensures e / 60000 / 60 == e / 3600000
    ensures e / 3600000 / 24 == e / 86400000
  {
  }

  /** The label's text: the count, the unit, an "s" from two on, and "ago". */
  lemma AgoLabelExamples()
    ensures AgoLabel(1, "day") == "1 day ago"
    ensures AgoLabel(2, "day") == "2 days ago"
    ensures AgoLabel(1, "minute") == "1 minute ago"
  {
    assert Decimal(1) == "1" && Decimal(2) == "2";
  }
}
