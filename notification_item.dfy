/** np/notifications/components/NotificationItem.tsx: one notification in the
    list. The model keeps the three decisions the item makes: the relative
    age shown under the text, the avatar source, and whether a mark-as-read
    control is offered. The clock is the `nowMs` parameter. */
module NotificationItem {
  import opened Wrappers
  import opened Text

  /** The user's icon; either size may be missing. */
  datatype Icon = Icon(s240: Option<string>, original: Option<string>)

  datatype User = User(name: string, icon: Option<Icon>)

  /** A notification as the UI receives it. Every stored field is optional;
      `text` and `user` are always there. `created` is in epoch milliseconds. */
  datatype Notification = Notification(
    id: Option<string>,
    read: Option<bool>,
    created: Option<int>,
    text: string,
    user: User)

  // ---------------------------------------------------------------------------
  // relativeTime

  /** `${n}<unit> ago` */
  function Ago(n: int, unit: char): string {
    IntToString(n) + [unit] + " ago"
  }

  /** The count and the unit read back from an age text. */
  lemma AgoReadBack(n: int, unit: char)
    ensures var t := Ago(n, unit);
      |t| > 5 && t[|t| - 5] == unit && t[|t| - 4..] == " ago" && ParseInt(t[..|t| - 5]) == Some(n)
  {
    var t := Ago(n, unit);
    assert t[..|t| - 5] == IntToString(n);
    IntToStringRoundTrip(n);
  }

  /** `relativeTime(timestamp)`: nothing for a missing or zero timestamp;
      otherwise the age `nowMs - timestamp` in whole seconds, minutes, hours
      or days (each the floor of the one before, divided), in the first unit
      whose count is below the next unit's size. */
  function RelativeTime(timestamp: Option<int>, nowMs: int): (r: string)
    ensures r == "" <==> timestamp.None? || timestamp.value == 0
  {
    if timestamp.None? || timestamp.value == 0 then ""
    else
      var diffMs := nowMs - timestamp.value;
      var diffSec := diffMs / 1000;
      var diffMin := diffSec / 60;
      var diffHr := diffMin / 60;
      var diffDay := diffHr / 24;
      if diffSec < 60 then Ago(diffSec, 's')
      else if diffMin < 60 then Ago(diffMin, 'm')
      else if diffHr < 24 then Ago(diffHr, 'h')
      else Ago(diffDay, 'd')
  }

  /** Division by a positive number rounds down, so the quotient is the one
      `x == d * q + r` with `0 <= r < d` fixes. */
  lemma DivUnique(x: int, d: int, q: int, r: int)
    requires d > 0 && 0 <= r < d && x == d * q + r
    ensures x / d == q
  {
    var q' := x / d;
    var r' := x % d;
    assert d * (q - q') == r' - r by {
      assert d * (q - q') == d * q - d * q';
    }
    if q' < q {
      MulAtLeast(d, q - q');
    } else if q' > q {
      MulAtLeast(d, q' - q);
    }
  }

  lemma MulAtLeast(d: int, k: int)
    requires d > 0 && k >= 1
    ensures d * k >= d
  {
  }

  /** Flooring twice is flooring once by the product. */
  lemma DivDiv(x: int, a: int, b: int)
    requires a > 0 && b > 0
    ensures (x / a) / b == x / (a * b)
  {
    var q := x / a;
    var r := x % a;
    var q2 := q / b;
    var r2 := q % b;
    assert x == a * q + r;
    assert q == b * q2 + r2;
    assert a * q == (a * b) * q2 + a * r2 by {
      assert a * (b * q2 + r2) == a * (b * q2) + a * r2;
      assert a * (b * q2) == (a * b) * q2;
    }
    MulMonotone(a, r2, b - 1);
    assert a * (b - 1) == a * b - a;
    DivUnique(x, a * b, q2, a * r2 + r);
  }

  /** The age in terms of milliseconds alone: under a minute it is counted in
      seconds (negative for a timestamp in the future), then in minutes under
      an hour, in hours under a day, and in days beyond. */
  lemma RelativeTimeUnits(timestamp: int, nowMs: int)
    requires timestamp != 0
    ensures var d := nowMs - timestamp; var r := RelativeTime(Some(timestamp), nowMs);
      (d < 60000 ==> r == Ago(d / 1000, 's')) &&
      (60000 <= d < 3600000 ==> r == Ago(d / 60000, 'm')) &&
      (3600000 <= d < 86400000 ==> r == Ago(d / 3600000, 'h')) &&
      (86400000 <= d ==> r == Ago(d / 86400000, 'd'))
    ensures nowMs < timestamp ==> (nowMs - timestamp) / 1000 < 0
  {
    var d := nowMs - timestamp;
    DivDiv(d, 1000, 60);
    DivDiv(d, 60000, 60);
    DivDiv(d, 3600000, 24);
    DivUnique(d, 60000, d / 60000, d % 60000);
    if d < 60000 {
      assert d / 1000 < 60 by { DivMonotone(d, 59999, 1000); }
    } else {
      assert d / 1000 >= 60 by { DivMonotone(60000, d, 1000); }
      if d < 3600000 {
        assert d / 60000 < 60 by { DivMonotone(d, 3599999, 60000); }
      } else {
        assert d / 60000 >= 60 by { DivMonotone(3600000, d, 60000); }
        if d < 86400000 {
          assert d / 3600000 < 24 by { DivMonotone(d, 86399999, 3600000); }
        } else {
          assert d / 3600000 >= 24 by { DivMonotone(86400000, d, 3600000); }
        }
      }
    }
    if d < 0 {
      DivUnique(d, 1000, d / 1000, d % 1000);
    }
  }

  /** Rounding down keeps the order. */
  lemma DivMonotone(x: int, y: int, d: int)
    requires d > 0 && x <= y
    ensures x / d <= y / d
  {
    var qx := x / d;
    var qy := y / d;
    assert d * qx <= y;
    assert y < d * (qy + 1) by {
      assert d * (qy + 1) == d * qy + d;
    }
    MulCancelLess(d, qx, qy + 1);
  }

  /** Multiplying by a positive factor keeps the order. */
  lemma MulMonotone(d: int, a: int, b: int)
    requires d > 0 && a <= b
    ensures d * a <= d * b
  {
    if a < b {
      MulAtLeast(d, b - a);
      assert d * (b - a) == d * b - d * a;
    }
  }

  /** A positive factor can be cancelled from a strict inequality. */
  lemma MulCancelLess(d: int, a: int, b: int)
    requires d > 0 && d * a < d * b
    ensures a < b
  {
    if a >= b {
      MulMonotone(d, b, a);
    }
  }

  // ---------------------------------------------------------------------------
  // Avatar and mark-as-read

  /** JavaScript truthiness of an optional string. */
  predicate Present(s: Option<string>) {
    s.Some? && s.value != ""
  }

  /** `user?.icon?.s240 || user?.icon?.original || ""`: the larger icon if it
      is there, else the original, else nothing. */
  function AvatarSrc(n: Notification): (src: string)
    ensures n.user.icon.Some? && Present(n.user.icon.value.s240) ==> src == n.user.icon.value.s240.value
    ensures n.user.icon.Some? && !Present(n.user.icon.value.s240) && Present(n.user.icon.value.original) ==>
      src == n.user.icon.value.original.value
    ensures src == "" <==>
      n.user.icon.None? || (!Present(n.user.icon.value.s240) && !Present(n.user.icon.value.original))
  {
    match n.user.icon
    case None => ""
    case Some(icon) =>
      if Present(icon.s240) then icon.s240.value
      else if Present(icon.original) then icon.original.value
      else ""
  }

  /** An image is shown exactly when there is an avatar source; otherwise a
      placeholder. */
  predicate ShowsAvatarImage(n: Notification) {
    AvatarSrc(n) != ""
  }

  /** An avatar image is shown exactly when the user has an icon of either
      size. */
  lemma AvatarImageIffIcon(n: Notification)
    ensures ShowsAvatarImage(n) <==>
      n.user.icon.Some? && (Present(n.user.icon.value.s240) || Present(n.user.icon.value.original))
  {
  }

  /** The mark-as-read button, as the list it hands `onMarkAsRead`: offered
      only for an unread notification (a missing `read` counts as unread), and
      then with that one notification. */
  function MarkAsReadControl(n: Notification): (control: Option<seq<Notification>>)
    ensures control.Some? <==> n.read != Some(true)
    ensures control.Some? ==> control.value == [n]
  {
    if n.read == Some(true) then None else Some([n])
  }
}
