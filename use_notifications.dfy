/** np/notifications/hooks/useNotifications.ts: the notifications list and the
    two mark-as-read actions. The hook keeps no state of its own: it reads the
    list query and hands bodies to two request hooks, whose success callback
    refetches the list. Each action is modelled as the calls it makes, given
    whether the request hook reported success. */
module UseNotifications {
  import opened Wrappers
  import opened Json
  import opened NotificationItem

  const ListPath := "notifications/list"
  const MarkReadPath := "notifications/markasread"
  const MarkAllReadPath := "notifications/markallasread"

  /** `listData ?? []`: no data yet means no notifications. */
  function NotificationsOf(listData: Option<seq<Notification>>): (ns: seq<Notification>)
    ensures listData.None? ==> ns == []
    ensures listData.Some? ==> ns == listData.value
    ensures ns == [] <==> listData.None? || listData.value == []
  {
    listData.GetOr([])
  }

  /** `arr.map(n => n.id).filter(Boolean)`: the ids of the given
      notifications, with missing and empty ids dropped. */
  function IdsToMark(arr: seq<Notification>): (ids: seq<string>)
    ensures |ids| <= |arr|
    ensures forall i :: 0 <= i < |ids| ==> ids[i] != ""
    ensures forall id :: id in ids <==> id != "" && exists i :: 0 <= i < |arr| && arr[i].id == Some(id)
  {
    if arr == [] then []
    else
      var rest := IdsToMark(arr[1..]);
      assert forall i :: 1 <= i < |arr| ==> arr[1..][i - 1] == arr[i];
      if arr[0].id.Some? && arr[0].id.value != "" then [arr[0].id.value] + rest else rest
  }

  /** The ids keep the order of the notifications: the ids of two lists one
      after the other are the ids of the first, then those of the second. */
  lemma {:induction false} IdsToMarkAppend(a: seq<Notification>, b: seq<Notification>)
    ensures IdsToMark(a + b) == IdsToMark(a) + IdsToMark(b)
  {
    if a != [] {
      assert (a + b)[1..] == a[1..] + b;
      IdsToMarkAppend(a[1..], b);
    } else {
      assert a + b == b;
    }
  }

  /** The calls the hook makes. */
  datatype Call =
    | Submit(path: string, body: Json)   // a POST through `useProjectRequest`
    | Refetch                            // `refetch()` of the list query

  /** The POST body for a list of ids: a JSON array of strings. */
  function IdsBody(ids: seq<string>): (body: Json)
    ensures body.JArray? && |body.items| == |ids|
    ensures forall i :: 0 <= i < |ids| ==> body.items[i] == JString(ids[i])
  {
    JArray(seq(|ids|, i requires 0 <= i < |ids| => JString(ids[i])))
  }

  /** `onMarkAsRead(arr)`: without any id nothing is sent; otherwise the ids
      are posted to the mark-as-read path, and the list is refetched exactly
      once, when that request succeeds. */
  function OnMarkAsRead(arr: seq<Notification>, succeeded: bool): (calls: seq<Call>)
    ensures IdsToMark(arr) == [] ==> calls == []
    ensures IdsToMark(arr) != [] ==> |calls| >= 1 && calls[0] == Submit(MarkReadPath, IdsBody(IdsToMark(arr)))
    ensures Refetch in calls <==> IdsToMark(arr) != [] && succeeded
    ensures |calls| <= 2 && (|calls| == 2 ==> calls[1] == Refetch)
  {
    var ids := IdsToMark(arr);
    if |ids| == 0 then []
    else [Submit(MarkReadPath, IdsBody(ids))] + (if succeeded then [Refetch] else [])
  }

  /** `onMarkAllAsRead()`: `{}` is posted to the mark-all path, and the list is
      refetched once when that request succeeds. */
  function OnMarkAllAsRead(succeeded: bool): (calls: seq<Call>)
    ensures |calls| >= 1 && calls[0] == Submit(MarkAllReadPath, JObject([]))
    ensures Refetch in calls <==> succeeded
    ensures |calls| <= 2 && (|calls| == 2 ==> calls[1] == Refetch)
  {
    [Submit(MarkAllReadPath, JObject([]))] + (if succeeded then [Refetch] else [])
  }

  /** Marking the listed notifications as read before the list has loaded
      sends nothing and refetches nothing. */
  lemma MarkListedBeforeLoad(succeeded: bool)
    ensures OnMarkAsRead(NotificationsOf(None), succeeded) == []
  {
  }

  /** The item's mark-as-read button, for an unread notification with an id,
      posts exactly that id. */
  lemma ItemButtonPostsItsId(n: Notification, succeeded: bool)
    requires n.read != Some(true) && n.id.Some? && n.id.value != ""
    ensures MarkAsReadControl(n).Some?
    ensures OnMarkAsRead(MarkAsReadControl(n).value, succeeded)[0] ==
      Submit(MarkReadPath, IdsBody([n.id.value]))
  {
    assert IdsToMark([n]) == [n.id.value] by {
      assert [n][1..] == [];
    }
  }
}
