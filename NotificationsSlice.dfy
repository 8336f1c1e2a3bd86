/** The notifications slice (store/notificationsSlice.ts). */
module NotificationsSlice {
  import opened Util
  import opened Types
  import opened Api
  import opened Mappers

  datatype NotificationPage = NotificationPage(items: seq<RawNotification>, unread_count: Option<int>)
  datatype NotificationsPayload = NotificationsPayload(items: seq<Notification>, unreadCount: int)

  /** `{ unread_only: params?.unreadOnly || false }` */
  function NotificationsQuery(unreadOnly: Option<bool>): (q: seq<(string, QueryValue)>)
    ensures q == [("unread_only", QBool(unreadOnly == Some(true)))]
  {
    [("unread_only", QBool(unreadOnly.GetOr(false)))]
  }

  function FetchNotifications(token: Option<string>, response: ApiResult<NotificationPage>, uuid: nat -> string, now: int)
    : (s: Settled<NotificationsPayload>)
    ensures !HasToken(token) ==> s == Rejected("Login required")
    ensures HasToken(token) ==> (s.Fulfilled? <==> response.Success?)
    ensures HasToken(token) && response.Success? ==>
              && |s.payload.items| == |response.value.items|
              && (forall i :: 0 <= i < |s.payload.items| ==>
                    s.payload.items[i] == MapNotification(Some(response.value.items[i]), uuid(i), now))
              && s.payload.unreadCount == response.value.unread_count.GetOr(0)
    ensures HasToken(token) && response.Failure? ==>
              s == Rejected(RejectMessage(response.message, "Unable to load notifications"))
  {
    if !HasToken(token) then Rejected("Login required")
    else Attempt(response, (res: NotificationPage) =>
                   NotificationsPayload(seq(|res.items|, i requires 0 <= i < |res.items| =>
                                              MapNotification(Some(res.items[i]), uuid(i), now)),
                                        res.unread_count.GetOr(0)),
                 "Unable to load notifications")
  }

  function MarkAllRead(token: Option<string>, response: ApiResult<()>): (s: Settled<bool>)
    ensures !HasToken(token) ==> s == Rejected("Login required")
    ensures HasToken(token) && response.Success? ==> s == Fulfilled(true)
    ensures HasToken(token) && response.Failure? ==> s == Rejected(RejectMessage(response.message, "Unable to mark as read"))
  {
    if !HasToken(token) then Rejected("Login required")
    else Attempt(response, (_: ()) => true, "Unable to mark as read")
  }

  function MarkNotificationRead(token: Option<string>, notificationId: string, response: ApiResult<()>): (s: Settled<string>)
    ensures !HasToken(token) ==> s == Rejected("Login required")
    ensures HasToken(token) && response.Success? ==> s == Fulfilled(notificationId)
    ensures HasToken(token) && response.Failure? ==> s == Rejected(RejectMessage(response.message, "Unable to mark as read"))
  {
    if !HasToken(token) then Rejected("Login required")
    else Attempt(response, (_: ()) => notificationId, "Unable to mark as read")
  }

  // ---------------------------------------------------------------------
  // The item updates

  /** `items.map((n) => ({ ...n, read: true }))` */
  function AllRead(items: seq<Notification>): (r: seq<Notification>)
    ensures |r| == |items|
    ensures forall i :: 0 <= i < |items| ==> r[i].read && r[i].(read := false) == items[i].(read := false)
  {
    seq(|items|, i requires 0 <= i < |items| => items[i].(read := true))
  }

  /** Only notifications with the id are marked read. */
  function MarkRead(items: seq<Notification>, id: string): (r: seq<Notification>)
    ensures |r| == |items|
    ensures forall i :: 0 <= i < |items| && items[i].id != id ==> r[i] == items[i]
    ensures forall i :: 0 <= i < |items| && items[i].id == id ==> r[i] == items[i].(read := true)
  {
    seq(|items|, i requires 0 <= i < |items| => if items[i].id == id then items[i].(read := true) else items[i])
  }

  /** Marking every notification one by one gives what marking all at once
      gives. */
  lemma {:induction false} MarkEachIsMarkAll(items: seq<Notification>, ids: seq<string>)
    requires forall i :: 0 <= i < |items| ==> items[i].id in ids
    ensures MarkReadAll(items, ids) == AllRead(items)
    decreases |ids|
  {
    if |ids| > 0 {
      var last := ids[|ids| - 1];
      var rest := ids[..|ids| - 1];
      var partial := MarkReadAll(items, rest);
      MarkReadAllShape(items, rest);
      forall i | 0 <= i < |items| ensures MarkRead(partial, last)[i] == AllRead(items)[i] {
        assert items[i].id in rest || items[i].id == last;
      }
    }
  }

  /** Marking each id in turn. */
  function MarkReadAll(items: seq<Notification>, ids: seq<string>): (r: seq<Notification>)
    ensures |r| == |items|
    decreases |ids|
  {
    if |ids| == 0 then items else MarkRead(MarkReadAll(items, ids[..|ids| - 1]), ids[|ids| - 1])
  }

  lemma {:induction false} MarkReadAllShape(items: seq<Notification>, ids: seq<string>)
    ensures forall i :: 0 <= i < |items| ==>
              MarkReadAll(items, ids)[i] == if items[i].id in ids then items[i].(read := true) else items[i]
    decreases |ids|
  {
    if |ids| > 0 {
      var rest := ids[..|ids| - 1];
      MarkReadAllShape(items, rest);
      forall i | 0 <= i < |items| ensures items[i].id in ids <==> items[i].id in rest || items[i].id == ids[|ids| - 1] {
        if items[i].id in ids {
          var k :| 0 <= k < |ids| && ids[k] == items[i].id;
          if k < |ids| - 1 { assert rest[k] == ids[k]; }
        }
      }
    }
  }

  /** The unread count after markNotificationRead: one less, never below 0. */
  function DecrementUnread(count: int): (r: int)
    ensures r >= 0
    ensures count >= 1 ==> r == count - 1
    ensures count < 1 ==> r == 0
  {
    Max(0, count - 1)
  }

  /** The count is lowered whether or not the notification was unread:
      marking a notification that is already read (or not loaded) leaves
      the items as they are but still takes one off the unread count. */
  lemma {:induction false} UnreadCountCanDrift(items: seq<Notification>, id: string, count: int)
    requires forall i :: 0 <= i < |items| && items[i].id == id ==> items[i].read
    requires count >= 1
    ensures MarkRead(items, id) == items
    ensures DecrementUnread(count) == count - 1
  {
    var r := MarkRead(items, id);
    forall i | 0 <= i < |items| ensures r[i] == items[i] {
      if items[i].id == id {
        assert items[i].(read := true) == items[i];
      }
    }
  }

  // ---------------------------------------------------------------------
  // The slice

  class NotificationsState {
    var items: seq<Notification>
    var loading: bool
    var error: Option<string>
    var unreadCount: int

    constructor()
      ensures items == [] && !loading && error.None? && unreadCount == 0
    {
      items := [];
      loading := false;
      error := None;
      unreadCount := 0;
    }

    method FetchPending()
      modifies this
      ensures loading && error.None?
      ensures items == old(items) && unreadCount == old(unreadCount)
    {
      loading := true;
      error := None;
    }

    method FetchFulfilled(payload: NotificationsPayload)
      modifies this
      ensures !loading && items == payload.items && unreadCount == payload.unreadCount
      ensures error == old(error)
    {
      loading := false;
      items := payload.items;
      unreadCount := payload.unreadCount;
    }

    method FetchRejected(message: string)
      modifies this
      ensures !loading && error == Some(message)
      ensures items == old(items) && unreadCount == old(unreadCount)
    {
      loading := false;
      error := Some(message);
    }

    method MarkAllReadFulfilled()
      modifies this
      ensures items == AllRead(old(items)) && unreadCount == 0
      ensures loading == old(loading) && error == old(error)
    {
      items := AllRead(items);
      unreadCount := 0;
    }

    /** markNotificationRead.fulfilled: the count drops even when the item
        was already read, or is not in the list. */
    method MarkReadFulfilled(id: string)
      modifies this
      ensures items == MarkRead(old(items), id)
      ensures unreadCount == DecrementUnread(old(unreadCount))
      ensures loading == old(loading) && error == old(error)
    {
      items := MarkRead(items, id);
      unreadCount := Max(0, unreadCount - 1);
    }

    method Logout()
      modifies this
      ensures items == [] && unreadCount == 0 && !loading && error.None?
    {
      items := [];
      unreadCount := 0;
      loading := false;
      error := None;
    }
  }
}
