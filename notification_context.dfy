/**
 * client/src/context/NotificationContext.jsx: the notification list the client
 * holds, the transforms its handlers apply once the server call has returned,
 * and `unreadCount`. Each handler receives the outcome of its service call.
 */
module NotificationContext {
  import opened Wrappers
  import opened Js
  import opened ClientLists
  import Services

  /** `{ ...notif, read: true }` */
  function MarkedRead(d: Doc): (r: Doc)
    ensures r.id == d.id && Truthy(Get(r.fields, "read"))
    ensures forall k :: k in d.fields && k != "read" ==> k in r.fields && r.fields[k] == d.fields[k]
  {
    d.(fields := d.fields["read" := Bool(true)])
  }

  predicate Unread(d: Doc) {
    !Truthy(Get(d.fields, "read"))
  }

  /** `prev.map(n => n._id === id ? { ...n, read: true } : n)` */
  function MarkRead(list: seq<Doc>, id: Val): (r: seq<Doc>)
    ensures |r| == |list|
    ensures forall i :: 0 <= i < |list| ==> r[i] == (if list[i].id == id then MarkedRead(list[i]) else list[i])
  {
    seq(|list|, i requires 0 <= i < |list| => if list[i].id == id then MarkedRead(list[i]) else list[i])
  }

  /** `prev.map(n => ({ ...n, read: true }))` */
  function MarkAll(list: seq<Doc>): (r: seq<Doc>)
    ensures |r| == |list|
    ensures forall i :: 0 <= i < |list| ==> r[i] == MarkedRead(list[i])
  {
    seq(|list|, i requires 0 <= i < |list| => MarkedRead(list[i]))
  }

  /** `notifications.filter(n => !n.read).length` */
  function UnreadCount(list: seq<Doc>): (n: nat)
    ensures n <= |list|
    ensures n == 0 <==> forall i :: 0 <= i < |list| ==> !Unread(list[i])
  {
    if list == [] then 0
    else (if Unread(list[0]) then 1 else 0) + UnreadCount(list[1..])
  }

  /** How many unread entries carry the given `_id`. */
  function UnreadWith(list: seq<Doc>, id: Val): nat {
    if list == [] then 0
    else (if Unread(list[0]) && list[0].id == id then 1 else 0) + UnreadWith(list[1..], id)
  }

  /** Once every entry is marked read, nothing is unread. */
  lemma {:induction false} MarkAllLeavesNoUnread(list: seq<Doc>)
    ensures UnreadCount(MarkAll(list)) == 0
  {
    if list != [] {
      assert MarkAll(list)[1..] == MarkAll(list[1..]);
      MarkAllLeavesNoUnread(list[1..]);
    }
  }

  /** Marking one id read lowers the unread count by exactly the unread entries with that id. */
  lemma {:induction false} MarkReadCount(list: seq<Doc>, id: Val)
    ensures UnreadCount(MarkRead(list, id)) + UnreadWith(list, id) == UnreadCount(list)
  {
    if list != [] {
      assert MarkRead(list, id)[1..] == MarkRead(list[1..], id);
      MarkReadCount(list[1..], id);
    }
  }

  /** Deleting an id lowers the unread count by the same amount as marking it read. */
  lemma {:induction false} DeleteCount(list: seq<Doc>, id: Val)
    ensures UnreadCount(Without(list, id)) + UnreadWith(list, id) == UnreadCount(list)
  {
    if list != [] {
      DeleteCount(list[1..], id);
      if list[0].id != id {
        assert ([list[0]] + Without(list[1..], id))[1..] == Without(list[1..], id);
      }
    }
  }

  /** The provider's state: the list, the loading flag, and the ids sent to the `markAsRead` endpoint. */
  class NotificationProvider {
    var notifications: seq<Doc>
    var loading: bool
    var readRequests: seq<Val>

    /** The initial state (`useState([])`) with the load effect started. */
    constructor ()
      ensures notifications == [] && loading && readRequests == []
    {
      notifications, loading, readRequests := [], true, [];
    }

    /** The current `unreadCount`. */
    function UnreadNow(): nat
      reads this
    {
      UnreadCount(notifications)
    }

    /** The load effect: the fetched list replaces the state; a failure leaves it; loading ends either way. */
    method Load(fetched: Option<seq<Doc>>)
      modifies this`notifications, this`loading
      ensures notifications == (if fetched.Some? then fetched.value else old(notifications))
      ensures !loading
    {
      if fetched.Some? {
        notifications := fetched.value;
      }
      loading := false;
    }

    /**
     * `markAsRead(id)`: the service sends a request only for a truthy id and
     * otherwise returns without failing, so the list is mapped then too; when a
     * sent request fails, the list is unchanged.
     */
    method MarkAsRead(id: Val, requestFails: bool)
      modifies this`notifications, this`readRequests
      ensures Services.MarkAsReadSends(id) ==> readRequests == old(readRequests) + [id]
      ensures !Services.MarkAsReadSends(id) ==> readRequests == old(readRequests)
      ensures notifications == (if Services.MarkAsReadSends(id) && requestFails then old(notifications)
                                else MarkRead(old(notifications), id))
      ensures UnreadNow() <= old(UnreadNow())
    {
      if Truthy(id) {
        readRequests := readRequests + [id];
        if requestFails {
          return;
        }
      }
      MarkReadCount(notifications, id);
      notifications := MarkRead(notifications, id);
    }

    /** `markAllAsRead`: on success every entry is marked read and nothing is left unread. */
    method MarkAllAsRead(requestFails: bool)
      modifies this`notifications
      ensures notifications == (if requestFails then old(notifications) else MarkAll(old(notifications)))
      ensures !requestFails ==> UnreadNow() == 0
    {
      if !requestFails {
        MarkAllLeavesNoUnread(notifications);
        notifications := MarkAll(notifications);
      }
    }

    /** `deleteNotification(id)`: on success every entry with that id is dropped, the rest kept in order. */
    method DeleteNotification(id: Val, requestFails: bool)
      modifies this`notifications
      ensures notifications == (if requestFails then old(notifications) else Without(old(notifications), id))
      ensures !requestFails ==> forall d :: d in notifications <==> d in old(notifications) && d.id != id
    {
      if !requestFails {
        notifications := Without(notifications, id);
      }
    }
  }
}
