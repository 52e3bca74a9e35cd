/** The notification store (src/hooks/useNotifications.ts): one list, newest
    first, replaced by each operation. Persistence to local storage is left
    out; the list lives in memory. */
module NotificationStore {
  import opened Wrappers
  import opened Types
  import DemoData

  /** The entry addNotification builds; an omitted type is `info`. */
  function NewNotification(id: string, title: string, message: string, now: string,
                           kind: Option<NotificationType>): (n: Notification)
    ensures n.id == id && n.title == title && n.message == message && n.date == now
    ensures !n.read
    ensures kind.None? ==> n.kind == Info
    ensures kind.Some? ==> n.kind == kind.value
  {
    Notification(id, title, message, now, false, kind.GetOr(Info))
  }

  /** `ns.map(n => n.id === id ? { ...n, read: true } : n)` */
  function MarkRead(ns: seq<Notification>, id: string): seq<Notification> {
    if ns == [] then []
    else [if ns[0].id == id then ns[0].(read := true) else ns[0]] + MarkRead(ns[1..], id)
  }

  /** `ns.map(n => ({ ...n, read: true }))` */
  function MarkAllRead(ns: seq<Notification>): seq<Notification> {
    if ns == [] then [] else [ns[0].(read := true)] + MarkAllRead(ns[1..])
  }

  /** `ns.filter(n => n.id !== id)` */
  function RemoveNotification(ns: seq<Notification>, id: string): seq<Notification> {
    if ns == [] then []
    else (if ns[0].id != id then [ns[0]] else []) + RemoveNotification(ns[1..], id)
  }

  /** `ns.filter(n => !n.read).length`: never more than the list's length. */
  function CountUnread(ns: seq<Notification>): (c: nat)
    ensures c <= |ns|
    ensures c == 0 <==> forall i :: 0 <= i < |ns| ==> ns[i].read
  {
    if ns == [] then 0
    else (if ns[0].read then 0 else 1) + CountUnread(ns[1..])
  }

  /** markAsRead sets `read` on the entries with the id and nothing else:
      length, order and every other field stay. */
  lemma {:induction false} MarkReadSpec(ns: seq<Notification>, id: string)
    ensures |MarkRead(ns, id)| == |ns|
    ensures forall i :: 0 <= i < |ns| ==>
      MarkRead(ns, id)[i] == if ns[i].id == id then ns[i].(read := true) else ns[i]
  {
    if ns != [] {
      MarkReadSpec(ns[1..], id);
      var r := MarkRead(ns, id);
      forall i | 1 <= i < |ns| ensures r[i] == MarkRead(ns[1..], id)[i - 1] {
      }
    }
  }

  /** markAsRead never raises the unread count, and lowers it when an unread
      entry has the id. */
  lemma {:induction false} MarkReadCount(ns: seq<Notification>, id: string)
    ensures CountUnread(MarkRead(ns, id)) <= CountUnread(ns)
    ensures (exists i :: 0 <= i < |ns| && ns[i].id == id && !ns[i].read) ==>
      CountUnread(MarkRead(ns, id)) < CountUnread(ns)
  {
    if ns != [] {
      MarkReadCount(ns[1..], id);
      if exists i :: 0 <= i < |ns| && ns[i].id == id && !ns[i].read {
        var i :| 0 <= i < |ns| && ns[i].id == id && !ns[i].read;
        if i > 0 {
          assert ns[1..][i - 1] == ns[i];
        }
      }
    }
  }

  /** markAllAsRead marks every entry read and changes nothing else, so no
      entry is left unread. */
  lemma {:induction false} MarkAllReadSpec(ns: seq<Notification>)
    ensures |MarkAllRead(ns)| == |ns|
    ensures forall i :: 0 <= i < |ns| ==> MarkAllRead(ns)[i] == ns[i].(read := true)
    ensures CountUnread(MarkAllRead(ns)) == 0
  {
    if ns != [] {
      MarkAllReadSpec(ns[1..]);
      var r := MarkAllRead(ns);
      forall i | 1 <= i < |ns| ensures r[i] == MarkAllRead(ns[1..])[i - 1] {
      }
    }
  }

  /** markAllAsRead twice is markAllAsRead once. */
  lemma {:induction false} MarkAllReadIdempotent(ns: seq<Notification>)
    ensures MarkAllRead(MarkAllRead(ns)) == MarkAllRead(ns)
  {
    if ns != [] {
      MarkAllReadIdempotent(ns[1..]);
      assert MarkAllRead(ns)[1..] == MarkAllRead(ns[1..]);
    }
  }

  /** addNotification puts one unread entry in front: the length and the
      unread count both go up by exactly one. */
  lemma PrependCounts(n: Notification, ns: seq<Notification>)
    requires !n.read
    ensures |[n] + ns| == |ns| + 1
    ensures CountUnread([n] + ns) == CountUnread(ns) + 1
  {
    assert ([n] + ns)[1..] == ns;
  }

  /** deleteNotification keeps exactly the entries with another id. */
  lemma {:induction false} RemoveNotificationMembers(ns: seq<Notification>, id: string)
    ensures forall n :: n in RemoveNotification(ns, id) <==> n in ns && n.id != id
  {
    if ns != [] {
      RemoveNotificationMembers(ns[1..], id);
      assert forall n :: n in ns <==> n == ns[0] || n in ns[1..];
    }
  }

  /** deleteNotification keeps the order of the rest: filtering a
      concatenation filters each part in place. */
  lemma {:induction false} RemoveNotificationAppend(a: seq<Notification>, b: seq<Notification>, id: string)
    ensures RemoveNotification(a + b, id) == RemoveNotification(a, id) + RemoveNotification(b, id)
  {
    if a == [] {
      assert a + b == b;
    } else {
      assert (a + b)[0] == a[0] && (a + b)[1..] == a[1..] + b;
      RemoveNotificationAppend(a[1..], b, id);
    }
  }

  class NotificationStore {
    var notifications: seq<Notification>

    /** Without saved data the list is the demo notifications. */
    constructor (saved: Option<seq<Notification>>)
      ensures notifications == saved.GetOr(DemoData.DemoNotifications())
    {
      notifications := saved.GetOr(DemoData.DemoNotifications());
    }

    /** addNotification: the new entry goes first and is returned. */
    method AddNotification(title: string, message: string, kind: Option<NotificationType>,
                           freshId: string, now: string)
      returns (n: Notification)
      modifies this
      ensures n == NewNotification(freshId, title, message, now, kind)
      ensures notifications == [n] + old(notifications)
    {
      n := NewNotification(freshId, title, message, now, kind);
      notifications := [n] + notifications;
    }

    /** markAsRead */
    method MarkAsRead(id: string)
      modifies this
      ensures notifications == MarkRead(old(notifications), id)
    {
      notifications := MarkRead(notifications, id);
    }

    /** markAllAsRead */
    method MarkAllAsRead()
      modifies this
      ensures notifications == MarkAllRead(old(notifications))
    {
      notifications := MarkAllRead(notifications);
    }

    /** deleteNotification */
    method DeleteNotification(id: string)
      modifies this
      ensures notifications == RemoveNotification(old(notifications), id)
    {
      notifications := RemoveNotification(notifications, id);
    }

    /** unreadCount */
    function UnreadCount(): nat
      reads this
    {
      CountUnread(notifications)
    }
  }
}
