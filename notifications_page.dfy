/** The student's notifications page (src/pages/student/NotificationsPage.tsx).
    It keeps its own copy of the demo notifications, separate from the
    notification store, and updates it with the store's pure list
    operations. */
module NotificationsPage {
  import opened Types
  import DemoData
  import opened NotificationStore

  class NotificationsView {
    var notifications: seq<Notification>

    /** The page always starts from the demo list. */
    constructor ()
      ensures notifications == DemoData.DemoNotifications()
    {
      notifications := DemoData.DemoNotifications();
    }

    /** Clicking a card marks that notification read. */
    method MarkAsRead(id: string)
      modifies this
      ensures notifications == MarkRead(old(notifications), id)
    {
      notifications := MarkRead(notifications, id);
    }

    /** The "mark all as read" button. */
    method MarkAllAsRead()
      modifies this
      ensures notifications == MarkAllRead(old(notifications))
      ensures !ShowsMarkAll()
    {
      MarkAllReadSpec(notifications);
      notifications := MarkAllRead(notifications);
    }

    function UnreadCount(): nat
      reads this
    {
      CountUnread(notifications)
    }

    /** Whether the "mark all as read" button is on screen: exactly when
        some notification is unread. */
    predicate ShowsMarkAll(): (b: bool)
      reads this
      ensures b <==> exists i :: 0 <= i < |notifications| && !notifications[i].read
    {
      UnreadCount() > 0
    }
  }

  /** Of the five demo notifications three start unread, so the page opens
      with the button visible. */
  lemma DemoStartsWithThreeUnread()
    ensures CountUnread(DemoData.DemoNotifications()) == 3
  {
  }
}
