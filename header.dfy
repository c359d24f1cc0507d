/**
 * The notification bell in the header (components/Header.tsx): the unread count,
 * its badge, marking everything read, and a fetch replacing the notifications.
 */
module Header {
  import opened Records
  import opened Lists
  import opened Ai

  predicate Unread(n: Notification) {
    !n.read
  }

  function UnreadCount(notifications: seq<Notification>): (c: nat)
    ensures c <= |notifications|
  {
    Count(notifications, Unread)
  }

  /** There is an unread notification exactly when the count is positive, which is when the badge shows. */
  lemma {:induction false} BadgeShownIffUnread(notifications: seq<Notification>)
    ensures UnreadCount(notifications) > 0 <==> exists i :: 0 <= i < |notifications| && !notifications[i].read
  {
    if notifications != [] {
      BadgeShownIffUnread(notifications[1..]);
      assert forall i :: 1 <= i < |notifications| ==> notifications[i] == notifications[1..][i - 1];
    }
  }

  /** `markAllAsRead`: every notification read, in the same order, nothing else about it changed. */
  function AllRead(notifications: seq<Notification>): (r: seq<Notification>)
    ensures |r| == |notifications|
    ensures forall i :: 0 <= i < |r| ==> r[i] == notifications[i].(read := true)
  {
    seq(|notifications|, i requires 0 <= i < |notifications| => notifications[i].(read := true))
  }

  /** After marking all read nothing is unread, and marking again changes nothing. */
  lemma AllReadClearsBadge(notifications: seq<Notification>)
    ensures UnreadCount(AllRead(notifications)) == 0
    ensures AllRead(AllRead(notifications)) == AllRead(notifications)
  {
    BadgeShownIffUnread(AllRead(notifications));
  }

  /** The bell's state; the fetch is passed in as what it resolves to. */
  class NotificationBell {
    var notifications: seq<Notification>
    var isFetchingNotifs: bool
    var showNotifications: bool

    constructor()
      ensures notifications == [] && !isFetchingNotifs && !showNotifications
    {
      notifications := [];
      isFetchingNotifs := false;
      showNotifications := false;
    }

    /** The badge shows the unread count and is rendered only when it is positive. */
    method Badge() returns (shown: bool, count: nat)
      ensures count == UnreadCount(notifications)
      ensures shown <==> exists i :: 0 <= i < |notifications| && !notifications[i].read
    {
      count := UnreadCount(notifications);
      BadgeShownIffUnread(notifications);
      shown := count > 0;
    }

    /**
     * `fetchNotifs`: the fetched list replaces the whole list. The await has no
     * `try`, so a failed fetch leaves the list and the raised fetching flag as they are.
     */
    method FetchNotifs(fetched: Outcome<seq<Notification>>)
      modifies this
      ensures fetched.Answered? ==> notifications == fetched.value && !isFetchingNotifs
      ensures fetched.Threw? ==> notifications == old(notifications) && isFetchingNotifs
      ensures showNotifications == old(showNotifications)
    {
      isFetchingNotifs := true;
      if fetched.Answered? {
        notifications := fetched.value;
        isFetchingNotifs := false;
      }
    }

    method MarkAllAsRead()
      modifies this`notifications
      ensures notifications == AllRead(old(notifications))
    {
      notifications := AllRead(notifications);
    }
  }
}
