/** The header's notification dropdown: the five most recent entries, a
    badge with the unread count, and buttons to mark entries read or
    dismiss them. */
module NotificationDropdown {
  import opened Notifications

  /** How many entries the dropdown shows at most. */
  const RecentLimit: nat := 5

  class Dropdown {
    var notifications: seq<Notification>

    ghost predicate Valid()
      reads this
    {
      UniqueIds(notifications)
    }

    constructor(initial: seq<Notification>)
      requires UniqueIds(initial)
      ensures Valid() && notifications == initial
    {
      notifications := initial;
    }

    function Unread(): nat
      reads this
    {
      UnreadCount(notifications)
    }

    /** `recentNotifications`. */
    function Recent(): seq<Notification>
      reads this
    {
      FirstFew(notifications, RecentLimit)
    }

    /** The 'View all notifications' footer. */
    predicate ShowsViewAll()
      reads this
    {
      |notifications| > RecentLimit
    }

    /** The 'All caught up!' footer. */
    predicate AllCaughtUp()
      reads this
    {
      Unread() == 0 && |notifications| > 0
    }

    /** The footer appears exactly when some entries are not among the
        recent ones, and the recent ones are the list's head. */
    lemma ViewAllIffHidden()
      ensures ShowsViewAll() <==> |Recent()| < |notifications|
      ensures Recent() == notifications[..|Recent()|]
      ensures |Recent()| <= RecentLimit
    {
    }

    /** `markAsRead` from an entry's action button. */
    method MarkAsRead(id: nat)
      requires Valid()
      modifies this
      ensures Valid()
      ensures notifications == MarkRead(old(notifications), id)
    {
      MarkingKeepsIdsUnique(notifications, id);
      notifications := MarkRead(notifications, id);
    }

    /** A click on the `k`-th recent entry marks it read only if it is
        still unread, and then the badge drops by exactly one. */
    method ClickEntry(k: nat)
      requires Valid() && k < |Recent()|
      modifies this
      ensures Valid()
      ensures old(notifications[k].isRead) ==> notifications == old(notifications)
      ensures !old(notifications[k].isRead) ==>
        notifications == MarkRead(old(notifications), old(notifications[k].id))
      ensures !old(notifications[k].isRead) ==> Unread() == old(Unread()) - 1
    {
      var entry := Recent()[k];
      assert entry == notifications[k];
      if !entry.isRead {
        MarkOneUnread(notifications, k);
        MarkAsRead(entry.id);
      }
    }

    /** `dismissNotification`: the entry leaves the list, the rest keep
        their order. */
    method DismissNotification(k: nat)
      requires Valid() && k < |Recent()|
      modifies this
      ensures Valid()
      ensures notifications == old(notifications[..k] + notifications[k + 1..])
    {
      var entry := Recent()[k];
      assert entry == notifications[k];
      DismissOne(notifications, k);
      notifications := Dismiss(notifications, entry.id);
    }

    /** 'Mark all read', offered only while something is unread. */
    method MarkAllAsRead()
      requires Valid() && Unread() > 0
      modifies this
      ensures Valid()
      ensures notifications == MarkAllRead(old(notifications))
      ensures Unread() == 0
      ensures |notifications| > 0 ==> AllCaughtUp()
    {
      MarkingKeepsIdsUnique(notifications, 0);
      AllReadCount(notifications);
      notifications := MarkAllRead(notifications);
    }
  }
}
