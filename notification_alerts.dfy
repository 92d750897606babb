/** The client dashboard's notification alerts: the first three entries,
    or all of them once 'Show All' is pressed, each of which can be marked
    read or dismissed. */
module NotificationAlerts {
  import opened Notifications

  /** How many entries are shown while the list is collapsed. */
  const CollapsedLimit: nat := 3

  class Alerts {
    var notifications: seq<Notification>
    var showAll: bool

    ghost predicate Valid()
      reads this
    {
      UniqueIds(notifications)
    }

    constructor(initial: seq<Notification>)
      requires UniqueIds(initial)
      ensures Valid() && notifications == initial && !showAll
    {
      notifications := initial;
      showAll := false;
    }

    /** `displayedNotifications`. */
    function Displayed(): seq<Notification>
      reads this
    {
      if showAll then notifications else FirstFew(notifications, CollapsedLimit)
    }

    /** The component renders nothing for an empty list. */
    predicate RendersNothing()
      reads this
    {
      |notifications| == 0
    }

    /** The 'Show All' toggle. */
    predicate OffersToggle()
      reads this
    {
      |notifications| > CollapsedLimit
    }

    /** Collapsed, at most three entries show, and they are the first
        ones; expanded, all of them show. Without the toggle everything is
        already on screen. */
    lemma DisplayedEntries()
      ensures !showAll ==> |Displayed()| <= CollapsedLimit && Displayed() == notifications[..|Displayed()|]
      ensures showAll ==> Displayed() == notifications
      ensures !OffersToggle() ==> Displayed() == notifications
    {
    }

    method ToggleShowAll()
      requires OffersToggle()
      modifies this
      ensures showAll == !old(showAll) && notifications == old(notifications)
    {
      showAll := !showAll;
    }

    /** `markAsRead`, from an entry's check or action button: the `k`-th
        displayed entry becomes read, nothing else changes. */
    method MarkAsRead(k: nat)
      requires Valid() && k < |Displayed()|
      modifies this
      ensures Valid() && showAll == old(showAll)
      ensures notifications == old(notifications[k := notifications[k].(isRead := true)])
      ensures UnreadCount(notifications) == UnreadCount(old(notifications)) - (if old(notifications[k].isRead) then 0 else 1)
    {
      DisplayedEntries();
      var entry := Displayed()[k];
      assert entry == notifications[k];
      MarkingKeepsIdsUnique(notifications, entry.id);
      MarkOneUnread(notifications, k);
      MarkReadOne(notifications, k);
      notifications := MarkRead(notifications, entry.id);
    }

    /** `dismissNotification`: the `k`-th displayed entry leaves the list,
        the rest keep their order. */
    method DismissNotification(k: nat)
      requires Valid() && k < |Displayed()|
      modifies this`notifications
      ensures Valid() && showAll == old(showAll)
      ensures notifications == old(notifications[..k] + notifications[k + 1..])
    {
      DisplayedEntries();
      var entry := Displayed()[k];
      assert entry == notifications[k];
      DismissOne(notifications, k);
      notifications := Dismiss(notifications, entry.id);
    }
  }

  /** `getNotificationColor`: the card colour, where priority again comes
      before type; a table parallel to the dropdown's `IconColor`. */
  function CardColor(kind: string, priority: string): (r: string)
    ensures priority == "high" ==> r == "border-error/20 bg-error/5"
    ensures priority == "medium" ==> r == "border-warning/20 bg-warning/5"
    ensures priority !in {"high", "medium"} && kind == "allotment" ==> r == "border-success/20 bg-success/5"
    ensures priority !in {"high", "medium"} && kind == "listing" ==> r == "border-primary/20 bg-primary/5"
    ensures priority !in {"high", "medium"} && kind !in {"allotment", "listing"} ==> r == "border-border bg-muted/30"
  {
    if priority == "high" then "border-error/20 bg-error/5"
    else if priority == "medium" then "border-warning/20 bg-warning/5"
    else match kind
      case "allotment" => "border-success/20 bg-success/5"
      case "listing" => "border-primary/20 bg-primary/5"
      case _ => "border-border bg-muted/30"
  }
}
