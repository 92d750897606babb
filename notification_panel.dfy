/** The sub-broker dashboard's notification panel: every entry, a click
    on one marks it read, 'Mark All Read' marks them all, and each entry
    carries an icon, a colour and a priority badge. */
module NotificationPanel {
  import opened Notifications

  /** `getNotificationIcon`: the panel's own icon table, with a bell for
      any type it does not list. */
  function PanelIcon(kind: string): (r: string)
    ensures r == "Bell" <==> kind !in {"allotment", "ipo_opening", "verification", "payment", "system"}
  {
    match kind
    case "allotment" => "Award"
    case "ipo_opening" => "TrendingUp"
    case "verification" => "AlertCircle"
    case "payment" => "CreditCard"
    case "system" => "Settings"
    case _ => "Bell"
  }

  /** `getNotificationColor`: a high priority is red whatever the type;
      otherwise allotments and payments are green, openings blue, and the
      rest muted. */
  function PanelColor(kind: string, priority: string): (r: string)
    ensures priority == "high" ==> r == "text-error"
    ensures priority != "high" ==>
      r == (if kind in {"allotment", "payment"} then "text-success"
            else if kind == "ipo_opening" then "text-primary"
            else "text-muted-foreground")
  {
    if priority == "high" then "text-error"
    else if kind == "allotment" then "text-success"
    else if kind == "ipo_opening" then "text-primary"
    else if kind == "payment" then "text-success"
    else "text-muted-foreground"
  }

  datatype Badge = Badge(color: string, caption: string)

  /** `getPriorityBadge`: a priority outside the table gets the 'Low'
      badge. */
  function PriorityBadge(priority: string): (r: Badge)
    ensures priority !in {"high", "medium"} ==> r == Badge("bg-muted text-muted-foreground", "Low")
    ensures priority == "high" ==> r.caption == "High"
    ensures priority == "medium" ==> r.caption == "Medium"
  {
    match priority
    case "high" => Badge("bg-error text-error-foreground", "High")
    case "medium" => Badge("bg-warning text-warning-foreground", "Medium")
    case _ => Badge("bg-muted text-muted-foreground", "Low")
  }

  class Panel {
    var notifications: seq<Notification>

    ghost predicate Valid()
      reads this
    {
      UniqueIds(notifications)
    }

    constructor(initial: seq<Notification>)
      requires UniqueIds(initial)
      ensures Valid() && notifications == initial
    {
      notifications := initial;
    }

    function Unread(): nat
      reads this
    {
      UnreadCount(notifications)
    }

    /** 'Mark All Read' is disabled exactly when every entry is read. */
    predicate MarkAllDisabled()
      reads this
    {
      Unread() == 0
    }

    /** A click on the `k`-th entry marks it read, nothing else changes. */
    method MarkAsRead(k: nat)
      requires Valid() && k < |notifications|
      modifies this
      ensures Valid()
      ensures notifications == old(notifications[k := notifications[k].(isRead := true)])
      ensures Unread() == old(Unread()) - (if old(notifications[k].isRead) then 0 else 1)
    {
      var id := notifications[k].id;
      MarkingKeepsIdsUnique(notifications, id);
      MarkOneUnread(notifications, k);
      MarkReadOne(notifications, k);
      notifications := MarkRead(notifications, id);
    }

    /** 'Mark All Read': every entry becomes read, and the button turns
        disabled. */
    method MarkAllAsRead()
      requires Valid() && !MarkAllDisabled()
      modifies this
      ensures Valid()
      ensures notifications == MarkAllRead(old(notifications))
      ensures forall i :: 0 <= i < |notifications| ==> notifications[i].isRead
      ensures MarkAllDisabled()
    {
      MarkingKeepsIdsUnique(notifications, 0);
      AllReadCount(notifications);
      notifications := MarkAllRead(notifications);
    }
  }
}
