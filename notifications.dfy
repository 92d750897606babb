/** The notification list shared by the header dropdown, the client
    dashboard's alerts and the sub-broker's panel: each keeps its own copy
    in component state and changes it with the same three list operations. */
module Notifications {
  import opened Common

  datatype Notification = Notification(
    id: nat,
    kind: string,
    title: string,
    message: string,
    timestamp: string,
    priority: string,
    actionRequired: bool,
    isRead: bool)

  /** No two entries share an id, as in every list the components start
      with. */
  predicate UniqueIds(l: seq<Notification>) {
    forall i, j :: 0 <= i < j < |l| ==> l[i].id != l[j].id
  }

  // ---------------------------------------------------------------------
  // Counting

  /** `notifications.filter(n => !n.isRead).length`. */
  function UnreadCount(l: seq<Notification>): (r: nat)
    ensures r <= |l|
    ensures r == 0 <==> forall i :: 0 <= i < |l| ==> l[i].isRead
  {
    if l == [] then 0
    else (if l[0].isRead then 0 else 1) + UnreadCount(l[1..])
  }

  /** The unread entries carrying `id`. */
  function UnreadWithId(l: seq<Notification>, id: nat): (r: nat)
    ensures r <= UnreadCount(l)
  {
    if l == [] then 0
    else (if !l[0].isRead && l[0].id == id then 1 else 0) + UnreadWithId(l[1..], id)
  }

  /** With unique ids, the entry at `k` is the only one that can carry its
      id, so it alone decides whether an unread entry carries it. */
  lemma {:induction false} UnreadWithUniqueId(l: seq<Notification>, k: nat)
    requires UniqueIds(l) && k < |l|
    ensures UnreadWithId(l, l[k].id) == if l[k].isRead then 0 else 1
  {
    if k == 0 {
      NoUnreadWithId(l[1..], l[0].id);
    } else {
      UnreadWithUniqueId(l[1..], k - 1);
    }
  }

  lemma {:induction false} NoUnreadWithId(l: seq<Notification>, id: nat)
    requires forall i :: 0 <= i < |l| ==> l[i].id != id
    ensures UnreadWithId(l, id) == 0
  {
    if l != [] {
      NoUnreadWithId(l[1..], id);
    }
  }

  // ---------------------------------------------------------------------
  // Marking read

  /** `markAsRead(id)`: every entry with that id becomes read; every other
      entry, the length and the order stay as they were. */
  function MarkRead(l: seq<Notification>, id: nat): (r: seq<Notification>)
    ensures |r| == |l|
    ensures forall i :: 0 <= i < |l| ==> r[i] == l[i].(isRead := r[i].isRead)
    ensures forall i :: 0 <= i < |l| ==> r[i].isRead == (l[i].isRead || l[i].id == id)
  {
    if l == [] then []
    else [if l[0].id == id then l[0].(isRead := true) else l[0]] + MarkRead(l[1..], id)
  }

  /** Marking the same id twice is the same as marking it once. */
  lemma MarkReadIdempotent(l: seq<Notification>, id: nat)
    ensures MarkRead(MarkRead(l, id), id) == MarkRead(l, id)
  {
  }

  /** The unread count falls by the number of unread entries carrying the
      id. */
  lemma {:induction false} MarkReadCount(l: seq<Notification>, id: nat)
    ensures UnreadCount(MarkRead(l, id)) == UnreadCount(l) - UnreadWithId(l, id)
  {
    if l != [] {
      MarkReadCount(l[1..], id);
      assert MarkRead(l, id)[1..] == MarkRead(l[1..], id);
    }
  }

  /** With unique ids, marking one unread entry read lowers the count by
      exactly one, and marking a read entry changes nothing. */
  lemma MarkOneUnread(l: seq<Notification>, k: nat)
    requires UniqueIds(l) && k < |l|
    ensures !l[k].isRead ==> UnreadCount(MarkRead(l, l[k].id)) == UnreadCount(l) - 1
    ensures l[k].isRead ==> UnreadCount(MarkRead(l, l[k].id)) == UnreadCount(l)
  {
    MarkReadCount(l, l[k].id);
    UnreadWithUniqueId(l, k);
  }

  /** With unique ids, marking the id of the entry at `k` changes that
      entry alone. */
  lemma MarkReadOne(l: seq<Notification>, k: nat)
    requires UniqueIds(l) && k < |l|
    ensures MarkRead(l, l[k].id) == l[k := l[k].(isRead := true)]
  {
    var r := MarkRead(l, l[k].id);
    forall i | 0 <= i < |l|
      ensures r[i] == l[k := l[k].(isRead := true)][i]
    {
      if i != k {
        assert l[i].id != l[k].id;
      }
    }
  }

  /** `markAllAsRead`: every entry becomes read, nothing else changes. */
  function MarkAllRead(l: seq<Notification>): (r: seq<Notification>)
    ensures |r| == |l|
    ensures forall i :: 0 <= i < |l| ==> r[i] == l[i].(isRead := true)
  {
    if l == [] then [] else [l[0].(isRead := true)] + MarkAllRead(l[1..])
  }

  /** After marking everything read nothing is unread, and the list still
      holds the same ids in the same order. */
  lemma AllReadCount(l: seq<Notification>)
    ensures UnreadCount(MarkAllRead(l)) == 0
    ensures forall i :: 0 <= i < |l| ==> MarkAllRead(l)[i].id == l[i].id
  {
  }

  /** Marking preserves unique ids. */
  lemma MarkingKeepsIdsUnique(l: seq<Notification>, id: nat)
    requires UniqueIds(l)
    ensures UniqueIds(MarkRead(l, id)) && UniqueIds(MarkAllRead(l))
  {
  }

  // ---------------------------------------------------------------------
  // Dismissing

  /** `dismissNotification(id)`: the entries with that id go, the rest stay
      in order. */
  function Dismiss(l: seq<Notification>, id: nat): (r: seq<Notification>)
    ensures |r| <= |l| && multiset(r) <= multiset(l)
    ensures forall i :: 0 <= i < |r| ==> r[i].id != id
    ensures forall i :: 0 <= i < |l| && l[i].id != id ==> l[i] in r
  {
    Filter(l, (n: Notification) => n.id != id)
  }

  /** Dismissing an id nobody carries leaves the list as it was. */
  lemma DismissAbsent(l: seq<Notification>, id: nat)
    requires forall i :: 0 <= i < |l| ==> l[i].id != id
    ensures Dismiss(l, id) == l
  {
    FilterKeepsAll(l, (n: Notification) => n.id != id);
  }

  /** Dismissing works piecewise: entries before and after are kept in
      their places relative to each other. */
  lemma DismissConcat(a: seq<Notification>, b: seq<Notification>, id: nat)
    ensures Dismiss(a + b, id) == Dismiss(a, id) + Dismiss(b, id)
  {
    FilterConcat(a, b, (n: Notification) => n.id != id);
  }

  /** With unique ids, dismissing the entry at `k` removes just that entry. */
  lemma DismissOne(l: seq<Notification>, k: nat)
    requires UniqueIds(l) && k < |l|
    ensures Dismiss(l, l[k].id) == l[..k] + l[k + 1..]
    ensures UniqueIds(Dismiss(l, l[k].id))
  {
    DismissOnly(l, k);
    RemovingKeepsIdsUnique(l, k);
  }

  /** Taking one entry out of a list without repeated ids leaves none. */
  lemma RemovingKeepsIdsUnique(l: seq<Notification>, k: nat)
    requires UniqueIds(l) && k < |l|
    ensures UniqueIds(l[..k] + l[k + 1..])
  {
    var r := l[..k] + l[k + 1..];
    forall i, j | 0 <= i < j < |r|
      ensures r[i].id != r[j].id
    {
      var i' := if i < k then i else i + 1;
      var j' := if j < k then j else j + 1;
      assert r[i] == l[i'] && r[j] == l[j'];
    }
  }

  lemma {:induction false} DismissOnly(l: seq<Notification>, k: nat)
    requires k < |l| && forall i :: 0 <= i < |l| && i != k ==> l[i].id != l[k].id
    ensures Dismiss(l, l[k].id) == l[..k] + l[k + 1..]
  {
    if k == 0 {
      DismissHead(l);
    } else {
      var rest := l[1..];
      assert rest[k - 1] == l[k];
      DismissOnly(rest, k - 1);
      KeepHead(l, l[k].id);
      DropAround(l, k);
    }
  }

  /** Dropping entry `k > 0` of a list is keeping its head and dropping
      entry `k - 1` of its tail. */
  lemma DropAround(l: seq<Notification>, k: nat)
    requires 0 < k < |l|
    ensures [l[0]] + (l[1..][..k - 1] + l[1..][k..]) == l[..k] + l[k + 1..]
  {
    assert l[1..][..k - 1] == l[1..k];
    assert l[1..][k..] == l[k + 1..];
    assert [l[0]] + l[1..k] == l[..k];
  }

  lemma DismissHead(l: seq<Notification>)
    requires |l| > 0 && forall i :: 0 < i < |l| ==> l[i].id != l[0].id
    ensures Dismiss(l, l[0].id) == l[1..]
  {
    assert l == [l[0]] + l[1..];
    DismissConcat([l[0]], l[1..], l[0].id);
    assert Dismiss([l[0]], l[0].id) == [] by {
      assert [l[0]][1..] == [];
    }
    DismissAbsent(l[1..], l[0].id);
  }

  lemma KeepHead(l: seq<Notification>, id: nat)
    requires |l| > 0 && l[0].id != id
    ensures Dismiss(l, id) == [l[0]] + Dismiss(l[1..], id)
  {
    assert l == [l[0]] + l[1..];
    DismissConcat([l[0]], l[1..], id);
    assert Dismiss([l[0]], id) == [l[0]] by {
      assert [l[0]][1..] == [];
    }
  }

  // ---------------------------------------------------------------------
  // Showing the first few

  /** `notifications.slice(0, k)`: the first `min(k, n)` entries. */
  function FirstFew(l: seq<Notification>, k: nat): (r: seq<Notification>)
    ensures |r| == if |l| < k then |l| else k
    ensures r == l[..|r|]
  {
    Slice(l, 0, k)
  }

  // ---------------------------------------------------------------------
  // Icons and colours of the header dropdown and the dashboard alerts

  /** `getNotificationIcon`: one icon per known type, a bell otherwise. */
  function NotificationIcon(kind: string): (r: string)
    ensures r == "Bell" <==> kind !in {"deadline", "allotment", "payment", "listing"}
  {
    match kind
    case "deadline" => "Clock"
    case "allotment" => "Award"
    case "payment" => "CreditCard"
    case "listing" => "TrendingUp"
    case _ => "Bell"
  }

  /** `getIconColor`: a high or medium priority decides the colour before
      the type does; only allotments and listings have a colour of their
      own. The alert cards' `CardColor` is a parallel table on the same
      cases. */
  function IconColor(kind: string, priority: string): (r: string)
    ensures priority == "high" ==> r == "text-error"
    ensures priority == "medium" ==> r == "text-warning"
    ensures priority !in {"high", "medium"} && kind == "allotment" ==> r == "text-success"
    ensures priority !in {"high", "medium"} && kind == "listing" ==> r == "text-primary"
    ensures priority !in {"high", "medium"} && kind !in {"allotment", "listing"} ==> r == "text-muted-foreground"
  {
    if priority == "high" then "text-error"
    else if priority == "medium" then "text-warning"
    else match kind
      case "allotment" => "text-success"
      case "listing" => "text-primary"
      case _ => "text-muted-foreground"
  }
}
