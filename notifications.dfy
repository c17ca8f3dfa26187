/**
 * The notification bell (src/components/NotificationPanel.tsx): a list of
 * notifications, an unread badge, a dismiss button on every unread entry
 * that marks it read, and the icon and colour of each notification type.
 */
module Notifications {
  import opened Base

  /** `type` is 'success', 'warning' or 'info'. */
  datatype Notification = Notification(
    id: string,
    kind: string,
    title: string,
    message: string,
    timestamp: string,
    read: bool)

  /** The three notifications the panel starts with. */
  function SeedNotifications(): seq<Notification>
  {
    [ Notification("1", "success", "Order Completed", "Order #12345 has been successfully delivered", "5 minutes ago", false),
      Notification("2", "warning", "Payment Overdue", "Invoice INV-2024-001 is overdue by 3 days", "1 hour ago", false),
      Notification("3", "info", "New Customer", "John Doe has been added to your customer list", "2 hours ago", true) ]
  }

  predicate IsUnread(n: Notification)
  {
    !n.read
  }

  /** `unreadCount`: how many notifications are not read yet. */
  function UnreadCount(ns: seq<Notification>): (r: nat)
    ensures r <= |ns|
  {
    |Filter(IsUnread, ns)|
  }

  /** Unread notifications carrying the given id. */
  function UnreadWithId(ns: seq<Notification>, id: string): (r: nat)
    ensures r <= UnreadCount(ns)
  {
    |Filter((n: Notification) => n.id == id, Filter(IsUnread, ns))|
  }

  /** With distinct ids at most one unread notification carries a given id. */
  lemma {:induction false} UnreadWithIdAtMostOne(ns: seq<Notification>, id: string)
    requires forall i, j :: 0 <= i < j < |ns| ==> ns[i].id != ns[j].id
    ensures UnreadWithId(ns, id) <= 1
  {
    if ns != [] {
      UnreadWithIdAtMostOne(ns[1..], id);
      if ns[0].id == id {
        var u := Filter(IsUnread, ns[1..]);
        forall i | 0 <= i < |u| ensures u[i].id != id {
          assert u[i] in u;
          var j :| 0 <= j < |ns[1..]| && ns[1..][j] == u[i];
          assert ns[j + 1] == u[i];
        }
        FilterNone((n: Notification) => n.id == id, u);
      }
    }
  }

  /** `markAsRead(id)`: the notifications with that id become read, the rest stay as they are. */
  function MarkRead(ns: seq<Notification>, id: string): (r: seq<Notification>)
    ensures |r| == |ns|
  {
    if ns == [] then []
    else [if ns[0].id == id then ns[0].(read := true) else ns[0]] + MarkRead(ns[1..], id)
  }

  /**
   * Marking changes only the read flag, and only of the notifications with
   * the id: each of those ends up read, every other one is unchanged, and
   * the list keeps its length and order.
   */
  lemma {:induction false} MarkReadEffect(ns: seq<Notification>, id: string)
    ensures var r := MarkRead(ns, id);
      && |r| == |ns|
      && forall i :: 0 <= i < |ns| ==>
           && r[i] == ns[i].(read := r[i].read)
           && (r[i].read <==> ns[i].read || ns[i].id == id)
  {
    if ns != [] {
      MarkReadEffect(ns[1..], id);
    }
  }

  /** Marking the same id twice is marking it once. */
  lemma {:induction false} MarkReadIdempotent(ns: seq<Notification>, id: string)
    ensures MarkRead(MarkRead(ns, id), id) == MarkRead(ns, id)
  {
    if ns != [] {
      MarkReadIdempotent(ns[1..], id);
      assert MarkRead(ns, id)[1..] == MarkRead(ns[1..], id);
    }
  }

  /** The order in which two notifications are dismissed does not matter. */
  lemma {:induction false} MarkReadCommutes(ns: seq<Notification>, a: string, b: string)
    ensures MarkRead(MarkRead(ns, a), b) == MarkRead(MarkRead(ns, b), a)
  {
    if ns != [] {
      MarkReadCommutes(ns[1..], a, b);
      assert MarkRead(ns, a)[1..] == MarkRead(ns[1..], a);
      assert MarkRead(ns, b)[1..] == MarkRead(ns[1..], b);
    }
  }

  /**
   * The unread count drops by exactly the number of unread notifications
   * carrying the id, so it never increases.
   */
  lemma {:induction false} MarkReadUnreadCount(ns: seq<Notification>, id: string)
    ensures UnreadCount(MarkRead(ns, id)) == UnreadCount(ns) - UnreadWithId(ns, id)
    ensures UnreadCount(MarkRead(ns, id)) <= UnreadCount(ns)
  {
    if ns != [] {
      MarkReadUnreadCount(ns[1..], id);
      assert MarkRead(ns, id)[1..] == MarkRead(ns[1..], id);
    }
  }

  /** The red badge on the bell, showing the unread count. */
  predicate ShowBadge(ns: seq<Notification>)
  {
    UnreadCount(ns) > 0
  }

  /** The dismiss button of a notification. */
  predicate ShowDismiss(n: Notification)
  {
    !n.read
  }

  /** The badge is shown exactly when some notification has its dismiss button. */
  lemma BadgeIffDismissible(ns: seq<Notification>)
    ensures ShowBadge(ns) <==> exists i :: 0 <= i < |ns| && ShowDismiss(ns[i])
  {
    if ShowBadge(ns) {
      var n := Filter(IsUnread, ns)[0];
      assert n in Filter(IsUnread, ns);
      var i :| 0 <= i < |ns| && ns[i] == n;
    }
    if i :| 0 <= i < |ns| && ShowDismiss(ns[i]) {
      FilterKeeps(IsUnread, ns, ns[i]);
    }
  }

  /**
   * Dismissing a notification whose button is shown lowers the unread count;
   * when ids are distinct, by exactly one.
   */
  lemma DismissLowersCount(ns: seq<Notification>, k: nat)
    requires k < |ns| && ShowDismiss(ns[k])
    ensures UnreadCount(MarkRead(ns, ns[k].id)) < UnreadCount(ns)
    ensures (forall i, j :: 0 <= i < j < |ns| ==> ns[i].id != ns[j].id) ==>
      UnreadCount(MarkRead(ns, ns[k].id)) == UnreadCount(ns) - 1
  {
    var id := ns[k].id;
    MarkReadUnreadCount(ns, id);
    FilterKeeps(IsUnread, ns, ns[k]);
    FilterKeeps((n: Notification) => n.id == id, Filter(IsUnread, ns), ns[k]);
    if forall i, j :: 0 <= i < j < |ns| ==> ns[i].id != ns[j].id {
      UnreadWithIdAtMostOne(ns, id);
    }
  }

  /** The panel starts with two unread notifications; dismissing the first leaves one. */
  lemma SeedUnread()
    ensures UnreadCount(SeedNotifications()) == 2
    ensures ShowBadge(SeedNotifications())
    ensures UnreadCount(MarkRead(SeedNotifications(), "1")) == 1
    ensures MarkRead(SeedNotifications(), "3") == SeedNotifications()
  {
    var ns := SeedNotifications();
    assert ns[1..][1..][1..] == [];
    DismissLowersCount(ns, 0);
  }

  datatype Icon = CheckCircle | AlertCircle | InfoCircle

  /** `getIcon`. */
  function IconOf(kind: string): Icon
  {
    if kind == "success" then CheckCircle
    else if kind == "warning" then AlertCircle
    else InfoCircle
  }

  /** `getIconColor`. */
  function IconColor(kind: string): string
  {
    if kind == "success" then "text-green-500"
    else if kind == "warning" then "text-yellow-500"
    else "text-blue-500"
  }

  /**
   * Success and warning have an icon and a colour of their own; every other
   * type, "info" included, looks like "info". Icon and colour always agree.
   */
  lemma IconMapping(kind: string)
    ensures IconOf(kind) == CheckCircle <==> kind == "success"
    ensures IconOf(kind) == AlertCircle <==> kind == "warning"
    ensures kind != "success" && kind != "warning" ==> IconOf(kind) == IconOf("info") && IconColor(kind) == IconColor("info")
    ensures forall other: string :: IconOf(other) == IconOf(kind) <==> IconColor(other) == IconColor(kind)
  {
  }

  /** The panel's state: the notification list, replaced on every dismissal. */
  class NotificationPanel {
    var notifications: seq<Notification>

    constructor ()
      ensures notifications == SeedNotifications()
    {
      notifications := SeedNotifications();
    }

    function Unread(): (r: nat)
      reads this
      ensures r <= |notifications|
      ensures r > 0 <==> exists i :: 0 <= i < |notifications| && ShowDismiss(notifications[i])
    {
      BadgeIffDismissible(notifications);
      UnreadCount(notifications)
    }

    /** The dismiss button's `markAsRead`. */
    method MarkAsRead(id: string)
      modifies this
      ensures notifications == MarkRead(old(notifications), id)
      ensures Unread() == old(Unread()) - UnreadWithId(old(notifications), id)
    {
      MarkReadUnreadCount(notifications, id);
      notifications := MarkRead(notifications, id);
    }
  }
}
