/** The notification store: the list of notifications the provider holds, the
    derived unread count, and the operations that replace the list. Ids and
    timestamps, which the provider takes from the clock, are parameters. */
module Notifications {
  import opened Prelude

  datatype Kind = Info | Success | Warning | Error

  datatype Notification = Notification(
    id: string,
    kind: Kind,
    title: string,
    message: string,
    read: bool,
    createdAt: string,
    actionUrl: Option<string>)

  predicate IsUnread(n: Notification) {
    !n.read
  }

  /** The number of notifications not yet read. */
  function CountUnread(ns: seq<Notification>): (c: nat)
    ensures c <= |ns|
    ensures c == 0 <==> forall i :: 0 <= i < |ns| ==> ns[i].read
  {
    var r := Filter(ns, IsUnread);
    assert r == [] <== forall i :: 0 <= i < |ns| ==> ns[i].read by {
      if r != [] {
        assert r[0] in r;
      }
    }
    assert r == [] ==> forall i :: 0 <= i < |ns| ==> ns[i].read by {
      if r == [] {
        forall i | 0 <= i < |ns| ensures ns[i].read {
          assert ns[i] in ns;
        }
      }
    }
    |r|
  }

  lemma CountUnreadConcat(a: seq<Notification>, b: seq<Notification>)
    ensures CountUnread(a + b) == CountUnread(a) + CountUnread(b)
  {
    FilterConcat(a, b, IsUnread);
  }

  /** The entry `addNotification` puts in front: the caller's fields, unread. */
  function NewNotification(kind: Kind, title: string, message: string, actionUrl: Option<string>,
                           id: string, createdAt: string): (n: Notification)
    ensures !n.read && n.id == id && n.createdAt == createdAt
    ensures n.kind == kind && n.title == title && n.message == message && n.actionUrl == actionUrl
  {
    Notification(id, kind, title, message, false, createdAt, actionUrl)
  }

  /** Every entry carrying `id` with `read` set; all other entries as they were, in place. */
  function MarkedRead(ns: seq<Notification>, id: string): (r: seq<Notification>)
    ensures |r| == |ns|
    ensures forall i :: 0 <= i < |ns| ==>
              r[i].(read := ns[i].read) == ns[i] && r[i].read == (ns[i].read || ns[i].id == id)
  {
    seq(|ns|, i requires 0 <= i < |ns| => if ns[i].id == id then ns[i].(read := true) else ns[i])
  }

  /** Every entry with `read` set, in place. */
  function AllRead(ns: seq<Notification>): (r: seq<Notification>)
    ensures |r| == |ns|
    ensures forall i :: 0 <= i < |ns| ==> r[i].(read := ns[i].read) == ns[i] && r[i].read
  {
    seq(|ns|, i requires 0 <= i < |ns| => ns[i].(read := true))
  }

  function DiffersFrom(id: string): (keep: Notification -> bool) {
    (n: Notification) => n.id != id
  }

  /** The entries whose id is not `id`, in their order. */
  function Without(ns: seq<Notification>, id: string): (r: seq<Notification>)
    ensures |r| <= |ns|
    ensures forall n :: n in r <==> n in ns && n.id != id
  {
    Filter(ns, DiffersFrom(id))
  }

  /** Marking an id read never raises the unread count, and lowers it exactly
      when some unread entry carries that id. */
  lemma MarkedReadUnreadCount(ns: seq<Notification>, id: string)
    ensures CountUnread(MarkedRead(ns, id)) <= CountUnread(ns)
    ensures CountUnread(MarkedRead(ns, id)) < CountUnread(ns) <==>
              exists i :: 0 <= i < |ns| && !ns[i].read && ns[i].id == id
  {
    var r := MarkedRead(ns, id);
    FilterCountMonotone(ns, r, IsUnread);
    if exists i :: 0 <= i < |ns| && !ns[i].read && ns[i].id == id {
      var i :| 0 <= i < |ns| && !ns[i].read && ns[i].id == id;
      assert IsUnread(ns[i]) && !IsUnread(r[i]);
    } else {
      assert r == ns;
    }
  }

  /** Marking the same id twice is marking it once. */
  lemma MarkedReadIdempotent(ns: seq<Notification>, id: string)
    ensures MarkedRead(MarkedRead(ns, id), id) == MarkedRead(ns, id)
  {
  }

  /** Marking an id that no entry carries changes nothing. */
  lemma MarkedReadUnknownId(ns: seq<Notification>, id: string)
    requires forall i :: 0 <= i < |ns| ==> ns[i].id != id
    ensures MarkedRead(ns, id) == ns
  {
  }

  /** After marking everything read nothing is unread. */
  lemma AllReadNoneUnread(ns: seq<Notification>)
    ensures CountUnread(AllRead(ns)) == 0
  {
  }

  /** Removal keeps relative order: it distributes over a split of the list. */
  lemma WithoutConcat(a: seq<Notification>, b: seq<Notification>, id: string)
    ensures Without(a + b, id) == Without(a, id) + Without(b, id)
  {
    FilterConcat(a, b, DiffersFrom(id));
  }

  /** On one entry, removal keeps it exactly when its id differs; with
      WithoutConcat this determines the result of every removal. */
  lemma WithoutSingle(n: Notification, id: string)
    ensures Without([n], id) == if n.id != id then [n] else []
  {
    assert [n][1..] == [];
  }

  /** Removing an id that no entry carries changes nothing. */
  lemma WithoutUnknownId(ns: seq<Notification>, id: string)
    requires forall i :: 0 <= i < |ns| ==> ns[i].id != id
    ensures Without(ns, id) == ns
  {
    FilterKeepsAll(ns, DiffersFrom(id));
  }

  /** Removing the same id twice is removing it once. */
  lemma WithoutIdempotent(ns: seq<Notification>, id: string)
    ensures Without(Without(ns, id), id) == Without(ns, id)
  {
    FilterIdempotent(ns, DiffersFrom(id));
  }

  /** The two entries the provider starts with, each stamped by its own
      reading of the clock. */
  function InitialNotifications(firstAt: string, secondAt: string): (ns: seq<Notification>)
    ensures |ns| == 2 && ns[0].id == "1" && ns[1].id == "2"
    ensures ns[0].createdAt == firstAt && ns[1].createdAt == secondAt
    ensures CountUnread(ns) == 2
  {
    var ns := [
      Notification("1", Info, "New Property Match",
                   "A new property matching your criteria has been listed.",
                   false, firstAt, Some("/search")),
      Notification("2", Success, "Viewing Confirmed",
                   "Your property viewing has been confirmed for tomorrow at 2 PM.",
                   false, secondAt, None)
    ];
    CountUnreadConcat([ns[0]], [ns[1]]);
    assert [ns[0]] + [ns[1]] == ns;
    ns
  }

  /** The provider's state: `notifications` is replaced by every operation. */
  class NotificationCenter {
    var notifications: seq<Notification>

    constructor (firstAt: string, secondAt: string)
      ensures notifications == InitialNotifications(firstAt, secondAt)
      ensures UnreadCount() == 2
    {
      notifications := InitialNotifications(firstAt, secondAt);
    }

    /** The derived `unreadCount` exposed beside the list. */
    function UnreadCount(): (c: nat)
      reads this
      ensures c <= |notifications|
      ensures c == CountUnread(notifications)
    {
      CountUnread(notifications)
    }

    method AddNotification(kind: Kind, title: string, message: string, actionUrl: Option<string>,
                           id: string, createdAt: string)
      modifies this
      ensures notifications ==
                [NewNotification(kind, title, message, actionUrl, id, createdAt)] + old(notifications)
      ensures |notifications| == |old(notifications)| + 1
      ensures UnreadCount() == old(UnreadCount()) + 1
    {
      var n := NewNotification(kind, title, message, actionUrl, id, createdAt);
      CountUnreadConcat([n], notifications);
      notifications := [n] + notifications;
    }

    method MarkAsRead(id: string)
      modifies this
      ensures notifications == MarkedRead(old(notifications), id)
      ensures UnreadCount() <= old(UnreadCount())
    {
      MarkedReadUnreadCount(notifications, id);
      notifications := MarkedRead(notifications, id);
    }

    method MarkAllAsRead()
      modifies this
      ensures notifications == AllRead(old(notifications))
      ensures UnreadCount() == 0
    {
      notifications := AllRead(notifications);
    }

    method RemoveNotification(id: string)
      modifies this
      ensures notifications == Without(old(notifications), id)
      ensures forall i :: 0 <= i < |notifications| ==> notifications[i].id != id
    {
      notifications := Without(notifications, id);
      assert forall i :: 0 <= i < |notifications| ==> notifications[i] in notifications;
    }

    method ClearAll()
      modifies this
      ensures notifications == []
      ensures UnreadCount() == 0
    {
      notifications := [];
    }
  }
}
