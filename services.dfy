/**
 * `clear_notification_service` (core/services.py): mark every notification
 * of a user read, then query that user's unread notifications.  Rendering
 * the result is not modelled.
 */
module Services {
  import opened Seqs
  import opened Models
  import opened Store

  /** The bulk `Notifications.objects.filter(user=user).update(is_read=True)`. */
  function MarkAllRead(ns: seq<Notification>, user: UserId): (r: seq<Notification>)
    ensures |r| == |ns|
    ensures forall i :: 0 <= i < |ns| && ns[i].user == user ==> r[i].isRead
    ensures forall i :: 0 <= i < |ns| && ns[i].user != user ==> r[i] == ns[i]
    ensures forall i :: 0 <= i < |ns| ==> r[i] == ns[i].(isRead := r[i].isRead)
  {
    if ns == [] then []
    else
      var head := if ns[0].user == user then ns[0].(isRead := true) else ns[0];
      [head] + MarkAllRead(ns[1..], user)
  }

  function UnreadOf(user: UserId): Notification -> bool
  {
    (n: Notification) => n.user == user && !n.isRead
  }

  /** `Notifications.objects.filter(user=user, is_read=False)`, newest first. */
  function UnreadNotifications(ns: seq<Notification>, user: UserId): (r: seq<Notification>)
    ensures forall n :: n in r <==> n in ns && n.user == user && !n.isRead
    ensures IsSubsequence(Reverse(r), ns)
  {
    var unread := Filter(ns, UnreadOf(user));
    FilterMembers(ns, UnreadOf(user));
    var r := Reverse(unread);
    assert forall n :: n in r <==> n in unread by {
      forall n | n in r ensures n in unread {
        var i :| 0 <= i < |r| && r[i] == n;
        assert n == unread[|unread| - 1 - i];
      }
      forall n | n in unread ensures n in r {
        var i :| 0 <= i < |unread| && unread[i] == n;
        assert r[|unread| - 1 - i] == n;
      }
    }
    ReverseReverse(unread);
    FilterIsSubsequence(ns, UnreadOf(user));
    r
  }

  /** After the update the user has no unread notification left. */
  lemma NothingUnreadAfterClear(ns: seq<Notification>, user: UserId)
    ensures UnreadNotifications(MarkAllRead(ns, user), user) == []
  {
    var ms := MarkAllRead(ns, user);
    FilterNone(ms, UnreadOf(user));
  }

  /** A second clear leaves the table as the first one left it. */
  lemma {:induction false} MarkAllReadIdempotent(ns: seq<Notification>, user: UserId)
    ensures MarkAllRead(MarkAllRead(ns, user), user) == MarkAllRead(ns, user)
  {
    if ns != [] {
      MarkAllReadIdempotent(ns[1..], user);
    }
  }

  /** `clear_notification_service(user)`: returns the (empty) unread list it renders. */
  method ClearNotificationService(l: Ledger, user: UserId) returns (unread: seq<Notification>)
    modifies l`notifications
    ensures l.notifications == MarkAllRead(old(l.notifications), user)
    ensures unread == UnreadNotifications(l.notifications, user)
    ensures unread == []
  {
    l.notifications := MarkAllRead(l.notifications, user);
    unread := UnreadNotifications(l.notifications, user);
    NothingUnreadAfterClear(old(l.notifications), user);
  }
}
