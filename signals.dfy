/**
 * The post-save rules of core/signals.py, as functions: which activity rows a
 * Property or RentProperty save appends, and which capped, newest-first list
 * a new activity row pushes to its user's live channel.  The receivers that
 * apply them to the tables are methods of Store.Ledger.
 */
module Signals {
  import opened Wrappers
  import opened Seqs
  import opened Models

  /** The Property receiver: one "add" row for a new property, none for an update. */
  function PropertyActivities(created: bool): (kinds: seq<ActivityType>)
    ensures created ==> kinds == [AddActivity]
    ensures !created ==> kinds == []
  {
    if created then [AddActivity] else []
  }

  /**
   * The RentProperty receiver: "rent" for a new rental whatever its status;
   * on an update, "payment" when paid and "overdue" when overdue (two separate
   * tests, as written).
   */
  function RentalActivities(created: bool, status: Status): (kinds: seq<ActivityType>)
    ensures |kinds| <= 1
    ensures created ==> kinds == [RentActivity]
    ensures !created ==> (kinds == [PaymentActivity] <==> status == Paid)
    ensures !created ==> (kinds == [OverdueActivity] <==> status == Overdue)
    ensures !created ==> (kinds == [] <==> status == Unpaid || status == Pending)
  {
    if created then [RentActivity]
    else
      var paid := if status == Paid then [PaymentActivity] else [];
      var overdue := if status == Overdue then [OverdueActivity] else [];
      assert status == Overdue ==> (paid + overdue)[0] == OverdueActivity;
      paid + overdue
  }

  /** The activity kinds appended by a run of updates of one rental, with these statuses. */
  function UpdateActivities(statuses: seq<Status>): seq<ActivityType>
  {
    if statuses == [] then []
    else RentalActivities(false, statuses[0]) + UpdateActivities(statuses[1..])
  }

  /**
   * Updates append at most one row each, and the payment rule is not
   * idempotent: n saves of a paid rental append n "payment" rows.
   */
  lemma {:induction false} UpdateActivitiesCount(statuses: seq<Status>)
    ensures |UpdateActivities(statuses)| <= |statuses|
    ensures (forall i :: 0 <= i < |statuses| ==> statuses[i] == Paid) ==>
              UpdateActivities(statuses) == seq(|statuses|, _ => PaymentActivity)
  {
    if statuses != [] {
      UpdateActivitiesCount(statuses[1..]);
    }
  }

  /** The activity rows appended for `kinds`, numbered from `firstId`. */
  function ActivityRows(firstId: Id, user: UserId, pid: Id, kinds: seq<ActivityType>): (rows: seq<Activity>)
    ensures |rows| == |kinds|
    ensures forall i :: 0 <= i < |kinds| ==> rows[i] == Activity(firstId + i, user, pid, kinds[i])
    decreases |kinds|
  {
    if kinds == [] then []
    else [Activity(firstId, user, pid, kinds[0])] + ActivityRows(firstId + 1, user, pid, kinds[1..])
  }

  // ------------------------------------------------------------------ pushes

  /** The channel group `user_<id>`. */
  datatype Group = UserGroup(user: UserId)

  /** The `type` of a group message. */
  datatype PushKind = SendNotifications | SendRecentActivities

  datatype Push = Push(group: Group, kind: PushKind, payload: seq<Activity>)

  const PushLimit: nat := 5

  /** The rows a push for `a` draws from: same user, and overdue iff `a` is. */
  function SameFeed(a: Activity): Activity -> bool
  {
    (x: Activity) => x.user == a.user && (x.kind == OverdueActivity <==> a.kind == OverdueActivity)
  }

  /**
   * `send_recent_activities_update`, for the table `table` that already holds
   * `a`: nothing unless `a` was just created; an overdue row pushes the user's
   * overdue rows as notifications; any other row pushes the user's other rows
   * as recent activities.  Either list is newest first and cut at 5.
   */
  function ActivityPush(table: seq<Activity>, a: Activity, created: bool): (r: Option<Push>)
    ensures r.None? <==> !created
    ensures r.Some? ==> r.value.group == UserGroup(a.user) && |r.value.payload| <= PushLimit
    ensures r.Some? ==> (r.value.kind == SendNotifications <==> a.kind == OverdueActivity)
    ensures r.Some? ==> forall x :: x in r.value.payload ==>
              x in table && x.user == a.user && (x.kind == OverdueActivity <==> a.kind == OverdueActivity)
  {
    if !created then None
    else
      var feed := Filter(table, SameFeed(a));
      var payload := Take(Reverse(feed), PushLimit);
      forall x | x in payload ensures x in feed {
        var i :| 0 <= i < |payload| && payload[i] == x;
        assert x == feed[|feed| - 1 - i];
      }
      FilterMembers(table, SameFeed(a));
      Some(Push(UserGroup(a.user),
                if a.kind == OverdueActivity then SendNotifications else SendRecentActivities,
                payload))
  }

  /**
   * The pushed list holds the most recent matching rows, newest first: read
   * backwards it is the tail of the matching rows in table order, as long as
   * there are matching rows up to the cap.
   */
  lemma PushHoldsNewest(table: seq<Activity>, a: Activity)
    ensures var feed := Filter(table, SameFeed(a));
            var payload := ActivityPush(table, a, true).value.payload;
            |payload| == Min(PushLimit, |feed|) && Reverse(payload) == feed[|feed| - |payload|..]
  {
    NewestAreLast(Filter(table, SameFeed(a)), PushLimit);
  }

  /** The row just created heads the list it pushes. */
  lemma {:induction false} PushLeadsWithNewRow(before: seq<Activity>, a: Activity)
    ensures var payload := ActivityPush(before + [a], a, true).value.payload;
            |payload| > 0 && payload[0] == a
  {
    FilterAppend(before, [a], SameFeed(a));
    assert Filter([a], SameFeed(a)) == [a];
  }
}
