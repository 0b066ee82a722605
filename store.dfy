/**
 * The tables of the rental ledger and the primitive writes on them: saving a
 * property, tenant or rental (insert when the key is new, otherwise update),
 * creating history and activity rows, and deleting.  Each save runs the
 * post-save receiver of core/signals.py right after the write, and each new
 * activity row runs the push receiver, which appends its group message to
 * `outbox` instead of sending it.
 */
module Store {
  import opened Wrappers
  import opened Seqs
  import opened Models
  import opened Signals

  function PropertyOtherThan(pid: Id): Property -> bool { (p: Property) => p.id != pid }
  function RentalOtherThan(rid: Id): Rental -> bool { (r: Rental) => r.id != rid }
  function RentalNotOn(pid: Id): Rental -> bool { (r: Rental) => r.property != pid }
  function HistoryNotOn(pid: Id): RentHistory -> bool { (h: RentHistory) => h.property != pid }
  function ActivityNotOn(pid: Id): Activity -> bool { (a: Activity) => a.property != pid }
  function NotificationNotOn(pid: Id): Notification -> bool
  {
    (n: Notification) => n.property != Some(pid)
  }

  /** The message list a push receiver run appends: one message or none. */
  function Sent(push: Option<Push>): seq<Push>
  {
    if push.Some? then [push.value] else []
  }

  /** Deleting a property together with its rentals leaves no rental pointing at a missing row. */
  lemma CascadeKeepsReferences(properties: seq<Property>, rentals: seq<Rental>, tenants: seq<Tenant>, pid: Id)
    requires forall i :: 0 <= i < |rentals| ==>
               rentals[i].property in PropertyIds(properties) && rentals[i].tenant in TenantIds(tenants)
    ensures var ps := Filter(properties, PropertyOtherThan(pid));
            var rs := Filter(rentals, RentalNotOn(pid));
            forall i :: 0 <= i < |rs| ==> rs[i].property in PropertyIds(ps) && rs[i].tenant in TenantIds(tenants)
  {
    var ps := Filter(properties, PropertyOtherThan(pid));
    var rs := Filter(rentals, RentalNotOn(pid));
    FilterMembers(rentals, RentalNotOn(pid));
    forall i | 0 <= i < |rs| ensures rs[i].property in PropertyIds(ps) && rs[i].tenant in TenantIds(tenants) {
      var r := rs[i];
      assert r in rentals && RentalNotOn(pid)(r);
      var j :| 0 <= j < |rentals| && rentals[j] == r;
      assert r.property in PropertyIds(properties) && r.tenant in TenantIds(tenants);
      var k :| 0 <= k < |properties| && PropertyId(properties[k]) == r.property;
      assert PropertyOtherThan(pid)(properties[k]);
      KeysFilter(properties, PropertyOtherThan(pid), PropertyId, r.property);
    }
  }

  class Ledger {
    var properties: seq<Property>
    var tenants: seq<Tenant>
    var rentals: seq<Rental>
    var histories: seq<RentHistory>
    var activities: seq<Activity>
    var notifications: seq<Notification>
    var outbox: seq<Push>
    /** The next primary key to hand out (one sequence for every table). */
    var nextId: nat

    /**
     * Keys are unique and below `nextId`, and every rental points at a
     * stored property and a stored tenant.
     */
    ghost predicate Valid()
      reads this
    {
      && (forall i :: 0 <= i < |properties| ==> properties[i].id < nextId)
      && (forall i :: 0 <= i < |tenants| ==> tenants[i].id < nextId)
      && (forall i :: 0 <= i < |rentals| ==> rentals[i].id < nextId)
      && DistinctKeys(properties, PropertyId)
      && DistinctKeys(tenants, TenantId)
      && DistinctKeys(rentals, RentalId)
      && (forall i :: 0 <= i < |rentals| ==>
            rentals[i].property in PropertyIds(properties) && rentals[i].tenant in TenantIds(tenants))
    }

    constructor ()
      ensures Valid()
      ensures properties == [] && tenants == [] && rentals == [] && histories == []
      ensures activities == [] && notifications == [] && outbox == []
    {
      properties, tenants, rentals, histories := [], [], [], [];
      activities, notifications, outbox := [], [], [];
      nextId := 1;
    }

    /** `instance.property.user` */
    function OwnerOf(pid: Id): (owner: UserId)
      reads this`properties
      requires pid in PropertyIds(properties)
      ensures exists i :: 0 <= i < |properties| && properties[i].id == pid && properties[i].owner == owner
      ensures DistinctKeys(properties, PropertyId) ==>
                forall i :: 0 <= i < |properties| && properties[i].id == pid ==> properties[i].owner == owner
    {
      properties[IndexOf(properties, PropertyId, pid).value].owner
    }

    // ------------------------------------------------------------ receivers

    /** `send_recent_activities_update` (signals.py:44-73), run after an activity row is saved. */
    method ActivityPostSave(a: Activity, created: bool)
      modifies this`outbox
      ensures outbox == old(outbox) + Sent(ActivityPush(activities, a, created))
    {
      var push := ActivityPush(activities, a, created);
      if push.Some? {
        outbox := outbox + [push.value];
      }
    }

    /** `RecentActivity.objects.create(...)`, followed by its post-save receiver. */
    method CreateActivity(user: UserId, pid: Id, kind: ActivityType)
      requires Valid()
      modifies this`activities, this`outbox, this`nextId
      ensures Valid()
      ensures nextId == old(nextId) + 1
      ensures activities == old(activities) + [Activity(old(nextId), user, pid, kind)]
      ensures outbox == old(outbox) + [ActivityPush(activities, Activity(old(nextId), user, pid, kind), true).value]
    {
      var a := Activity(nextId, user, pid, kind);
      activities := activities + [a];
      nextId := nextId + 1;
      ActivityPostSave(a, true);
    }

    /** The Property receiver (signals.py:9-16). */
    method PropertyPostSave(p: Property, created: bool)
      requires Valid()
      modifies this`activities, this`outbox, this`nextId
      ensures Valid()
      ensures activities == old(activities) + ActivityRows(old(nextId), p.owner, p.id, PropertyActivities(created))
      ensures |outbox| == |old(outbox)| + |PropertyActivities(created)|
      ensures !created ==> outbox == old(outbox)
      ensures nextId == old(nextId) + |PropertyActivities(created)|
    {
      if created {
        CreateActivity(p.owner, p.id, AddActivity);
      }
    }

    /** The RentProperty receiver (signals.py:19-39): rows go to the property's owner. */
    method RentalPostSave(r: Rental, created: bool)
      requires Valid() && r.property in PropertyIds(properties)
      modifies this`activities, this`outbox, this`nextId
      ensures Valid()
      ensures activities ==
        old(activities) + ActivityRows(old(nextId), OwnerOf(r.property), r.property, RentalActivities(created, r.status))
      ensures |outbox| == |old(outbox)| + |RentalActivities(created, r.status)|
      ensures nextId == old(nextId) + |RentalActivities(created, r.status)|
    {
      var owner := OwnerOf(r.property);
      if created {
        CreateActivity(owner, r.property, RentActivity);
      } else {
        if r.status == Paid {
          CreateActivity(owner, r.property, PaymentActivity);
        }
        if r.status == Overdue {
          CreateActivity(owner, r.property, OverdueActivity);
        }
      }
    }

    // ---------------------------------------------------------------- saves

    /**
     * `Property.save` (models.py:73-86): default the currency, insert or
     * update the row, then run the Property receiver.  A property whose key is
     * not stored is new and gets the next key.
     */
    method SaveProperty(p: Property) returns (saved: Property, created: bool)
      requires Valid()
      modifies this`properties, this`activities, this`outbox, this`nextId
      ensures Valid()
      ensures created <==> p.id !in old(PropertyIds(properties))
      ensures saved == CurrencyOnSave(if created then p.(id := old(nextId)) else p)
      ensures created ==> properties == old(properties) + [saved]
      ensures !created ==> properties == old(properties)[IndexOf(old(properties), PropertyId, p.id).value := saved]
      ensures activities == old(activities) +
        ActivityRows(if created then old(nextId) + 1 else old(nextId), saved.owner, saved.id, PropertyActivities(created))
      ensures |outbox| == |old(outbox)| + |PropertyActivities(created)|
      ensures !created ==> outbox == old(outbox)
      ensures nextId == old(nextId) + (if created then 1 else 0) + |PropertyActivities(created)|
    {
      saved, created := WriteProperty(p);
      PropertyPostSave(saved, created);
    }

    /** The table write of `Property.save`, before the receiver runs. */
    method WriteProperty(p: Property) returns (saved: Property, created: bool)
      requires Valid()
      modifies this`properties, this`nextId
      ensures Valid()
      ensures created <==> p.id !in old(PropertyIds(properties))
      ensures saved == CurrencyOnSave(if created then p.(id := old(nextId)) else p)
      ensures created ==> properties == old(properties) + [saved] && nextId == old(nextId) + 1
      ensures !created ==>
        properties == old(properties)[IndexOf(old(properties), PropertyId, p.id).value := saved] && nextId == old(nextId)
    {
      var idx := IndexOf(properties, PropertyId, p.id);
      created := idx.None?;
      if created {
        saved := CurrencyOnSave(p.(id := nextId));
        assert nextId !in PropertyIds(properties);
        KeysAppend(properties, saved, PropertyId);
        DistinctAppend(properties, saved, PropertyId);
        properties := properties + [saved];
        nextId := nextId + 1;
      } else {
        saved := CurrencyOnSave(p);
        KeysUpdate(properties, idx.value, saved, PropertyId);
        DistinctUpdate(properties, idx.value, saved, PropertyId);
        properties := properties[idx.value := saved];
      }
    }

    /** `Tenant.save`: insert or update; no receiver listens to tenants. */
    method SaveTenant(t: Tenant) returns (saved: Tenant, created: bool)
      requires Valid()
      modifies this`tenants, this`nextId
      ensures Valid()
      ensures created <==> t.id !in old(TenantIds(tenants))
      ensures saved == if created then t.(id := old(nextId)) else t
      ensures created ==> tenants == old(tenants) + [saved] && nextId == old(nextId) + 1
      ensures !created ==>
        tenants == old(tenants)[IndexOf(old(tenants), TenantId, t.id).value := saved] && nextId == old(nextId)
    {
      var idx := IndexOf(tenants, TenantId, t.id);
      created := idx.None?;
      if created {
        saved := t.(id := nextId);
        assert nextId !in TenantIds(tenants);
        KeysAppend(tenants, saved, TenantId);
        DistinctAppend(tenants, saved, TenantId);
        tenants := tenants + [saved];
        nextId := nextId + 1;
      } else {
        saved := t;
        KeysUpdate(tenants, idx.value, saved, TenantId);
        DistinctUpdate(tenants, idx.value, saved, TenantId);
        tenants := tenants[idx.value := saved];
      }
    }

    /** `RentProperty.save`: insert or update, then run the RentProperty receiver. */
    method SaveRental(r: Rental) returns (saved: Rental, created: bool)
      requires Valid() && r.property in PropertyIds(properties) && r.tenant in TenantIds(tenants)
      modifies this`rentals, this`activities, this`outbox, this`nextId
      ensures Valid()
      ensures created <==> r.id !in old(RentalIds(rentals))
      ensures saved == if created then r.(id := old(nextId)) else r
      ensures created ==> rentals == old(rentals) + [saved]
      ensures !created ==> rentals == old(rentals)[IndexOf(old(rentals), RentalId, r.id).value := saved]
      ensures activities == old(activities) + ActivityRows(
        if created then old(nextId) + 1 else old(nextId),
        OwnerOf(r.property), r.property, RentalActivities(created, r.status))
      ensures |outbox| == |old(outbox)| + |RentalActivities(created, r.status)|
      ensures nextId == old(nextId) + (if created then 1 else 0) + |RentalActivities(created, r.status)|
    {
      saved, created := WriteRental(r);
      RentalPostSave(saved, created);
    }

    /** The table write of `RentProperty.save`, before the receiver runs. */
    method WriteRental(r: Rental) returns (saved: Rental, created: bool)
      requires Valid() && r.property in PropertyIds(properties) && r.tenant in TenantIds(tenants)
      modifies this`rentals, this`nextId
      ensures Valid()
      ensures created <==> r.id !in old(RentalIds(rentals))
      ensures saved == if created then r.(id := old(nextId)) else r
      ensures created ==> rentals == old(rentals) + [saved] && nextId == old(nextId) + 1
      ensures !created ==>
        rentals == old(rentals)[IndexOf(old(rentals), RentalId, r.id).value := saved] && nextId == old(nextId)
    {
      var idx := IndexOf(rentals, RentalId, r.id);
      created := idx.None?;
      if created {
        saved := r.(id := nextId);
        assert nextId !in RentalIds(rentals);
        KeysAppend(rentals, saved, RentalId);
        DistinctAppend(rentals, saved, RentalId);
        rentals := rentals + [saved];
        nextId := nextId + 1;
      } else {
        saved := r;
        KeysUpdate(rentals, idx.value, saved, RentalId);
        DistinctUpdate(rentals, idx.value, saved, RentalId);
        rentals := rentals[idx.value := saved];
      }
    }

    /** `RentHistory.objects.create(...)`: the row gets the next key. */
    method CreateHistory(h: RentHistory) returns (row: RentHistory)
      requires Valid()
      modifies this`histories, this`nextId
      ensures Valid()
      ensures row == h.(id := old(nextId)) && histories == old(histories) + [row]
      ensures nextId == old(nextId) + 1
    {
      row := h.(id := nextId);
      histories := histories + [row];
      nextId := nextId + 1;
    }

    // -------------------------------------------------------------- deletes

    /** `rental.delete()` */
    method DeleteRental(rid: Id)
      requires Valid()
      modifies this`rentals
      ensures Valid()
      ensures rentals == Filter(old(rentals), RentalOtherThan(rid))
      ensures rid !in RentalIds(rentals)
    {
      DistinctFilter(rentals, RentalOtherThan(rid), RentalId);
      var bound, ps, ts := nextId, properties, tenants;
      FilterAll(rentals, RentalOtherThan(rid),
        (r: Rental) => r.id < bound && r.property in PropertyIds(ps) && r.tenant in TenantIds(ts));
      rentals := Filter(rentals, RentalOtherThan(rid));
      assert forall i :: 0 <= i < |rentals| ==> RentalOtherThan(rid)(rentals[i]);
    }

    /**
     * `property.delete()`: the property goes, and with it (on_delete=CASCADE)
     * its rentals, history rows, activity rows and notifications.
     */
    method DeleteProperty(pid: Id)
      requires Valid()
      modifies this`properties, this`rentals, this`histories, this`activities, this`notifications
      ensures Valid()
      ensures properties == Filter(old(properties), PropertyOtherThan(pid))
      ensures rentals == Filter(old(rentals), RentalNotOn(pid))
      ensures histories == Filter(old(histories), HistoryNotOn(pid))
      ensures activities == Filter(old(activities), ActivityNotOn(pid))
      ensures notifications == Filter(old(notifications), NotificationNotOn(pid))
    {
      var ps := Filter(properties, PropertyOtherThan(pid));
      var rs := Filter(rentals, RentalNotOn(pid));
      DistinctFilter(properties, PropertyOtherThan(pid), PropertyId);
      DistinctFilter(rentals, RentalNotOn(pid), RentalId);
      CascadeKeepsReferences(properties, rentals, tenants, pid);
      var bound := nextId;
      FilterAll(properties, PropertyOtherThan(pid), (p: Property) => p.id < bound);
      FilterAll(rentals, RentalNotOn(pid), (r: Rental) => r.id < bound);
      properties := ps;
      rentals := rs;
      histories := Filter(histories, HistoryNotOn(pid));
      activities := Filter(activities, ActivityNotOn(pid));
      notifications := Filter(notifications, NotificationNotOn(pid));
    }
  }
}
