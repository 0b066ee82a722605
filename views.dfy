/**
 * The state changes and queries of core/views.py, with rendering, redirects
 * and form validation abstracted away: each handler takes the already
 * validated form fields and returns a value or an error.
 */
module Views {
  import opened Wrappers
  import opened Seqs
  import opened Models
  import opened Dashboard
  import opened Signals
  import opened Services
  import opened Store

  /** Http404, the phone ValueError, and the two errors `get_or_create` can raise. */
  datatype Error = NotFound | InvalidPhone | IntegrityError | MultipleObjectsReturned

  /** `phone_number.startswith("+")` */
  predicate PhoneAccepted(phone: string)
  {
    |phone| > 0 && phone[0] == '+'
  }

  // ---------------------------------------------------------- tenant lookup

  function SamePair(name: string, phone: string): Tenant -> bool
  {
    (t: Tenant) => t.name == name && t.phone == phone
  }

  /** What `get_or_create` hands back: the table after it, the tenant, and whether it was created. */
  datatype TenantLookup = TenantLookup(table: seq<Tenant>, tenant: Tenant, created: bool)

  /**
   * `Tenant.objects.get_or_create(name=..., phone_number=..., defaults={"id_image": ...})`
   * as written: the insert leaves out `landlord`, a NOT NULL foreign key, so
   * creating a tenant fails with an integrity error.
   */
  function GetOrCreateTenantAsWritten(tenants: seq<Tenant>, name: string, phone: string)
    : (r: Result<TenantLookup, Error>)
    ensures r.Ok? <==> |Filter(tenants, SamePair(name, phone))| == 1
    ensures r.Ok? ==> !r.value.created && r.value.table == tenants && r.value.tenant in tenants
    ensures r.Ok? ==> r.value.tenant.name == name && r.value.tenant.phone == phone
    ensures r.Err? ==> (r.error == IntegrityError <==> |Filter(tenants, SamePair(name, phone))| == 0)
    ensures |Filter(tenants, SamePair(name, phone))| > 1 ==> r == Err(MultipleObjectsReturned)
  {
    var matches := Filter(tenants, SamePair(name, phone));
    FilterMembers(tenants, SamePair(name, phone));
    if |matches| == 1 then Ok(TenantLookup(tenants, matches[0], false))
    else if |matches| > 1 then Err(MultipleObjectsReturned)
    else Err(IntegrityError)
  }

  /** As written, renting to someone not yet in the tenant table always fails. */
  lemma AsWrittenRejectsNewTenant(tenants: seq<Tenant>, name: string, phone: string)
    requires forall i :: 0 <= i < |tenants| ==> !(tenants[i].name == name && tenants[i].phone == phone)
    ensures GetOrCreateTenantAsWritten(tenants, name, phone) == Err(IntegrityError)
  {
    FilterNone(tenants, SamePair(name, phone));
  }

  /** The first rental of a fresh ledger, for instance, is refused. */
  lemma AsWrittenRejectsFirstRental()
    ensures GetOrCreateTenantAsWritten([], "Amna", "+249912345678") == Err(IntegrityError)
  {
    AsWrittenRejectsNewTenant([], "Amna", "+249912345678");
  }

  /**
   * `get_or_create` with the landlord supplied: one matching row is reused,
   * none means a new row keyed `freshId`, several is an error.
   */
  function GetOrCreateTenant(tenants: seq<Tenant>, name: string, phone: string, landlord: UserId, freshId: Id)
    : (r: Result<TenantLookup, Error>)
    ensures r.Err? <==> |Filter(tenants, SamePair(name, phone))| > 1
    ensures r.Err? ==> r.error == MultipleObjectsReturned
    ensures r.Ok? ==> r.value.tenant.name == name && r.value.tenant.phone == phone
    ensures r.Ok? && !r.value.created ==> r.value.table == tenants && r.value.tenant in tenants
    ensures r.Ok? && r.value.created ==>
              r.value.tenant == Tenant(freshId, landlord, name, phone) && r.value.table == tenants + [r.value.tenant]
  {
    var matches := Filter(tenants, SamePair(name, phone));
    FilterMembers(tenants, SamePair(name, phone));
    if |matches| == 1 then Ok(TenantLookup(tenants, matches[0], false))
    else if |matches| > 1 then Err(MultipleObjectsReturned)
    else
      var t := Tenant(freshId, landlord, name, phone);
      Ok(TenantLookup(tenants + [t], t, true))
  }

  /**
   * A successful lookup leaves exactly one row for the pair: an existing pair
   * is reused, never duplicated; a new pair is created only when absent.
   */
  lemma GetOrCreateTenantKeepsPairUnique(tenants: seq<Tenant>, name: string, phone: string, landlord: UserId, freshId: Id)
    ensures var r := GetOrCreateTenant(tenants, name, phone, landlord, freshId);
            r.Ok? ==> |Filter(r.value.table, SamePair(name, phone))| == 1
    ensures var r := GetOrCreateTenant(tenants, name, phone, landlord, freshId);
            r.Ok? ==> (r.value.created <==> |Filter(tenants, SamePair(name, phone))| == 0)
  {
    var r := GetOrCreateTenant(tenants, name, phone, landlord, freshId);
    if r.Ok? && r.value.created {
      FilterAppend(tenants, [r.value.tenant], SamePair(name, phone));
      assert Filter([r.value.tenant], SamePair(name, phone)) == [r.value.tenant];
    }
  }

  // ------------------------------------------------------------ rent history

  /** The RentHistory row `empty_property` writes for `r`. */
  function HistoryRow(r: Rental, today: Day): (h: RentHistory)
    ensures h.property == r.property && h.tenant == Some(r.tenant)
    ensures h.price == r.price && h.damageDeposit == r.damageDeposit && h.startDate == r.startDate
    ensures h.paymentType == PaymentPeriod(r.payment) && h.contract == r.contract
    ensures h.endDate == today
  {
    RentHistory(
      0, r.property, Some(r.tenant), r.price, r.damageDeposit, PaymentPeriod(r.payment), r.startDate,
      if r.endDate == today then r.endDate else today,
      r.contract)
  }

  // ---------------------------------------------------------------- queries

  function OwnedBy(user: UserId): Property -> bool
  {
    (p: Property) => p.owner == user
  }

  function RentedBy(user: UserId, rented: bool): Property -> bool
  {
    (p: Property) => p.owner == user && p.isRented == rented
  }

  function NotOverdueOf(user: UserId): Activity -> bool
  {
    (a: Activity) => a.user == user && a.kind != OverdueActivity
  }

  const HomeActivityLimit: nat := 10

  datatype HomePage = HomePage(
    available: seq<Property>,
    rented: seq<Property>,
    recent: seq<Activity>,
    notifications: seq<Notification>,
    expiring: seq<Rental>,
    upcoming: seq<Rental>)

  /** The queries of `home` for `user`. */
  function Home(
    properties: seq<Property>, rentals: seq<Rental>, activities: seq<Activity>,
    notifications: seq<Notification>, user: UserId, today: Day, nextPayment: NextPaymentFn)
    : (h: HomePage)
    ensures forall p :: p in h.available <==> p in properties && p.owner == user && !p.isRented
    ensures forall p :: p in h.rented <==> p in properties && p.owner == user && p.isRented
    ensures |h.recent| <= HomeActivityLimit
    ensures forall a :: a in h.recent ==> a in activities && a.user == user && a.kind != OverdueActivity
    ensures forall n :: n in h.notifications <==> n in notifications && n.user == user && !n.isRead
    ensures h.expiring == ExpiringContracts(h.rented, rentals, today)
    ensures h.upcoming == UpcomingPayments(h.rented, rentals, nextPayment)
  {
    var available := Filter(properties, RentedBy(user, false));
    var rented := Filter(properties, RentedBy(user, true));
    var feed := Filter(activities, NotOverdueOf(user));
    var recent := Take(Reverse(feed), HomeActivityLimit);
    forall a | a in recent ensures a in feed {
      var i :| 0 <= i < |recent| && recent[i] == a;
      assert a == feed[|feed| - 1 - i];
    }
    FilterMembers(properties, RentedBy(user, false));
    FilterMembers(properties, RentedBy(user, true));
    FilterMembers(activities, NotOverdueOf(user));
    HomePage(available, rented, recent, UnreadNotifications(notifications, user),
             ExpiringContracts(rented, rentals, today), UpcomingPayments(rented, rentals, nextPayment))
  }

  /** The home page shows the user's 10 most recent non-overdue activities, newest first. */
  lemma HomeRecentAreNewest(
    properties: seq<Property>, rentals: seq<Rental>, activities: seq<Activity>,
    notifications: seq<Notification>, user: UserId, today: Day, nextPayment: NextPaymentFn)
    ensures var feed := Filter(activities, NotOverdueOf(user));
            var recent := Home(properties, rentals, activities, notifications, user, today, nextPayment).recent;
            |recent| == Min(HomeActivityLimit, |feed|) && Reverse(recent) == feed[|feed| - |recent|..]
  {
    NewestAreLast(Filter(activities, NotOverdueOf(user)), HomeActivityLimit);
  }

  // ----------------------------------------------------------------- search

  function Fold(s: string, fold: char -> char): (t: string)
    ensures |t| == |s|
  {
    seq(|s|, i requires 0 <= i < |s| => fold(s[i]))
  }

  /** `a` occurs in `b` as a contiguous run. */
  predicate IsInfix(a: string, b: string)
    decreases |b|
  {
    (|a| <= |b| && b[..|a|] == a) || (|b| > 0 && IsInfix(a, b[1..]))
  }

  /** `a` occurs in `b` starting at index `i`. */
  predicate OccursAt(a: string, b: string, i: int)
  {
    0 <= i <= |b| - |a| && b[i..i + |a|] == a
  }

  /** The recursive search agrees with "some slice of `b` equals `a`". */
  lemma {:induction false} IsInfixAt(a: string, b: string)
    ensures IsInfix(a, b) <==> exists i :: OccursAt(a, b, i)
    decreases |b|
  {
    if |a| <= |b| && b[..|a|] == a {
      assert OccursAt(a, b, 0);
    }
    if |b| > 0 {
      IsInfixAt(a, b[1..]);
      if IsInfix(a, b[1..]) {
        var i :| OccursAt(a, b[1..], i);
        assert b[i + 1..i + 1 + |a|] == b[1..][i..i + |a|];
        assert OccursAt(a, b, i + 1);
      }
      if exists i :: OccursAt(a, b, i) {
        var i :| OccursAt(a, b, i);
        if i > 0 {
          assert b[1..][i - 1..i - 1 + |a|] == b[i..i + |a|];
          assert OccursAt(a, b[1..], i - 1);
        } else {
          assert b[..|a|] == a;
        }
      }
    } else if exists i :: OccursAt(a, b, i) {
      var i :| OccursAt(a, b, i);
      assert b[..|a|] == a;
    }
  }

  /** `field__icontains=q`, with `fold` the case mapping the database applies. */
  predicate IContains(field: string, q: string, fold: char -> char)
  {
    IsInfix(Fold(q, fold), Fold(field, fold))
  }

  function Matches(q: string, fold: char -> char): Property -> bool
  {
    (p: Property) => IContains(p.name, q, fold) || IContains(p.country, q, fold)
  }

  /**
   * `search_all_properties`: with a non-empty `q`, the properties whose name
   * or country contains it, ignoring case; otherwise every property.  Neither
   * branch filters by owner.
   */
  function SearchAllProperties(properties: seq<Property>, q: Option<string>, fold: char -> char)
    : (r: seq<Property>)
    ensures q.Some? && q.value != "" ==> forall p :: p in r <==>
              p in properties && (IContains(p.name, q.value, fold) || IContains(p.country, q.value, fold))
    ensures !(q.Some? && q.value != "") ==> r == properties
    ensures IsSubsequence(r, properties)
  {
    if q.Some? && q.value != "" then
      FilterMembers(properties, Matches(q.value, fold));
      FilterIsSubsequence(properties, Matches(q.value, fold));
      Filter(properties, Matches(q.value, fold))
    else
      SubsequenceOfSelf(properties);
      properties
  }

  // --------------------------------------------------------------- handlers

  /**
   * `rent_property`: reject a phone without "+", look the tenant up by the
   * title-cased name and the phone, mark the property rented, and store the
   * new rental, whose save appends one "rent" activity for the owner.
   */
  method RentProperty(
    l: Ledger, user: UserId, pk: Id, form: RentalForm, name: string, phone: string, title: string -> string)
    returns (res: Result<Id, Error>)
    requires l.Valid()
    modifies l
    ensures l.Valid()
    ensures res.Err? ==> unchanged(l)
    ensures pk !in old(PropertyIds(l.properties)) ==> res == Err(NotFound)
    ensures pk in old(PropertyIds(l.properties)) && !PhoneAccepted(phone) ==> res == Err(InvalidPhone)
    ensures pk in old(PropertyIds(l.properties)) && PhoneAccepted(phone) ==>
              (res.Err? <==> GetOrCreateTenant(old(l.tenants), title(name), phone, user, old(l.nextId)).Err?)
    ensures res.Ok? ==>
      var lookup := GetOrCreateTenant(old(l.tenants), title(name), phone, user, old(l.nextId)).value;
      var i := IndexOf(old(l.properties), PropertyId, pk).value;
      && res.value == old(l.nextId) + (if lookup.created then 1 else 0)
      && l.tenants == lookup.table
      && l.properties == old(l.properties)[i := CurrencyOnSave(old(l.properties)[i].(isRented := true))]
      && l.rentals == old(l.rentals) + [NewRental(res.value, lookup.tenant.id, pk, form)]
      && l.activities == old(l.activities) + [Activity(res.value + 1, old(l.properties)[i].owner, pk, RentActivity)]
      && |l.outbox| == |old(l.outbox)| + 1
      && l.histories == old(l.histories) && l.notifications == old(l.notifications)
  {
    var pi := IndexOf(l.properties, PropertyId, pk);
    if pi.None? {
      return Err(NotFound);
    }
    if !PhoneAccepted(phone) {
      return Err(InvalidPhone);
    }
    var lookup := GetOrCreateTenant(l.tenants, title(name), phone, user, l.nextId);
    if lookup.Err? {
      return Err(lookup.error);
    }
    var rid := RentWith(l, pi.value, lookup.value, form);
    return Ok(rid);
  }

  /** The writes of `rent_property` once `get_or_create` has answered: the tenant, the property, the rental. */
  method RentWith(l: Ledger, i: nat, found: TenantLookup, form: RentalForm) returns (rid: Id)
    requires l.Valid() && i < |l.properties|
    requires found.created ==> found.tenant.id == l.nextId && found.table == l.tenants + [found.tenant]
    requires !found.created ==> found.tenant in l.tenants && found.table == l.tenants
    modifies l`tenants, l`properties, l`rentals, l`activities, l`outbox, l`nextId
    ensures l.Valid()
    ensures rid == old(l.nextId) + (if found.created then 1 else 0)
    ensures l.tenants == found.table
    ensures l.properties == old(l.properties)[i := CurrencyOnSave(old(l.properties)[i].(isRented := true))]
    ensures l.rentals == old(l.rentals) + [NewRental(rid, found.tenant.id, old(l.properties)[i].id, form)]
    ensures l.activities ==
      old(l.activities) + [Activity(rid + 1, old(l.properties)[i].owner, old(l.properties)[i].id, RentActivity)]
    ensures |l.outbox| == |old(l.outbox)| + 1
  {
    KeepTenant(l, found);
    rid := RentTo(l, i, found.tenant.id, form);
  }

  /** Stores the tenant `get_or_create` returned: a created one is inserted, a found one is already there. */
  method KeepTenant(l: Ledger, found: TenantLookup)
    requires l.Valid()
    requires found.created ==> found.tenant.id == l.nextId && found.table == l.tenants + [found.tenant]
    requires !found.created ==> found.tenant in l.tenants && found.table == l.tenants
    modifies l`tenants, l`nextId
    ensures l.Valid()
    ensures l.tenants == found.table
    ensures l.nextId == old(l.nextId) + (if found.created then 1 else 0)
    ensures found.tenant.id in TenantIds(l.tenants)
  {
    if found.created {
      var _, _ := l.SaveTenant(found.tenant);
    }
    var k :| 0 <= k < |l.tenants| && l.tenants[k] == found.tenant;
    assert TenantId(l.tenants[k]) in TenantIds(l.tenants);
  }

  /** The writes of `rent_property` once the tenant is known: the property, then the rental. */
  method RentTo(l: Ledger, i: nat, tenant: Id, form: RentalForm) returns (rid: Id)
    requires l.Valid() && i < |l.properties| && tenant in TenantIds(l.tenants)
    modifies l`properties, l`rentals, l`activities, l`outbox, l`nextId
    ensures l.Valid()
    ensures rid == old(l.nextId)
    ensures l.properties == old(l.properties)[i := CurrencyOnSave(old(l.properties)[i].(isRented := true))]
    ensures l.rentals == old(l.rentals) + [NewRental(rid, tenant, old(l.properties)[i].id, form)]
    ensures l.activities ==
      old(l.activities) + [Activity(rid + 1, old(l.properties)[i].owner, old(l.properties)[i].id, RentActivity)]
    ensures |l.outbox| == |old(l.outbox)| + 1
  {
    var p := l.properties[i];
    SetRented(l, i, true);
    IndexOfUnique(l.properties, PropertyId, i);
    assert l.OwnerOf(p.id) == p.owner;
    var rental, rentalCreated := l.SaveRental(NewRental(l.nextId, tenant, p.id, form));
    assert rentalCreated;
    rid := rental.id;
  }

  /**
   * `edit_rental`: reject a phone without "+" before touching anything; else
   * overwrite the tenant's name and phone (no title-casing here) and the
   * rental's form fields, whose save appends "payment" or "overdue" per status.
   */
  method EditRental(l: Ledger, pk: Id, form: RentalForm, name: string, phone: string)
    returns (res: Result<Id, Error>)
    requires l.Valid()
    modifies l
    ensures l.Valid()
    ensures res.Err? ==> unchanged(l)
    ensures pk !in old(RentalIds(l.rentals)) ==> res == Err(NotFound)
    ensures pk in old(RentalIds(l.rentals)) && !PhoneAccepted(phone) ==> res == Err(InvalidPhone)
    ensures pk in old(RentalIds(l.rentals)) && PhoneAccepted(phone) ==>
      var ri := IndexOf(old(l.rentals), RentalId, pk).value;
      var r := old(l.rentals)[ri];
      var ti := IndexOf(old(l.tenants), TenantId, r.tenant).value;
      && res == Ok(r.property)
      && l.tenants == old(l.tenants)[ti := old(l.tenants)[ti].(name := name, phone := phone)]
      && l.rentals == old(l.rentals)[ri := ApplyForm(r, form)]
      && l.properties == old(l.properties)
      && l.histories == old(l.histories) && l.notifications == old(l.notifications)
      && l.activities == old(l.activities) + ActivityRows(
           old(l.nextId), l.OwnerOf(r.property), r.property, RentalActivities(false, ApplyForm(r, form).status))
      && |l.outbox| == |old(l.outbox)| + |RentalActivities(false, ApplyForm(r, form).status)|
  {
    var ri := IndexOf(l.rentals, RentalId, pk);
    if ri.None? {
      return Err(NotFound);
    }
    var r := l.rentals[ri.value];
    if !PhoneAccepted(phone) {
      return Err(InvalidPhone);
    }
    var ti := IndexOf(l.tenants, TenantId, r.tenant).value;
    Amend(l, ri.value, ti, form, name, phone);
    return Ok(r.property);
  }

  /**
   * The writes of `edit_rental` for the rental at index `ri` and its tenant at
   * index `ti`: the tenant's name and phone, then the form fields.
   */
  method Amend(l: Ledger, ri: nat, ti: nat, form: RentalForm, name: string, phone: string)
    requires l.Valid() && ri < |l.rentals| && ti < |l.tenants| && l.tenants[ti].id == l.rentals[ri].tenant
    modifies l`tenants, l`rentals, l`activities, l`outbox, l`nextId
    ensures l.Valid()
    ensures l.tenants == old(l.tenants)[ti := old(l.tenants)[ti].(name := name, phone := phone)]
    ensures var r := old(l.rentals)[ri];
      && l.rentals == old(l.rentals)[ri := ApplyForm(r, form)]
      && l.activities == old(l.activities) + ActivityRows(
           old(l.nextId), l.OwnerOf(r.property), r.property, RentalActivities(false, ApplyForm(r, form).status))
      && |l.outbox| == |old(l.outbox)| + |RentalActivities(false, ApplyForm(r, form).status)|
  {
    var r := l.rentals[ri];
    IndexOfUnique(l.tenants, TenantId, ti);
    var _, _ := l.SaveTenant(l.tenants[ti].(name := name, phone := phone));
    IndexOfUnique(l.rentals, RentalId, ri);
    var _, _ := l.SaveRental(ApplyForm(r, form));
  }

  /**
   * `mark_as_paid`: set the status to paid and save, which appends a
   * "payment" activity every time, then list the user's upcoming payments.
   */
  method MarkAsPaid(l: Ledger, user: UserId, pk: Id, nextPayment: NextPaymentFn)
    returns (res: Result<seq<Rental>, Error>)
    requires l.Valid()
    modifies l
    ensures l.Valid()
    ensures res.Err? ==> unchanged(l)
    ensures res.Err? <==> pk !in old(RentalIds(l.rentals))
    ensures res.Err? ==> res.error == NotFound
    ensures pk in old(RentalIds(l.rentals)) ==>
      var ri := IndexOf(old(l.rentals), RentalId, pk).value;
      var r := old(l.rentals)[ri];
      && l.rentals == old(l.rentals)[ri := r.(status := Paid)]
      && l.activities == old(l.activities) + [Activity(old(l.nextId), old(l.OwnerOf(r.property)), r.property, PaymentActivity)]
      && |l.outbox| == |old(l.outbox)| + 1
      && l.properties == old(l.properties) && l.tenants == old(l.tenants)
      && l.histories == old(l.histories) && l.notifications == old(l.notifications)
      && res == Ok(UpcomingPayments(Filter(l.properties, RentedBy(user, true)), l.rentals, nextPayment))
  {
    var ri := IndexOf(l.rentals, RentalId, pk);
    if ri.None? {
      return Err(NotFound);
    }
    SetPaid(l, ri.value);
    var rented := Filter(l.properties, RentedBy(user, true));
    return Ok(UpcomingPayments(rented, l.rentals, nextPayment));
  }

  /** `rental.status = "paid"; rental.save()` on the stored rental at index `i`. */
  method SetPaid(l: Ledger, i: nat)
    requires l.Valid() && i < |l.rentals|
    modifies l`rentals, l`activities, l`outbox, l`nextId
    ensures l.Valid()
    ensures l.rentals == old(l.rentals)[i := old(l.rentals)[i].(status := Paid)]
    ensures l.activities == old(l.activities) +
      [Activity(old(l.nextId), old(l.OwnerOf(l.rentals[i].property)), old(l.rentals)[i].property, PaymentActivity)]
    ensures |l.outbox| == |old(l.outbox)| + 1
  {
    var r := l.rentals[i];
    IndexOfUnique(l.rentals, RentalId, i);
    var _, created := l.SaveRental(r.(status := Paid));
    assert !created;
  }

  /**
   * The upcoming test reads only the billing terms, never the status, so the
   * list `mark_as_paid` returns holds the rental just marked paid exactly
   * when the same list before the change held it.
   */
  lemma MarkedRentalStaysUpcoming(props: seq<Property>, rentals: seq<Rental>, nextPayment: NextPaymentFn, i: nat)
    requires i < |rentals|
    ensures var paid := rentals[i].(status := Paid);
            paid in UpcomingPayments(props, rentals[i := paid], nextPayment) <==>
            rentals[i] in UpcomingPayments(props, rentals, nextPayment)
  {
    var paid := rentals[i].(status := Paid);
    UpcomingPaymentsSpec(props, rentals, nextPayment);
    UpcomingPaymentsSpec(props, rentals[i := paid], nextPayment);
    assert rentals[i := paid][i] == paid;
  }

  /**
   * `empty_property`: mark the property vacant, snapshot the rental into a
   * history row ending today, then delete the rental.
   */
  method EmptyProperty(l: Ledger, pk: Id, today: Day) returns (res: Result<Id, Error>)
    requires l.Valid()
    modifies l
    ensures l.Valid()
    ensures res.Err? ==> unchanged(l)
    ensures res.Err? <==> pk !in old(RentalIds(l.rentals))
    ensures res.Err? ==> res.error == NotFound
    ensures pk in old(RentalIds(l.rentals)) ==>
      var r := old(l.rentals)[IndexOf(old(l.rentals), RentalId, pk).value];
      var pi := IndexOf(old(l.properties), PropertyId, r.property).value;
      && res == Ok(r.property)
      && l.properties == old(l.properties)[pi := CurrencyOnSave(old(l.properties)[pi].(isRented := false))]
      && l.histories == old(l.histories) + [HistoryRow(r, today).(id := old(l.nextId))]
      && l.rentals == Filter(old(l.rentals), RentalOtherThan(pk))
      && pk !in RentalIds(l.rentals)
      && l.tenants == old(l.tenants) && l.activities == old(l.activities)
      && l.outbox == old(l.outbox) && l.notifications == old(l.notifications)
  {
    var ri := IndexOf(l.rentals, RentalId, pk);
    if ri.None? {
      return Err(NotFound);
    }
    var r := l.rentals[ri.value];
    Vacate(l, ri.value, today);
    return Ok(r.property);
  }

  /** The writes of `empty_property` for the rental at index `i`. */
  method Vacate(l: Ledger, i: nat, today: Day)
    requires l.Valid() && i < |l.rentals|
    modifies l`properties, l`histories, l`rentals, l`activities, l`outbox, l`nextId
    ensures l.Valid()
    ensures var r := old(l.rentals)[i];
      var pi := IndexOf(old(l.properties), PropertyId, r.property).value;
      && l.properties == old(l.properties)[pi := CurrencyOnSave(old(l.properties)[pi].(isRented := false))]
      && l.histories == old(l.histories) + [HistoryRow(r, today).(id := old(l.nextId))]
      && l.rentals == Filter(old(l.rentals), RentalOtherThan(r.id))
      && r.id !in RentalIds(l.rentals)
    ensures l.activities == old(l.activities) && l.outbox == old(l.outbox)
  {
    var r := l.rentals[i];
    var pi := IndexOf(l.properties, PropertyId, r.property).value;
    SetRented(l, pi, false);
    Archive(l, i, today);
  }

  /** The rest of `empty_property` for the rental at index `i`: the history row, then the delete. */
  method Archive(l: Ledger, i: nat, today: Day)
    requires l.Valid() && i < |l.rentals|
    modifies l`histories, l`rentals, l`nextId
    ensures l.Valid()
    ensures l.histories == old(l.histories) + [HistoryRow(old(l.rentals)[i], today).(id := old(l.nextId))]
    ensures l.rentals == Filter(old(l.rentals), RentalOtherThan(old(l.rentals)[i].id))
    ensures old(l.rentals)[i].id !in RentalIds(l.rentals)
  {
    var r := l.rentals[i];
    var _ := l.CreateHistory(HistoryRow(r, today));
    l.DeleteRental(r.id);
  }

  /** `property.is_rented = rented; property.save()` on the stored property at index `i`. */
  method SetRented(l: Ledger, i: nat, rented: bool)
    requires l.Valid() && i < |l.properties|
    modifies l`properties, l`activities, l`outbox, l`nextId
    ensures l.Valid()
    ensures l.properties == old(l.properties)[i := CurrencyOnSave(old(l.properties)[i].(isRented := rented))]
    ensures l.activities == old(l.activities) && l.outbox == old(l.outbox) && l.nextId == old(l.nextId)
  {
    IndexOfUnique(l.properties, PropertyId, i);
    var _, created := l.SaveProperty(l.properties[i].(isRented := rented));
    assert !created;
  }

  /**
   * `delete_property`: delete the property with everything that cascades
   * from it, then list the user's remaining properties.
   */
  method DeleteProperty(l: Ledger, user: UserId, pk: Id) returns (res: Result<seq<Property>, Error>)
    requires l.Valid()
    modifies l
    ensures l.Valid()
    ensures res.Err? ==> unchanged(l)
    ensures res.Err? <==> pk !in old(PropertyIds(l.properties))
    ensures res.Err? ==> res.error == NotFound
    ensures pk in old(PropertyIds(l.properties)) ==>
      && l.properties == Filter(old(l.properties), PropertyOtherThan(pk))
      && l.rentals == Filter(old(l.rentals), RentalNotOn(pk))
      && l.histories == Filter(old(l.histories), HistoryNotOn(pk))
      && l.activities == Filter(old(l.activities), ActivityNotOn(pk))
      && l.notifications == Filter(old(l.notifications), NotificationNotOn(pk))
      && l.tenants == old(l.tenants) && l.outbox == old(l.outbox)
      && pk !in PropertyIds(l.properties)
      && (forall i :: 0 <= i < |l.rentals| ==> l.rentals[i].property != pk)
      && res == Ok(Filter(l.properties, OwnedBy(user)))
  {
    var pi := IndexOf(l.properties, PropertyId, pk);
    if pi.None? {
      return Err(NotFound);
    }
    l.DeleteProperty(pk);
    assert forall i :: 0 <= i < |l.properties| ==> PropertyOtherThan(pk)(l.properties[i]);
    assert forall i :: 0 <= i < |l.rentals| ==> RentalNotOn(pk)(l.rentals[i]);
    return Ok(Filter(l.properties, OwnedBy(user)));
  }
}
