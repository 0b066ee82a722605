/**
 * The dashboard filters of core/utils.py.  Both are the comprehension
 * `[rental for property in properties for rental in property.property_rentals.all() if keep(rental)]`
 * and differ only in `keep`.
 */
module Dashboard {
  import opened Wrappers
  import opened Seqs
  import opened Models

  function BelongsTo(pid: Id): Rental -> bool
  {
    (r: Rental) => r.property == pid
  }

  /** `property.property_rentals.all()`: the property's rentals in table order. */
  function RentalsOf(rentals: seq<Rental>, pid: Id): seq<Rental>
  {
    Filter(rentals, BelongsTo(pid))
  }

  /** Every rental of the given properties: property order first, then table order. */
  function Listing(props: seq<Property>, rentals: seq<Rental>): seq<Rental>
  {
    if props == [] then [] else RentalsOf(rentals, props[0].id) + Listing(props[1..], rentals)
  }

  /** The nested comprehension with filter `keep`. */
  function Select(props: seq<Property>, rentals: seq<Rental>, keep: Rental -> bool): (r: seq<Rental>)
    ensures |r| <= |Listing(props, rentals)|
    ensures forall x :: x in r ==> x in rentals && x.property in PropertyIds(props) && keep(x)
    ensures forall x :: x in rentals && x.property in PropertyIds(props) && keep(x) ==> x in r
  {
    if props == [] then []
    else
      var head := Filter(RentalsOf(rentals, props[0].id), keep);
      var rest := Select(props[1..], rentals, keep);
      assert PropertyIds(props) == {props[0].id} + PropertyIds(props[1..]) by {
        forall k | k in PropertyIds(props) ensures k in {props[0].id} + PropertyIds(props[1..]) {
          var i :| 0 <= i < |props| && props[i].id == k;
          if i > 0 { assert PropertyId(props[1..][i - 1]) == k; }
        }
        forall k | k in PropertyIds(props[1..]) ensures k in PropertyIds(props) {
          var i :| 0 <= i < |props[1..]| && PropertyId(props[1..][i]) == k;
          assert PropertyId(props[i + 1]) == k;
        }
        assert PropertyId(props[0]) in PropertyIds(props);
      }
      FilterMembers(RentalsOf(rentals, props[0].id), keep);
      FilterMembers(rentals, BelongsTo(props[0].id));
      head + rest
  }

  /** Filtering each property's rentals is filtering the whole listing: order is kept. */
  lemma {:induction false} SelectIsFilteredListing(props: seq<Property>, rentals: seq<Rental>, keep: Rental -> bool)
    ensures Select(props, rentals, keep) == Filter(Listing(props, rentals), keep)
    ensures IsSubsequence(Select(props, rentals, keep), Listing(props, rentals))
  {
    if props != [] {
      SelectIsFilteredListing(props[1..], rentals, keep);
      FilterAppend(RentalsOf(rentals, props[0].id), Listing(props[1..], rentals), keep);
    }
    FilterIsSubsequence(Listing(props, rentals), keep);
  }

  function InIds(ids: set<nat>): Rental -> bool
  {
    (r: Rental) => r.property in ids
  }

  /** With distinct properties, the listing holds each of their rentals exactly once. */
  lemma {:induction false} ListingLength(props: seq<Property>, rentals: seq<Rental>)
    requires DistinctKeys(props, PropertyId)
    ensures |Listing(props, rentals)| == |Filter(rentals, InIds(PropertyIds(props)))|
    ensures |Listing(props, rentals)| <= |rentals|
  {
    if props == [] {
      FilterNone(rentals, InIds(PropertyIds(props)));
    } else {
      var tail := props[1..];
      ListingLength(tail, rentals);
      assert DistinctKeys(tail, PropertyId) by {
        forall i, j | 0 <= i < j < |tail| ensures PropertyId(tail[i]) != PropertyId(tail[j]) {
          assert tail[i] == props[i + 1] && tail[j] == props[j + 1];
        }
      }
      assert PropertyIds(props) == {props[0].id} + PropertyIds(tail) by {
        forall k | k in PropertyIds(props) ensures k in {props[0].id} + PropertyIds(tail) {
          var i :| 0 <= i < |props| && PropertyId(props[i]) == k;
          if i > 0 { assert PropertyId(tail[i - 1]) == k; }
        }
        forall k | k in PropertyIds(tail) ensures k in PropertyIds(props) {
          var i :| 0 <= i < |tail| && PropertyId(tail[i]) == k;
          assert PropertyId(props[i + 1]) == k;
        }
        assert PropertyId(props[0]) in PropertyIds(props);
      }
      assert props[0].id !in PropertyIds(tail) by {
        forall i | 0 <= i < |tail| ensures PropertyId(tail[i]) != props[0].id {
          assert tail[i] == props[i + 1];
        }
      }
      FilterSplitCount(rentals, BelongsTo(props[0].id), InIds(PropertyIds(tail)), InIds(PropertyIds(props)));
    }
  }

  // ------------------------------------------------------ expiring contracts

  function ExpiringAt(today: Day): Rental -> bool
  {
    (r: Rental) => ExpiringContract(r.endDate, today).Some?
  }

  /** `get_expiring_contracts(properties)` */
  function ExpiringContracts(props: seq<Property>, rentals: seq<Rental>, today: Day): (r: seq<Rental>)
    ensures forall x :: x in r <==> x in rentals && x.property in PropertyIds(props) && today >= x.endDate - 30
    ensures |r| <= |Listing(props, rentals)|
  {
    Select(props, rentals, ExpiringAt(today))
  }

  /**
   * A rental is listed exactly when it belongs to one of the properties and
   * its contract ends within 30 days (or has already ended); the list keeps
   * the listing's order and, for distinct properties, is no longer than the
   * rental table.
   */
  lemma ExpiringContractsSpec(props: seq<Property>, rentals: seq<Rental>, today: Day)
    ensures forall x :: x in ExpiringContracts(props, rentals, today) <==>
      x in rentals && x.property in PropertyIds(props) && today >= x.endDate - 30
    ensures IsSubsequence(ExpiringContracts(props, rentals, today), Listing(props, rentals))
    ensures DistinctKeys(props, PropertyId) ==> |ExpiringContracts(props, rentals, today)| <= |rentals|
  {
    SelectIsFilteredListing(props, rentals, ExpiringAt(today));
    if DistinctKeys(props, PropertyId) {
      ListingLength(props, rentals);
    }
  }

  // ------------------------------------------------------- upcoming payments

  /** `(next_payment := ...) and next_payment <= 7`: None and 0 are both falsy. */
  predicate IsUpcoming(next: Option<int>)
  {
    next.Some? && next.value != 0 && next.value <= 7
  }

  function UpcomingAt(nextPayment: NextPaymentFn): Rental -> bool
  {
    (r: Rental) => IsUpcoming(NextPaymentOf(r, nextPayment))
  }

  /** `get_upcoming_payments(properties)` */
  function UpcomingPayments(props: seq<Property>, rentals: seq<Rental>, nextPayment: NextPaymentFn): (r: seq<Rental>)
    ensures forall x :: x in r <==>
      x in rentals && x.property in PropertyIds(props) && IsUpcoming(NextPaymentOf(x, nextPayment))
    ensures |r| <= |Listing(props, rentals)|
  {
    Select(props, rentals, UpcomingAt(nextPayment))
  }

  /**
   * A rental is listed exactly when it belongs to one of the properties and
   * its next payment is due in at most 7 days but not today; overdue
   * (negative) counts pass, and the list keeps the listing's order.
   */
  lemma UpcomingPaymentsSpec(props: seq<Property>, rentals: seq<Rental>, nextPayment: NextPaymentFn)
    ensures forall x :: x in UpcomingPayments(props, rentals, nextPayment) <==>
      && x in rentals && x.property in PropertyIds(props)
      && NextPaymentOf(x, nextPayment).Some?
      && NextPaymentOf(x, nextPayment).value != 0
      && NextPaymentOf(x, nextPayment).value <= 7
    ensures IsSubsequence(UpcomingPayments(props, rentals, nextPayment), Listing(props, rentals))
    ensures DistinctKeys(props, PropertyId) ==> |UpcomingPayments(props, rentals, nextPayment)| <= |rentals|
  {
    SelectIsFilteredListing(props, rentals, UpcomingAt(nextPayment));
    if DistinctKeys(props, PropertyId) {
      ListingLength(props, rentals);
    }
  }

  /** A payment due today is dropped by the truthiness test. */
  lemma DueTodayIsNotUpcoming(props: seq<Property>, rentals: seq<Rental>, nextPayment: NextPaymentFn, x: Rental)
    requires NextPaymentOf(x, nextPayment) == Some(0)
    ensures x !in UpcomingPayments(props, rentals, nextPayment)
  {
  }

  /** A payment already past due (a negative count) is listed. */
  lemma PastDueIsUpcoming(props: seq<Property>, rentals: seq<Rental>, nextPayment: NextPaymentFn, x: Rental)
    requires x in rentals && x.property in PropertyIds(props)
    requires NextPaymentOf(x, nextPayment).Some? && NextPaymentOf(x, nextPayment).value < 0
    ensures x in UpcomingPayments(props, rentals, nextPayment)
  {
  }
}
