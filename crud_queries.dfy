/** The read-only queries of the backend's data layer, over tables held as
    sequences in insertion order: the reservation conflict test, overdue
    rentals, revenue, the rental and vehicle filters, customer search and
    the payments-by-date query.  A `date` parameter is a day number; where
    the source compares a datetime column with a date it is compared with
    that day's midnight, as the database does. */
module CrudQueries {
  import opened Base
  import opened Text
  import opened Schemas

  /** Day number of an instant: `func.date(...)`. */
  function DayOf(ms: int): int
  {
    ms / DayMs
  }

  /** Midnight at the start of day d. */
  function Midnight(d: int): int
  {
    d * DayMs
  }

  /** An instant falls on day d exactly when it lies in [midnight(d), midnight(d + 1)). */
  lemma DayOfBounds(ms: int, d: int)
    ensures DayOf(ms) == d <==> Midnight(d) <= ms < Midnight(d + 1)
  {
    var q := ms / DayMs;
    var m := ms % DayMs;
    assert ms == q * DayMs + m && 0 <= m < DayMs;
  }

  // ---------------------------------------------------------------------
  // Reservations

  /** The three-clause conflict test between an existing reservation
      [rs, re] and a requested window [s, e]: the existing one starts at or
      before s and ends after it, or starts before e and ends at or after
      it, or lies inside [s, e]. */
  predicate OverlapClauses(rs: int, re: int, s: int, e: int)
  {
    || (rs <= s && re > s)
    || (rs < e && re >= e)
    || (rs >= s && re <= e)
  }

  /** For well-formed windows the three clauses amount to half-open overlap. */
  lemma OverlapClausesIffOverlap(rs: int, re: int, s: int, e: int)
    requires s < e && rs < re
    ensures OverlapClauses(rs, re, s, e) <==> rs < e && re > s
  {
  }

  /** Windows that only touch do not conflict. */
  lemma BackToBackNoConflict(rs: int, re: int, s: int, e: int)
    requires s < e && rs < re
    requires re == s || e == rs
    ensures !OverlapClauses(rs, re, s, e)
  {
  }

  /** The statuses that hold a vehicle. */
  predicate HoldsVehicle(status: string)
  {
    status == "Active" || status == "Confirmed"
  }

  /** r keeps `vehicleId` from being reserved for [s, e]. */
  predicate Blocks(r: Reservation, vehicleId: int, s: int, e: int)
  {
    && r.info.vehicleId == vehicleId
    && HoldsVehicle(r.info.status)
    && OverlapClauses(r.info.reservedStartDate, r.info.reservedEndDate, s, e)
  }

  /** check_vehicle_availability: true when no reservation blocks the window. */
  function CheckVehicleAvailability(reservations: seq<Reservation>, vehicleId: int, s: int, e: int): (ok: bool)
    ensures ok <==> forall i :: 0 <= i < |reservations| ==> !Blocks(reservations[i], vehicleId, s, e)
  {
    FirstIndex(reservations, (r: Reservation) => Blocks(r, vehicleId, s, e)).None?
  }

  /** A reservation for another vehicle, or one that is neither Active nor
      Confirmed (Cancelled, Converted, ...), never changes the answer. */
  lemma NonHoldingReservationIrrelevant(reservations: seq<Reservation>, r: Reservation, vehicleId: int, s: int, e: int)
    requires r.info.vehicleId != vehicleId || !HoldsVehicle(r.info.status)
    ensures CheckVehicleAvailability(reservations + [r], vehicleId, s, e)
         == CheckVehicleAvailability(reservations, vehicleId, s, e)
  {
    var rs := reservations + [r];
    assert forall i :: 0 <= i < |reservations| ==> rs[i] == reservations[i];
    assert rs[|reservations|] == r;
  }

  /** A reservation hold that overlaps the window makes the vehicle unavailable. */
  lemma OverlappingHoldBlocks(reservations: seq<Reservation>, i: int, vehicleId: int, s: int, e: int)
    requires 0 <= i < |reservations| && s < e
    requires reservations[i].info.vehicleId == vehicleId && HoldsVehicle(reservations[i].info.status)
    requires reservations[i].info.reservedStartDate < reservations[i].info.reservedEndDate
    requires reservations[i].info.reservedStartDate < e && reservations[i].info.reservedEndDate > s
    ensures !CheckVehicleAvailability(reservations, vehicleId, s, e)
  {
    var r := reservations[i].info;
    OverlapClausesIffOverlap(r.reservedStartDate, r.reservedEndDate, s, e);
    assert Blocks(reservations[i], vehicleId, s, e);
  }

  // ---------------------------------------------------------------------
  // Rentals

  /** get_overdue_rentals' condition: Active, due before now, not returned. */
  predicate IsOverdueRow(r: Rental, now: int)
  {
    r.info.status == "Active" && r.info.endDate < now && r.info.actualReturnDate.None?
  }

  function OverdueRentals(rentals: seq<Rental>, now: int): (r: seq<Rental>)
    ensures IsSubsequence(r, rentals)
    ensures forall i :: 0 <= i < |r| ==> IsOverdueRow(r[i], now)
    ensures forall i :: 0 <= i < |rentals| && IsOverdueRow(rentals[i], now) ==> rentals[i] in r
  {
    var p := (x: Rental) => IsOverdueRow(x, now);
    FilterIsSubsequence(rentals, p);
    Filter(rentals, p)
  }

  /** get_rental_revenue's condition: Completed, and started no earlier than
      midnight of the first day and no later than midnight of the last. */
  predicate CountsAsRevenue(r: Rental, fromDay: int, toDay: int)
  {
    && Midnight(fromDay) <= r.info.startDate <= Midnight(toDay)
    && r.info.status == "Completed"
  }

  function TotalAmount(r: Rental): int
  {
    r.info.totalAmount
  }

  /** get_rental_revenue: the sum of total_amount over the counted rentals;
      an empty sum is 0.00. */
  function RentalRevenue(rentals: seq<Rental>, fromDay: int, toDay: int): int
  {
    Sum(Filter(rentals, (r: Rental) => CountsAsRevenue(r, fromDay, toDay)), TotalAmount)
  }

  /** No counted rental, no revenue. */
  lemma RevenueZeroWithoutMatch(rentals: seq<Rental>, fromDay: int, toDay: int)
    requires forall i :: 0 <= i < |rentals| ==> !CountsAsRevenue(rentals[i], fromDay, toDay)
    ensures RentalRevenue(rentals, fromDay, toDay) == 0
  {
    FilterNone(rentals, (r: Rental) => CountsAsRevenue(r, fromDay, toDay));
  }

  /** Revenue over two lists of rentals is the sum of their revenues. */
  lemma RevenueAppend(a: seq<Rental>, b: seq<Rental>, fromDay: int, toDay: int)
    ensures RentalRevenue(a + b, fromDay, toDay) == RentalRevenue(a, fromDay, toDay) + RentalRevenue(b, fromDay, toDay)
  {
    var p := (r: Rental) => CountsAsRevenue(r, fromDay, toDay);
    FilterAppend(a, b, p);
    SumAppend(Filter(a, p), Filter(b, p), TotalAmount);
  }

  /** A rental that is not Completed adds nothing to revenue. */
  lemma RevenueIgnoresUncompleted(rentals: seq<Rental>, r: Rental, fromDay: int, toDay: int)
    requires r.info.status != "Completed"
    ensures RentalRevenue(rentals + [r], fromDay, toDay) == RentalRevenue(rentals, fromDay, toDay)
  {
    RevenueAppend(rentals, [r], fromDay, toDay);
    RevenueZeroWithoutMatch([r], fromDay, toDay);
  }

  /** A Completed rental inside the range adds exactly its total. */
  lemma RevenueCountsCompleted(rentals: seq<Rental>, r: Rental, fromDay: int, toDay: int)
    requires CountsAsRevenue(r, fromDay, toDay)
    ensures RentalRevenue(rentals + [r], fromDay, toDay) == RentalRevenue(rentals, fromDay, toDay) + r.info.totalAmount
  {
    RevenueAppend(rentals, [r], fromDay, toDay);
    var p := (x: Rental) => CountsAsRevenue(x, fromDay, toDay);
    assert Filter([r], p) == [r] by {
      assert [r][1..] == [];
    }
    assert Sum([r], TotalAmount) == r.info.totalAmount by {
      assert [r][1..] == [];
    }
  }

  /** Truthiness of an optional filter value: Python's `if filters.x:`. */
  predicate GivenInt(x: Option<int>)
  {
    x.Some? && x.value != 0
  }

  predicate GivenStr(x: Option<string>)
  {
    x.Some? && x.value != ""
  }

  datatype RentalFilters = RentalFilters(
    customerId: Option<int>,
    vehicleId: Option<int>,
    status: Option<string>,
    startDateFrom: Option<int>,
    startDateTo: Option<int>,
    pickupLocationId: Option<int>,
    returnLocationId: Option<int>)

  /** A rental passes every filter that was given. */
  predicate MatchesRentalFilters(r: Rental, f: RentalFilters)
  {
    && (GivenInt(f.customerId) ==> r.info.customerId == f.customerId.value)
    && (GivenInt(f.vehicleId) ==> r.info.vehicleId == f.vehicleId.value)
    && (GivenStr(f.status) ==> r.info.status == f.status.value)
    && (f.startDateFrom.Some? ==> r.info.startDate >= Midnight(f.startDateFrom.value))
    && (f.startDateTo.Some? ==> r.info.startDate <= Midnight(f.startDateTo.value))
    && (GivenInt(f.pickupLocationId) ==> r.info.pickupLocationId == f.pickupLocationId.value)
    && (GivenInt(f.returnLocationId) ==> r.info.returnLocationId == f.returnLocationId.value)
  }

  /** filter_rentals: the matching rentals, newest first, then offset and
      limit.  Newest first is the reverse of insertion order. */
  function FilterRentals(rentals: seq<Rental>, f: RentalFilters, skip: nat, limit: nat): (r: seq<Rental>)
    ensures |r| <= limit
    ensures forall i :: 0 <= i < |r| ==> r[i] in rentals && MatchesRentalFilters(r[i], f)
  {
    OffsetLimit(Reverse(Filter(rentals, (x: Rental) => MatchesRentalFilters(x, f))), skip, limit)
  }

  /** With no filter given, filter_rentals pages through all rentals, newest first. */
  lemma NoRentalFiltersPagesAll(rentals: seq<Rental>, skip: nat, limit: nat)
    ensures FilterRentals(rentals, RentalFilters(None, None, None, None, None, None, None), skip, limit)
         == OffsetLimit(Reverse(rentals), skip, limit)
  {
    var f := RentalFilters(None, None, None, None, None, None, None);
    FilterAll(rentals, (x: Rental) => MatchesRentalFilters(x, f));
  }

  /** A zero id or an empty status is falsy and filters nothing. */
  lemma FalsyRentalFiltersIgnored(r: Rental, f: RentalFilters)
    requires f.customerId == Some(0) && f.vehicleId == Some(0) && f.status == Some("")
    requires f.startDateFrom.None? && f.startDateTo.None?
    requires f.pickupLocationId.None? && f.returnLocationId.None?
    ensures MatchesRentalFilters(r, f)
  {
  }

  datatype VehicleFilters = VehicleFilters(
    make: Option<string>,
    model: Option<string>,
    fuelType: Option<string>,
    transmission: Option<string>,
    minYear: Option<int>,
    maxYear: Option<int>,
    availability: Option<bool>,
    locationId: Option<int>,
    minDailyRate: Option<int>,
    maxDailyRate: Option<int>)

  /** A vehicle passes every filter that was given: make and model as
      case-insensitive substrings, the rest exactly or as bounds.  The
      availability filter applies whenever it is present, even when false. */
  predicate MatchesVehicleFilters(v: Vehicle, f: VehicleFilters)
  {
    && (GivenStr(f.make) ==> ContainsIgnoringCase(v.info.make, f.make.value))
    && (GivenStr(f.model) ==> ContainsIgnoringCase(v.info.model, f.model.value))
    && (GivenStr(f.fuelType) ==> v.info.fuelType == f.fuelType.value)
    && (GivenStr(f.transmission) ==> v.info.transmission == f.transmission.value)
    && (GivenInt(f.minYear) ==> v.info.year >= f.minYear.value)
    && (GivenInt(f.maxYear) ==> v.info.year <= f.maxYear.value)
    && (f.availability.Some? ==> v.info.availability == f.availability.value)
    && (GivenInt(f.locationId) ==> v.info.locationId == Some(f.locationId.value))
    && (GivenInt(f.minDailyRate) ==> v.info.dailyRate >= f.minDailyRate.value)
    && (GivenInt(f.maxDailyRate) ==> v.info.dailyRate <= f.maxDailyRate.value)
  }

  /** filter_vehicles: the matching vehicles in table order, then offset and limit. */
  function FilterVehicles(vehicles: seq<Vehicle>, f: VehicleFilters, skip: nat, limit: nat): (r: seq<Vehicle>)
    ensures |r| <= limit
    ensures forall i :: 0 <= i < |r| ==> r[i] in vehicles && MatchesVehicleFilters(r[i], f)
  {
    OffsetLimit(Filter(vehicles, (x: Vehicle) => MatchesVehicleFilters(x, f)), skip, limit)
  }

  /** Asking for unavailable vehicles returns only unavailable ones: the
      test is `is not None`, not truthiness. */
  lemma UnavailableFilterApplies(vehicles: seq<Vehicle>, f: VehicleFilters, skip: nat, limit: nat, i: int)
    requires f.availability == Some(false)
    requires 0 <= i < |FilterVehicles(vehicles, f, skip, limit)|
    ensures !FilterVehicles(vehicles, f, skip, limit)[i].info.availability
  {
  }

  // ---------------------------------------------------------------------
  // Customers and payments

  /** search_customers' condition: the term occurs, ignoring case, in the
      first name, last name, email or phone.  The driver licence is not searched. */
  predicate CustomerMatchesSearch(c: Customer, term: string)
  {
    || ContainsIgnoringCase(c.info.firstName, term)
    || ContainsIgnoringCase(c.info.lastName, term)
    || ContainsIgnoringCase(c.info.email, term)
    || ContainsIgnoringCase(c.info.phone, term)
  }

  function SearchCustomers(customers: seq<Customer>, term: string, skip: nat, limit: nat): (r: seq<Customer>)
    ensures |r| <= limit
    ensures forall i :: 0 <= i < |r| ==> r[i] in customers && CustomerMatchesSearch(r[i], term)
    ensures skip == 0 && |Filter(customers, (c: Customer) => CustomerMatchesSearch(c, term))| <= limit ==>
              r == Filter(customers, (c: Customer) => CustomerMatchesSearch(c, term))
  {
    OffsetLimit(Filter(customers, (c: Customer) => CustomerMatchesSearch(c, term)), skip, limit)
  }

  /** Every customer whose first name contains the term is a match. */
  lemma FirstNameMatchFound(c: Customer, term: string)
    requires Contains(c.info.firstName, term)
    ensures CustomerMatchesSearch(c, term)
  {
    var i :| 0 <= i <= |c.info.firstName| && OccursAt(c.info.firstName, term, i);
    assert Lower(c.info.firstName)[i..i + |term|] == Lower(term);
    assert OccursAt(Lower(c.info.firstName), Lower(term), i);
  }

  /** get_payments_by_date_range's condition: recorded on a day in
      [fromDay, toDay] and Completed. */
  predicate PaymentInRange(p: Payment, fromDay: int, toDay: int)
  {
    fromDay <= DayOf(p.paymentDate) <= toDay && p.info.status == "Completed"
  }

  function PaymentsByDateRange(payments: seq<Payment>, fromDay: int, toDay: int): (r: seq<Payment>)
    ensures IsSubsequence(r, payments)
    ensures forall i :: 0 <= i < |r| ==> PaymentInRange(r[i], fromDay, toDay)
    ensures forall i :: 0 <= i < |payments| && PaymentInRange(payments[i], fromDay, toDay) ==> payments[i] in r
  {
    var p := (x: Payment) => PaymentInRange(x, fromDay, toDay);
    FilterIsSubsequence(payments, p);
    Filter(payments, p)
  }

  /** A payment made at any time during the last day of the range is included. */
  lemma LastDayPaymentIncluded(p: Payment, fromDay: int, toDay: int)
    requires fromDay <= toDay && p.info.status == "Completed"
    requires Midnight(toDay) <= p.paymentDate < Midnight(toDay + 1)
    ensures PaymentInRange(p, fromDay, toDay)
  {
    DayOfBounds(p.paymentDate, toDay);
  }
}
