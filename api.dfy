/** The endpoint rules of the backend: request validation, the duplicate
    checks that guard the create endpoints, the order in which the rental
    endpoints change the store, the payments report and the list bounds.
    "now" and "today" are parameters. */
module Api {
  import opened Base
  import opened Schemas
  import opened CrudQueries
  import opened Crud

  /** An HTTPException, or the framework's own refusal of a request. */
  datatype HttpError = HttpError(status: int, detail: string)

  /** The refusal of a request whose body or query breaks the schema. */
  const Unprocessable := HttpError(422, "Unprocessable Entity")

  const EmailTaken := HttpError(400, "Email already registered")
  const LicenseTaken := HttpError(400, "Driver license already registered")
  const PlateTaken := HttpError(400, "License plate already exists")
  const VehicleUnavailable := HttpError(400, "Vehicle is not available for the selected dates")
  const CannotConvert := HttpError(400, "Cannot convert reservation to rental")
  const RentalNotFound := HttpError(404, "Rental not found")
  const CustomerNotFound := HttpError(404, "Customer not found")
  const ProfileNotFound := HttpError(404, "Customer membership profile not found")
  /** The framework's answer to an exception no handler catches. */
  const ServerError := HttpError(500, "Internal Server Error")

  /** POST /customers/: the schema first, then a duplicate email, then a
      duplicate driver licence; only a request that passes all three
      creates the customer. */
  method CreateCustomer(store: Store, info: CustomerInfo) returns (r: Result<Customer, HttpError>)
    requires store.Valid()
    modifies store`customers, store`nextCustomerId
    ensures store.Valid()
    ensures !CustomerInfoValid(info) ==> r == Err(Unprocessable) && unchanged(store)
    ensures CustomerInfoValid(info) && old(store.CustomerByEmail(info.email)).Some? ==>
              r == Err(EmailTaken) && unchanged(store)
    ensures CustomerInfoValid(info) && old(store.CustomerByEmail(info.email)).None?
            && old(store.CustomerByDriverLicense(info.driverLicense)).Some? ==>
              r == Err(LicenseTaken) && unchanged(store)
    ensures r.Ok? <==> (CustomerInfoValid(info) && old(store.CustomerByEmail(info.email)).None?
                        && old(store.CustomerByDriverLicense(info.driverLicense)).None?)
    ensures r.Ok? ==> r.value.info == info && store.customers == old(store.customers) + [r.value]
    ensures old(CustomersUnique(store.customers)) ==> CustomersUnique(store.customers)
  {
    if !CustomerInfoValid(info) {
      return Err(Unprocessable);
    }
    if store.CustomerByEmail(info.email).Some? {
      return Err(EmailTaken);
    }
    if store.CustomerByDriverLicense(info.driverLicense).Some? {
      return Err(LicenseTaken);
    }
    if CustomersUnique(store.customers) {
      AppendCustomerUniqueIff(store.customers, Customer(store.nextCustomerId, info));
    }
    var c := store.CreateCustomer(info);
    r := Ok(c);
  }

  /** POST /vehicles/: a duplicate licence plate is refused and nothing is created. */
  method CreateVehicle(store: Store, info: VehicleInfo) returns (r: Result<Vehicle, HttpError>)
    requires store.Valid()
    modifies store`vehicles, store`nextVehicleId
    ensures store.Valid()
    ensures !VehicleInfoValid(info) ==> r == Err(Unprocessable) && unchanged(store)
    ensures VehicleInfoValid(info) && old(store.VehicleByPlate(info.licensePlate)).Some? ==>
              r == Err(PlateTaken) && unchanged(store)
    ensures r.Ok? <==> VehicleInfoValid(info) && old(store.VehicleByPlate(info.licensePlate)).None?
    ensures r.Ok? ==> r.value.info == info && store.vehicles == old(store.vehicles) + [r.value]
    ensures old(PlatesUnique(store.vehicles)) ==> PlatesUnique(store.vehicles)
  {
    if !VehicleInfoValid(info) {
      return Err(Unprocessable);
    }
    if store.VehicleByPlate(info.licensePlate).Some? {
      return Err(PlateTaken);
    }
    if PlatesUnique(store.vehicles) {
      AppendVehiclePlateUniqueIff(store.vehicles, Vehicle(store.nextVehicleId, info));
    }
    var v := store.CreateVehicle(info);
    r := Ok(v);
  }

  /** POST /employees/: a duplicate email is refused and nothing is created. */
  method CreateEmployee(store: Store, info: EmployeeInfo) returns (r: Result<Employee, HttpError>)
    requires store.Valid()
    modifies store`employees, store`nextEmployeeId
    ensures store.Valid()
    ensures !EmployeeInfoValid(info) ==> r == Err(Unprocessable) && unchanged(store)
    ensures EmployeeInfoValid(info) && old(store.EmployeeByEmail(info.email)).Some? ==>
              r == Err(EmailTaken) && unchanged(store)
    ensures r.Ok? <==> EmployeeInfoValid(info) && old(store.EmployeeByEmail(info.email)).None?
    ensures r.Ok? ==> r.value.info == info && store.employees == old(store.employees) + [r.value]
  {
    if !EmployeeInfoValid(info) {
      return Err(Unprocessable);
    }
    if store.EmployeeByEmail(info.email).Some? {
      return Err(EmailTaken);
    }
    var e := store.CreateEmployee(info);
    r := Ok(e);
  }

  /** POST /reservations/: refused, with nothing created, when another
      reservation holds the vehicle over the requested window. */
  method CreateReservation(store: Store, info: ReservationInfo) returns (r: Result<Reservation, HttpError>)
    requires store.Valid()
    modifies store`reservations, store`nextReservationId
    ensures store.Valid()
    ensures r.Ok? <==> old(CheckVehicleAvailability(store.reservations, info.vehicleId, info.reservedStartDate, info.reservedEndDate))
    ensures r.Err? ==> r.error == VehicleUnavailable && unchanged(store)
    ensures r.Ok? ==> r.value.info == info && store.reservations == old(store.reservations) + [r.value]
  {
    if !CheckVehicleAvailability(store.reservations, info.vehicleId, info.reservedStartDate, info.reservedEndDate) {
      return Err(VehicleUnavailable);
    }
    var x := store.CreateReservation(info);
    r := Ok(x);
  }

  /** A reservation accepted for a well-formed window never overlaps an
      existing hold on the same vehicle. */
  lemma AcceptedReservationOverlapsNoHold(reservations: seq<Reservation>, info: ReservationInfo, i: int)
    requires CheckVehicleAvailability(reservations, info.vehicleId, info.reservedStartDate, info.reservedEndDate)
    requires info.reservedStartDate < info.reservedEndDate
    requires 0 <= i < |reservations| && reservations[i].info.vehicleId == info.vehicleId
    requires HoldsVehicle(reservations[i].info.status)
    requires reservations[i].info.reservedStartDate < reservations[i].info.reservedEndDate
    ensures reservations[i].info.reservedEndDate <= info.reservedStartDate
         || info.reservedEndDate <= reservations[i].info.reservedStartDate
  {
    var x := reservations[i].info;
    assert !Blocks(reservations[i], info.vehicleId, info.reservedStartDate, info.reservedEndDate);
    OverlapClausesIffOverlap(x.reservedStartDate, x.reservedEndDate, info.reservedStartDate, info.reservedEndDate);
  }

  /** POST /rentals/: the vehicle is marked unavailable and the rental is
      created, with no availability check of any kind. */
  method CreateRental(store: Store, info: RentalInfo, now: int) returns (r: Result<Rental, HttpError>)
    requires store.Valid()
    modifies store`vehicles, store`rentals, store`nextRentalId
    ensures store.Valid()
    ensures r.Ok?
    ensures r.value == Rental(old(store.nextRentalId), now, info)
    ensures store.rentals == old(store.rentals) + [r.value]
    ensures var j := old(store.VehicleIndex(info.vehicleId));
      store.vehicles == if j.None? then old(store.vehicles)
                        else old(store.vehicles)[j.value := WithAvailability(old(store.vehicles)[j.value], false)]
  {
    var _ := store.UpdateAvailability(info.vehicleId, false);
    var x := store.CreateRental(info, now);
    r := Ok(x);
  }

  /** POST /reservations/{id}/convert: 400 whenever the conversion does not happen. */
  method ConvertReservationToRental(store: Store, reservationId: int, info: RentalInfo, now: int) returns (r: Result<Rental, HttpError>)
    requires store.Valid()
    modifies store`rentals, store`nextRentalId, store`reservations, store`vehicles
    ensures store.Valid()
    ensures var k := old(store.ReservationIndex(reservationId));
      r.Ok? <==> k.Some? && old(store.reservations)[k.value].info.status == "Confirmed"
    ensures r.Err? ==> r.error == CannotConvert && unchanged(store)
    ensures r.Ok? ==> r.value.info == info && store.rentals == old(store.rentals) + [r.value]
    ensures r.Ok? ==>
      var k := old(store.ReservationIndex(reservationId)).value;
      var res := old(store.reservations)[k];
      var j := old(store.VehicleIndex(res.info.vehicleId));
      && store.reservations == old(store.reservations)[k := res.(info := res.info.(status := "Converted"))]
      && store.vehicles == (if j.None? then old(store.vehicles)
                            else old(store.vehicles)[j.value := WithAvailability(old(store.vehicles)[j.value], false)])
  {
    var x := store.ConvertToRental(reservationId, info, now);
    if x.None? {
      return Err(CannotConvert);
    }
    r := Ok(x.value);
  }

  /** `x or Decimal('0.00')`: a missing or zero fee becomes zero. */
  function FeeOrZero(x: Option<int>): (f: int)
    ensures x.None? ==> f == 0
    ensures x.Some? ==> f == x.value
  {
    if x.Some? && x.value != 0 then x.value else 0
  }

  /** PATCH /rentals/{id}/return: the rental is closed at now with the
      missing fees replaced by zero; 404 when there is no such rental;
      otherwise the customer's profile is credited with the rental's
      total_amount (the fees are not part of that credit) and one rental. */
  method ReturnRentalVehicle(store: Store, rentalId: int, mileageEnd: Option<int>, fuelLevelEnd: Option<real>,
                             lateFees: Option<int>, damageFees: Option<int>, now: int, today: int)
    returns (r: Result<Rental, HttpError>)
    requires store.Valid()
    modifies store`rentals, store`vehicles, store`profiles
    ensures store.Valid()
    ensures old(store.RentalIndex(rentalId)).None? ==> r == Err(RentalNotFound) && unchanged(store)
    ensures old(store.RentalIndex(rentalId)).Some? ==>
      var k := old(store.RentalIndex(rentalId)).value;
      var before := old(store.rentals)[k];
      var p := old(store.ProfileIndex(before.info.customerId));
      var j := old(store.VehicleIndex(before.info.vehicleId));
      && r.Ok?
      && store.rentals == old(store.rentals)[k := r.value]
      && store.vehicles == (if j.None? then old(store.vehicles)
                            else old(store.vehicles)[j.value := ReturnedVehicle(old(store.vehicles)[j.value], mileageEnd)])
      && r.value == ReturnedRental(before, ReturnData(Some(now), mileageEnd, fuelLevelEnd,
                                                      Some(FeeOrZero(lateFees)), Some(FeeOrZero(damageFees))), now)
      && r.value.info.lateFees == FeeOrZero(lateFees) && r.value.info.damageFees == FeeOrZero(damageFees)
      && r.value.info.actualReturnDate == Some(now)
      && store.profiles == (if p.None? then old(store.profiles)
                            else old(store.profiles)[p.value := AddSpending(old(store.profiles)[p.value], before.info.totalAmount, today)])
  {
    var data := ReturnData(Some(now), mileageEnd, fuelLevelEnd, Some(FeeOrZero(lateFees)), Some(FeeOrZero(damageFees)));
    var x := store.ReturnVehicle(rentalId, data, now);
    if x.None? {
      return Err(RentalNotFound);
    }
    var _ := store.UpdateSpending(x.value.info.customerId, x.value.info.totalAmount, today);
    r := Ok(x.value);
  }

  /** DELETE /customers/{id}: 404 when there was nothing to delete; the
      failed commit of a customer that still has a profile, reservation or
      rental escapes as a server error, with no change. */
  method DeleteCustomer(store: Store, customerId: int) returns (r: Result<(), HttpError>)
    requires store.Valid()
    modifies store`customers
    ensures store.Valid()
    ensures r.Ok? <==> old(store.CustomerIndex(customerId)).Some? && !old(store.HasDependents(customerId))
    ensures old(store.CustomerIndex(customerId)).None? ==> r == Err(CustomerNotFound) && unchanged(store)
    ensures old(store.CustomerIndex(customerId)).Some? && old(store.HasDependents(customerId)) ==>
              r == Err(ServerError) && unchanged(store)
    ensures r.Ok? ==> var k := old(store.CustomerIndex(customerId)).value;
      store.customers == old(store.customers)[..k] + old(store.customers)[k + 1..]
    ensures r.Ok? ==> forall i :: 0 <= i < |store.customers| ==> store.customers[i].customerId != customerId
    ensures old(store.CustomerRefsResolve()) ==> store.CustomerRefsResolve()
  {
    var x := store.DeleteCustomer(customerId);
    match x
    case NoRow => r := Err(CustomerNotFound);
    case RolledBack => r := Err(ServerError);
    case Committed(_) => r := Ok(());
  }

  /** PATCH /membership/{customer_id}/points: 404 without a profile. */
  method UpdateCustomerPoints(store: Store, customerId: int, points: int, today: int) returns (r: Result<(), HttpError>)
    modifies store`profiles
    ensures r.Err? <==> old(store.ProfileIndex(customerId)).None?
    ensures r.Err? ==> r.error == ProfileNotFound && unchanged(store)
    ensures r.Ok? ==>
      var k := old(store.ProfileIndex(customerId)).value;
      store.profiles == old(store.profiles)[k := AddPoints(old(store.profiles)[k], points, today)]
  {
    var x := store.UpdatePoints(customerId, points, today);
    if x.None? {
      return Err(ProfileNotFound);
    }
    r := Ok(());
  }

  // ---------------------------------------------------------------------
  // Reports and lists

  function PaymentAmount(p: Payment): int
  {
    p.info.amount
  }

  datatype PaymentsReport = PaymentsReport(startDate: int, endDate: int, totalPayments: int, totalAmount: int, payments: seq<Payment>)

  /** GET /payments/report: the Completed payments recorded in the range,
      how many there are, and what they add up to. */
  function PaymentsReportFor(payments: seq<Payment>, fromDay: int, toDay: int): (r: PaymentsReport)
    ensures r.payments == PaymentsByDateRange(payments, fromDay, toDay)
    ensures r.totalPayments == |r.payments|
    ensures r.totalAmount == Sum(r.payments, PaymentAmount)
    ensures r.startDate == fromDay && r.endDate == toDay
  {
    var selected := PaymentsByDateRange(payments, fromDay, toDay);
    PaymentsReport(fromDay, toDay, |selected|, Sum(selected, PaymentAmount), selected)
  }

  /** Splitting a range at a day splits the report's count and total. */
  lemma PaymentsReportSplits(payments: seq<Payment>, fromDay: int, mid: int, toDay: int)
    requires fromDay <= mid < toDay
    ensures PaymentsReportFor(payments, fromDay, toDay).totalPayments
         == PaymentsReportFor(payments, fromDay, mid).totalPayments + PaymentsReportFor(payments, mid + 1, toDay).totalPayments
    ensures PaymentsReportFor(payments, fromDay, toDay).totalAmount
         == PaymentsReportFor(payments, fromDay, mid).totalAmount + PaymentsReportFor(payments, mid + 1, toDay).totalAmount
  {
    FilterSplit(payments, (x: Payment) => PaymentInRange(x, fromDay, toDay),
                (x: Payment) => PaymentInRange(x, fromDay, mid),
                (x: Payment) => PaymentInRange(x, mid + 1, toDay), PaymentAmount);
  }

  /** Query bounds of the list endpoints: skip >= 0 and 1 <= limit <= 100. */
  predicate ListBoundsOk(skip: int, limit: int)
  {
    skip >= 0 && 1 <= limit <= 100
  }

  /** GET /customers/ (and the other plain list endpoints): skip defaults to 0
      and limit to 100; bounds outside the allowed range are refused. */
  function ReadCustomers(customers: seq<Customer>, skip: Option<int>, limit: Option<int>): (r: Result<seq<Customer>, HttpError>)
    ensures r.Ok? <==> ListBoundsOk(skip.GetOr(0), limit.GetOr(100))
    ensures r.Err? ==> r.error == Unprocessable
    ensures r.Ok? ==> |r.value| <= limit.GetOr(100) <= 100
    ensures r.Ok? ==> forall i :: 0 <= i < |r.value| ==> skip.GetOr(0) + i < |customers| && r.value[i] == customers[skip.GetOr(0) + i]
    ensures r.Ok? && skip.None? && limit.None? && |customers| <= 100 ==> r.value == customers
  {
    var s := skip.GetOr(0);
    var l := limit.GetOr(100);
    if !ListBoundsOk(s, l) then Err(Unprocessable) else Ok(OffsetLimit(customers, s, l))
  }

  /** GET /customers/search/: the term must have at least one character. */
  function SearchCustomersEndpoint(customers: seq<Customer>, q: string, skip: Option<int>, limit: Option<int>): (r: Result<seq<Customer>, HttpError>)
    ensures r.Ok? <==> |q| >= 1 && ListBoundsOk(skip.GetOr(0), limit.GetOr(100))
    ensures r.Ok? ==> r.value == SearchCustomers(customers, q, skip.GetOr(0), limit.GetOr(100))
  {
    var s := skip.GetOr(0);
    var l := limit.GetOr(100);
    if |q| < 1 || !ListBoundsOk(s, l) then Err(Unprocessable) else Ok(SearchCustomers(customers, q, s, l))
  }
}
