/** The state-changing half of the data layer: the tables as fields of a
    store object, and the operations that insert, update and delete rows or
    change fields of a row in place.  A row is found the way the source
    finds it, as the first row whose key matches. */
module Crud {
  import opened Base
  import opened Schemas
  import opened CrudQueries

  function CustomerKey(c: Customer): int { c.customerId }
  function VehicleKey(v: Vehicle): int { v.vehicleId }
  function RentalKey(r: Rental): int { r.rentalId }
  function ReservationKey(r: Reservation): int { r.reservationId }
  function EmployeeKey(e: Employee): int { e.employeeId }

  // ---------------------------------------------------------------------
  // The database's own refusals: unique columns and the foreign keys to a
  // customer that may not be blanked.

  /** What a commit does to a row: it is written, there is no such row, or
      the database refuses it and the session rolls back. */
  datatype Commit<T> = Committed(row: T) | NoRow | RolledBack

  /** No two customers share an email or a driver licence, and no two
      vehicles a licence plate (the columns declared `unique`). */
  predicate CustomersUnique(cs: seq<Customer>)
  {
    forall i, j :: 0 <= i < j < |cs| ==>
      cs[i].info.email != cs[j].info.email && cs[i].info.driverLicense != cs[j].info.driverLicense
  }

  predicate PlatesUnique(vs: seq<Vehicle>)
  {
    forall i, j :: 0 <= i < j < |vs| ==> vs[i].info.licensePlate != vs[j].info.licensePlate
  }

  /** A customer other than the one at position k already holds the email or
      the driver licence of `info`; with k == |cs| that is any customer. */
  predicate CustomerClash(cs: seq<Customer>, k: nat, info: CustomerInfo)
  {
    exists j :: 0 <= j < |cs| && j != k &&
      (cs[j].info.email == info.email || cs[j].info.driverLicense == info.driverLicense)
  }

  predicate PlateClash(vs: seq<Vehicle>, k: nat, info: VehicleInfo)
  {
    exists j :: 0 <= j < |vs| && j != k && vs[j].info.licensePlate == info.licensePlate
  }

  /** Writing a customer at position k keeps the unique columns unique
      exactly when nobody else holds its email or licence. */
  lemma ReplaceCustomerUniqueIff(cs: seq<Customer>, k: nat, c: Customer)
    requires CustomersUnique(cs) && k < |cs|
    ensures CustomersUnique(cs[k := c]) <==> !CustomerClash(cs, k, c.info)
  {
    if CustomerClash(cs, k, c.info) {
      var j :| 0 <= j < |cs| && j != k &&
        (cs[j].info.email == c.info.email || cs[j].info.driverLicense == c.info.driverLicense);
      var t := cs[k := c];
      if j < k {
        assert !(t[j].info.email != t[k].info.email && t[j].info.driverLicense != t[k].info.driverLicense);
      } else {
        assert !(t[k].info.email != t[j].info.email && t[k].info.driverLicense != t[j].info.driverLicense);
      }
    }
  }

  /** Appending a customer keeps them unique exactly when nobody holds its
      email or licence. */
  lemma AppendCustomerUniqueIff(cs: seq<Customer>, c: Customer)
    requires CustomersUnique(cs)
    ensures CustomersUnique(cs + [c]) <==> !CustomerClash(cs, |cs|, c.info)
  {
    var t := cs + [c];
    if CustomerClash(cs, |cs|, c.info) {
      var j :| 0 <= j < |cs| && j != |cs| &&
        (cs[j].info.email == c.info.email || cs[j].info.driverLicense == c.info.driverLicense);
      assert !(t[j].info.email != t[|cs|].info.email && t[j].info.driverLicense != t[|cs|].info.driverLicense);
    } else {
      forall i, j | 0 <= i < j < |t|
        ensures t[i].info.email != t[j].info.email && t[i].info.driverLicense != t[j].info.driverLicense
      {
        if j == |cs| {
          assert t[i] == cs[i];
        }
      }
    }
  }

  lemma ReplaceVehiclePlateUniqueIff(vs: seq<Vehicle>, k: nat, v: Vehicle)
    requires PlatesUnique(vs) && k < |vs|
    ensures PlatesUnique(vs[k := v]) <==> !PlateClash(vs, k, v.info)
  {
    if PlateClash(vs, k, v.info) {
      var j :| 0 <= j < |vs| && j != k && vs[j].info.licensePlate == v.info.licensePlate;
      var t := vs[k := v];
      if j < k {
        assert t[j].info.licensePlate == t[k].info.licensePlate;
      } else {
        assert t[k].info.licensePlate == t[j].info.licensePlate;
      }
    }
  }

  lemma AppendVehiclePlateUniqueIff(vs: seq<Vehicle>, v: Vehicle)
    requires PlatesUnique(vs)
    ensures PlatesUnique(vs + [v]) <==> !PlateClash(vs, |vs|, v.info)
  {
    var t := vs + [v];
    if PlateClash(vs, |vs|, v.info) {
      var j :| 0 <= j < |vs| && j != |vs| && vs[j].info.licensePlate == v.info.licensePlate;
      assert t[j].info.licensePlate == t[|vs|].info.licensePlate;
    } else {
      forall i, j | 0 <= i < j < |t|
        ensures t[i].info.licensePlate != t[j].info.licensePlate
      {
        if j == |vs| {
          assert t[i] == vs[i];
        }
      }
    }
  }

  // ---------------------------------------------------------------------
  // Field-by-field update (CRUDBase.update)

  /** The update writes exactly the fields the request carried. */
  function ApplyCustomerUpdate(c: CustomerInfo, u: CustomerUpdate): (r: CustomerInfo)
    ensures u.firstName.Unset? ==> r.firstName == c.firstName
    ensures u.lastName.Unset? ==> r.lastName == c.lastName
    ensures u.email.Unset? ==> r.email == c.email
    ensures u.phone.Unset? ==> r.phone == c.phone
    ensures u.address.Unset? ==> r.address == c.address
    ensures u.driverLicense.Unset? ==> r.driverLicense == c.driverLicense
    ensures u.dateOfBirth.Unset? ==> r.dateOfBirth == c.dateOfBirth
    ensures u.firstName.Set? ==> r.firstName == u.firstName.value
    ensures u.lastName.Set? ==> r.lastName == u.lastName.value
    ensures u.email.Set? ==> r.email == u.email.value
    ensures u.phone.Set? ==> r.phone == u.phone.value
    ensures u.address.Set? ==> r.address == u.address.value
    ensures u.driverLicense.Set? ==> r.driverLicense == u.driverLicense.value
    ensures u.dateOfBirth.Set? ==> r.dateOfBirth == u.dateOfBirth.value
  {
    CustomerInfo(
      Patched(c.firstName, u.firstName),
      Patched(c.lastName, u.lastName),
      Patched(c.email, u.email),
      Patched(c.phone, u.phone),
      Patched(c.address, u.address),
      Patched(c.driverLicense, u.driverLicense),
      Patched(c.dateOfBirth, u.dateOfBirth))
  }

  const NoCustomerChange := CustomerUpdate(Unset, Unset, Unset, Unset, Unset, Unset, Unset)

  /** An update that carries no field changes nothing. */
  lemma EmptyCustomerUpdateIsIdentity(c: CustomerInfo)
    ensures ApplyCustomerUpdate(c, NoCustomerChange) == c
  {
  }

  /** Sending the same update twice has the effect of sending it once. */
  lemma CustomerUpdateIdempotent(c: CustomerInfo, u: CustomerUpdate)
    ensures ApplyCustomerUpdate(ApplyCustomerUpdate(c, u), u) == ApplyCustomerUpdate(c, u)
  {
  }

  /** A valid record stays valid under a valid update. */
  lemma CustomerUpdatePreservesValidity(c: CustomerInfo, u: CustomerUpdate)
    requires CustomerInfoValid(c) && CustomerUpdateValid(u)
    ensures CustomerInfoValid(ApplyCustomerUpdate(c, u))
  {
  }

  function ApplyVehicleUpdate(v: VehicleInfo, u: VehicleUpdate): (r: VehicleInfo)
    ensures u.model.Unset? ==> r.model == v.model
    ensures u.make.Unset? ==> r.make == v.make
    ensures u.licensePlate.Unset? ==> r.licensePlate == v.licensePlate
    ensures u.year.Unset? ==> r.year == v.year
    ensures u.availability.Unset? ==> r.availability == v.availability
    ensures u.dailyRate.Unset? ==> r.dailyRate == v.dailyRate
    ensures u.mileage.Unset? ==> r.mileage == v.mileage
    ensures u.fuelType.Unset? ==> r.fuelType == v.fuelType
    ensures u.transmission.Unset? ==> r.transmission == v.transmission
    ensures u.seatingCapacity.Unset? ==> r.seatingCapacity == v.seatingCapacity
    ensures u.locationId.Unset? ==> r.locationId == v.locationId
    ensures u.model.Set? ==> r.model == u.model.value
    ensures u.make.Set? ==> r.make == u.make.value
    ensures u.licensePlate.Set? ==> r.licensePlate == u.licensePlate.value
    ensures u.year.Set? ==> r.year == u.year.value
    ensures u.availability.Set? ==> r.availability == u.availability.value
    ensures u.dailyRate.Set? ==> r.dailyRate == u.dailyRate.value
    ensures u.mileage.Set? ==> r.mileage == u.mileage.value
    ensures u.fuelType.Set? ==> r.fuelType == u.fuelType.value
    ensures u.transmission.Set? ==> r.transmission == u.transmission.value
    ensures u.seatingCapacity.Set? ==> r.seatingCapacity == u.seatingCapacity.value
    ensures u.locationId.Set? ==> r.locationId == u.locationId.value
  {
    VehicleInfo(
      Patched(v.model, u.model),
      Patched(v.make, u.make),
      Patched(v.licensePlate, u.licensePlate),
      Patched(v.year, u.year),
      Patched(v.availability, u.availability),
      Patched(v.dailyRate, u.dailyRate),
      Patched(v.mileage, u.mileage),
      Patched(v.fuelType, u.fuelType),
      Patched(v.transmission, u.transmission),
      Patched(v.seatingCapacity, u.seatingCapacity),
      Patched(v.locationId, u.locationId))
  }

  lemma VehicleUpdatePreservesValidity(v: VehicleInfo, u: VehicleUpdate)
    requires VehicleInfoValid(v) && VehicleUpdateValid(u)
    ensures VehicleInfoValid(ApplyVehicleUpdate(v, u))
  {
  }

  /** The reservation update can change the window and the status but never
      the customer, which the update schema does not carry. */
  function ApplyReservationUpdate(r: ReservationInfo, u: ReservationUpdate): (x: ReservationInfo)
    ensures x.customerId == r.customerId
    ensures u.vehicleId.Unset? ==> x.vehicleId == r.vehicleId
    ensures u.pickupLocationId.Unset? ==> x.pickupLocationId == r.pickupLocationId
    ensures u.returnLocationId.Unset? ==> x.returnLocationId == r.returnLocationId
    ensures u.reservedStartDate.Unset? ==> x.reservedStartDate == r.reservedStartDate
    ensures u.reservedEndDate.Unset? ==> x.reservedEndDate == r.reservedEndDate
    ensures u.status.Unset? ==> x.status == r.status
    ensures u.specialRequests.Unset? ==> x.specialRequests == r.specialRequests
    ensures u.estimatedTotal.Unset? ==> x.estimatedTotal == r.estimatedTotal
    ensures u.vehicleId.Set? ==> x.vehicleId == u.vehicleId.value
    ensures u.pickupLocationId.Set? ==> x.pickupLocationId == u.pickupLocationId.value
    ensures u.returnLocationId.Set? ==> x.returnLocationId == u.returnLocationId.value
    ensures u.reservedStartDate.Set? ==> x.reservedStartDate == u.reservedStartDate.value
    ensures u.reservedEndDate.Set? ==> x.reservedEndDate == u.reservedEndDate.value
    ensures u.status.Set? ==> x.status == u.status.value
    ensures u.specialRequests.Set? ==> x.specialRequests == u.specialRequests.value
    ensures u.estimatedTotal.Set? ==> x.estimatedTotal == u.estimatedTotal.value
  {
    ReservationInfo(
      r.customerId,
      Patched(r.vehicleId, u.vehicleId),
      Patched(r.pickupLocationId, u.pickupLocationId),
      Patched(r.returnLocationId, u.returnLocationId),
      Patched(r.reservedStartDate, u.reservedStartDate),
      Patched(r.reservedEndDate, u.reservedEndDate),
      Patched(r.status, u.status),
      Patched(r.specialRequests, u.specialRequests),
      Patched(r.estimatedTotal, u.estimatedTotal))
  }

  // ---------------------------------------------------------------------
  // In-place changes to a rental, a vehicle and a profile

  /** What return_vehicle is handed; None means the key is absent. */
  datatype ReturnData = ReturnData(
    actualReturnDate: Option<int>,
    mileageEnd: Option<int>,
    fuelLevelEnd: Option<real>,
    lateFees: Option<int>,
    damageFees: Option<int>)

  /** The rental after return_vehicle: Completed, returned at the given
      instant (now when none is given), with the closing odometer and fuel
      readings and the fees (0.00 when none are given); nothing else moves.
      The prior status is not consulted. */
  function ReturnedRental(r: Rental, d: ReturnData, now: int): (x: Rental)
    ensures x.info.status == "Completed"
    ensures x.info.actualReturnDate == Some(d.actualReturnDate.GetOr(now))
    ensures x.info.mileageEnd == d.mileageEnd && x.info.fuelLevelEnd == d.fuelLevelEnd
    ensures x.info.lateFees == d.lateFees.GetOr(0) && x.info.damageFees == d.damageFees.GetOr(0)
    ensures x.rentalId == r.rentalId && x.createdAt == r.createdAt
    ensures x.info.(status := r.info.status, actualReturnDate := r.info.actualReturnDate,
                    mileageEnd := r.info.mileageEnd, fuelLevelEnd := r.info.fuelLevelEnd,
                    lateFees := r.info.lateFees, damageFees := r.info.damageFees) == r.info
  {
    r.(info := r.info.(
      actualReturnDate := Some(d.actualReturnDate.GetOr(now)),
      mileageEnd := d.mileageEnd,
      fuelLevelEnd := d.fuelLevelEnd,
      status := "Completed",
      lateFees := d.lateFees.GetOr(0),
      damageFees := d.damageFees.GetOr(0)))
  }

  /** A returned rental is never overdue, and it counts towards revenue for
      every range that contains its start. */
  lemma ReturnedRentalSettled(r: Rental, d: ReturnData, now: int, t: int, fromDay: int, toDay: int)
    requires Midnight(fromDay) <= r.info.startDate <= Midnight(toDay)
    ensures !IsOverdueRow(ReturnedRental(r, d, now), t)
    ensures CountsAsRevenue(ReturnedRental(r, d, now), fromDay, toDay)
  {
  }

  /** The vehicle after a return: available again, and carrying the closing
      odometer reading when that reading is truthy (present and non-zero). */
  function ReturnedVehicle(v: Vehicle, mileageEnd: Option<int>): (x: Vehicle)
    ensures x.info.availability
    ensures mileageEnd.Some? && mileageEnd.value != 0 ==> x.info.mileage == mileageEnd.value
    ensures mileageEnd.None? || mileageEnd.value == 0 ==> x.info.mileage == v.info.mileage
    ensures x.info.(availability := v.info.availability, mileage := v.info.mileage) == v.info
    ensures x.vehicleId == v.vehicleId
  {
    var m := if mileageEnd.Some? && mileageEnd.value != 0 then mileageEnd.value else v.info.mileage;
    v.(info := v.info.(availability := true, mileage := m))
  }

  function WithAvailability(v: Vehicle, available: bool): (x: Vehicle)
    ensures x.info.availability == available
    ensures x.info.(availability := v.info.availability) == v.info && x.vehicleId == v.vehicleId
  {
    v.(info := v.info.(availability := available))
  }

  /** update_points: the balance grows by the points added, and the last
      activity date becomes today. */
  function AddPoints(p: MembershipProfile, points: int, today: int): (x: MembershipProfile)
    ensures x.info.pointsBalance == p.info.pointsBalance + points
    ensures x.info.lastActivityDate == Some(today)
    ensures x.info.(pointsBalance := p.info.pointsBalance, lastActivityDate := p.info.lastActivityDate) == p.info
    ensures x.profileId == p.profileId && x.customerId == p.customerId
  {
    p.(info := p.info.(pointsBalance := p.info.pointsBalance + points, lastActivityDate := Some(today)))
  }

  /** update_spending: lifetime spending grows by the amount and lifetime
      rentals by exactly one; the last activity date becomes today. */
  function AddSpending(p: MembershipProfile, amount: int, today: int): (x: MembershipProfile)
    ensures x.info.lifetimeSpending == p.info.lifetimeSpending + amount
    ensures x.info.lifetimeRentals == p.info.lifetimeRentals + 1
    ensures x.info.lastActivityDate == Some(today)
    ensures x.info.(lifetimeSpending := p.info.lifetimeSpending, lifetimeRentals := p.info.lifetimeRentals,
                    lastActivityDate := p.info.lastActivityDate) == p.info
    ensures x.profileId == p.profileId && x.customerId == p.customerId
  {
    p.(info := p.info.(
      lifetimeSpending := p.info.lifetimeSpending + amount,
      lifetimeRentals := p.info.lifetimeRentals + 1,
      lastActivityDate := Some(today)))
  }

  /** A run of spending updates, one per amount, on the same day. */
  function SpendAll(p: MembershipProfile, amounts: seq<int>, today: int): MembershipProfile
    decreases |amounts|
  {
    if amounts == [] then p else SpendAll(AddSpending(p, amounts[0], today), amounts[1..], today)
  }

  function Identity(x: int): int { x }

  /** A run of spending updates adds its total to lifetime spending and its
      length to lifetime rentals, and leaves the points balance alone. */
  lemma {:induction false} SpendAllTotals(p: MembershipProfile, amounts: seq<int>, today: int)
    ensures SpendAll(p, amounts, today).info.lifetimeSpending == p.info.lifetimeSpending + Sum(amounts, Identity)
    ensures SpendAll(p, amounts, today).info.lifetimeRentals == p.info.lifetimeRentals + |amounts|
    ensures SpendAll(p, amounts, today).info.pointsBalance == p.info.pointsBalance
    decreases |amounts|
  {
    if amounts != [] {
      SpendAllTotals(AddSpending(p, amounts[0], today), amounts[1..], today);
    }
  }

  /** Points and spending touch different counters: the two updates commute. */
  lemma PointsAndSpendingCommute(p: MembershipProfile, points: int, amount: int, today: int)
    ensures AddPoints(AddSpending(p, amount, today), points, today) == AddSpending(AddPoints(p, points, today), amount, today)
  {
  }

  /** A converted reservation no longer holds its vehicle. */
  lemma ConvertedReservationReleasesHold(reservations: seq<Reservation>, k: int, vehicleId: int, s: int, e: int)
    requires 0 <= k < |reservations|
    ensures CheckVehicleAvailability(reservations[k := reservations[k].(info := reservations[k].info.(status := "Converted"))], vehicleId, s, e)
         <== CheckVehicleAvailability(reservations, vehicleId, s, e)
  {
    var t := reservations[k := reservations[k].(info := reservations[k].info.(status := "Converted"))];
    assert !HoldsVehicle(t[k].info.status);
    assert forall i :: 0 <= i < |t| && i != k ==> t[i] == reservations[i];
  }

  // ---------------------------------------------------------------------
  // The store

  class Store {
    var customers: seq<Customer>
    var vehicles: seq<Vehicle>
    var rentals: seq<Rental>
    var reservations: seq<Reservation>
    var employees: seq<Employee>
    var profiles: seq<MembershipProfile>
    /** Next key of each table's autoincrement column. */
    var nextCustomerId: int
    var nextVehicleId: int
    var nextRentalId: int
    var nextReservationId: int
    var nextEmployeeId: int

    /** Every table's primary keys are distinct and below its next key. */
    predicate Valid()
      reads this
    {
      && KeysValid(customers, CustomerKey, nextCustomerId)
      && KeysValid(vehicles, VehicleKey, nextVehicleId)
      && KeysValid(rentals, RentalKey, nextRentalId)
      && KeysValid(reservations, ReservationKey, nextReservationId)
      && KeysValid(employees, EmployeeKey, nextEmployeeId)
    }

    constructor ()
      ensures Valid()
      ensures customers == [] && vehicles == [] && rentals == [] && reservations == []
      ensures employees == [] && profiles == []
    {
      customers, vehicles, rentals, reservations, employees, profiles := [], [], [], [], [], [];
      nextCustomerId, nextVehicleId, nextRentalId, nextReservationId, nextEmployeeId := 1, 1, 1, 1, 1;
    }

    // Lookups: `.filter(... == key).first()`.

    function CustomerIndex(id: int): (r: Option<nat>)
      reads this
      ensures r.Some? ==> r.value < |customers| && customers[r.value].customerId == id
      ensures r.None? <==> forall i :: 0 <= i < |customers| ==> customers[i].customerId != id
    {
      FirstIndex(customers, (c: Customer) => c.customerId == id)
    }

    function CustomerByEmail(email: string): (r: Option<nat>)
      reads this
      ensures r.Some? ==> r.value < |customers| && customers[r.value].info.email == email
      ensures r.None? <==> forall i :: 0 <= i < |customers| ==> customers[i].info.email != email
    {
      FirstIndex(customers, (c: Customer) => c.info.email == email)
    }

    function CustomerByDriverLicense(license: string): (r: Option<nat>)
      reads this
      ensures r.Some? ==> r.value < |customers| && customers[r.value].info.driverLicense == license
      ensures r.None? <==> forall i :: 0 <= i < |customers| ==> customers[i].info.driverLicense != license
    {
      FirstIndex(customers, (c: Customer) => c.info.driverLicense == license)
    }

    function VehicleIndex(id: int): (r: Option<nat>)
      reads this
      ensures r.Some? ==> r.value < |vehicles| && vehicles[r.value].vehicleId == id
      ensures r.None? <==> forall i :: 0 <= i < |vehicles| ==> vehicles[i].vehicleId != id
    {
      FirstIndex(vehicles, (v: Vehicle) => v.vehicleId == id)
    }

    function VehicleByPlate(plate: string): (r: Option<nat>)
      reads this
      ensures r.Some? ==> r.value < |vehicles| && vehicles[r.value].info.licensePlate == plate
      ensures r.None? <==> forall i :: 0 <= i < |vehicles| ==> vehicles[i].info.licensePlate != plate
    {
      FirstIndex(vehicles, (v: Vehicle) => v.info.licensePlate == plate)
    }

    function RentalIndex(id: int): (r: Option<nat>)
      reads this
      ensures r.Some? ==> r.value < |rentals| && rentals[r.value].rentalId == id
      ensures r.None? <==> forall i :: 0 <= i < |rentals| ==> rentals[i].rentalId != id
    {
      FirstIndex(rentals, (x: Rental) => x.rentalId == id)
    }

    function ReservationIndex(id: int): (r: Option<nat>)
      reads this
      ensures r.Some? ==> r.value < |reservations| && reservations[r.value].reservationId == id
      ensures r.None? <==> forall i :: 0 <= i < |reservations| ==> reservations[i].reservationId != id
    {
      FirstIndex(reservations, (x: Reservation) => x.reservationId == id)
    }

    function EmployeeByEmail(email: string): (r: Option<nat>)
      reads this
      ensures r.Some? ==> r.value < |employees| && employees[r.value].info.email == email
      ensures r.None? <==> forall i :: 0 <= i < |employees| ==> employees[i].info.email != email
    {
      FirstIndex(employees, (e: Employee) => e.info.email == email)
    }

    /** Profiles are found by customer, not by their own key. */
    function ProfileIndex(customerId: int): (r: Option<nat>)
      reads this
      ensures r.Some? ==> r.value < |profiles| && profiles[r.value].customerId == customerId
      ensures r.None? <==> forall i :: 0 <= i < |profiles| ==> profiles[i].customerId != customerId
    {
      FirstIndex(profiles, (p: MembershipProfile) => p.customerId == customerId)
    }

    // Inserts: CRUDBase.create on each table.

    method CreateCustomer(info: CustomerInfo) returns (c: Customer)
      requires Valid()
      modifies this`customers, this`nextCustomerId
      ensures Valid()
      ensures c == Customer(old(nextCustomerId), info)
      ensures customers == old(customers) + [c] && nextCustomerId == old(nextCustomerId) + 1
    {
      c := Customer(nextCustomerId, info);
      KeysValidAppend(customers, CustomerKey, nextCustomerId, c);
      customers := customers + [c];
      nextCustomerId := nextCustomerId + 1;
    }

    method CreateVehicle(info: VehicleInfo) returns (v: Vehicle)
      requires Valid()
      modifies this`vehicles, this`nextVehicleId
      ensures Valid()
      ensures v == Vehicle(old(nextVehicleId), info)
      ensures vehicles == old(vehicles) + [v] && nextVehicleId == old(nextVehicleId) + 1
    {
      v := Vehicle(nextVehicleId, info);
      KeysValidAppend(vehicles, VehicleKey, nextVehicleId, v);
      vehicles := vehicles + [v];
      nextVehicleId := nextVehicleId + 1;
    }

    method CreateEmployee(info: EmployeeInfo) returns (e: Employee)
      requires Valid()
      modifies this`employees, this`nextEmployeeId
      ensures Valid()
      ensures e == Employee(old(nextEmployeeId), info)
      ensures employees == old(employees) + [e] && nextEmployeeId == old(nextEmployeeId) + 1
    {
      e := Employee(nextEmployeeId, info);
      KeysValidAppend(employees, EmployeeKey, nextEmployeeId, e);
      employees := employees + [e];
      nextEmployeeId := nextEmployeeId + 1;
    }

    method CreateReservation(info: ReservationInfo) returns (r: Reservation)
      requires Valid()
      modifies this`reservations, this`nextReservationId
      ensures Valid()
      ensures r == Reservation(old(nextReservationId), info)
      ensures reservations == old(reservations) + [r] && nextReservationId == old(nextReservationId) + 1
    {
      r := Reservation(nextReservationId, info);
      KeysValidAppend(reservations, ReservationKey, nextReservationId, r);
      reservations := reservations + [r];
      nextReservationId := nextReservationId + 1;
    }

    /** Inserting a rental stamps it with the insertion instant. */
    method CreateRental(info: RentalInfo, now: int) returns (r: Rental)
      requires Valid()
      modifies this`rentals, this`nextRentalId
      ensures Valid()
      ensures r == Rental(old(nextRentalId), now, info)
      ensures rentals == old(rentals) + [r] && nextRentalId == old(nextRentalId) + 1
    {
      r := Rental(nextRentalId, now, info);
      KeysValidAppend(rentals, RentalKey, nextRentalId, r);
      rentals := rentals + [r];
      nextRentalId := nextRentalId + 1;
    }

    // Updates and deletes.

    /** Look the customer up and apply the update to it; NoRow, and no
        change, when there is no such customer.  The commit fails, and the
        session rolls back, when another customer already holds the email or
        the driver licence the update leaves on the row. */
    method UpdateCustomer(id: int, u: CustomerUpdate) returns (r: Commit<Customer>)
      requires Valid()
      modifies this`customers
      ensures Valid()
      ensures old(CustomerIndex(id)).None? ==> r == NoRow && customers == old(customers)
      ensures old(CustomerIndex(id)).Some? ==>
        var k := old(CustomerIndex(id)).value;
        var c := Customer(id, ApplyCustomerUpdate(old(customers)[k].info, u));
        if CustomerClash(old(customers), k, c.info) then r == RolledBack && customers == old(customers)
        else r == Committed(c) && customers == old(customers)[k := c]
      ensures CustomersUnique(old(customers)) ==> CustomersUnique(customers)
    {
      var k := CustomerIndex(id);
      if k.None? {
        return NoRow;
      }
      var c := Customer(id, ApplyCustomerUpdate(customers[k.value].info, u));
      if CustomerClash(customers, k.value, c.info) {
        return RolledBack;
      }
      if CustomersUnique(customers) {
        ReplaceCustomerUniqueIff(customers, k.value, c);
      }
      KeysValidReplace(customers, CustomerKey, nextCustomerId, k.value, c);
      customers := customers[k.value := c];
      r := Committed(c);
    }

    /** The vehicle update, refused in the same way when another vehicle
        already carries the licence plate. */
    method UpdateVehicle(id: int, u: VehicleUpdate) returns (r: Commit<Vehicle>)
      requires Valid()
      modifies this`vehicles
      ensures Valid()
      ensures old(VehicleIndex(id)).None? ==> r == NoRow && vehicles == old(vehicles)
      ensures old(VehicleIndex(id)).Some? ==>
        var k := old(VehicleIndex(id)).value;
        var v := Vehicle(id, ApplyVehicleUpdate(old(vehicles)[k].info, u));
        if PlateClash(old(vehicles), k, v.info) then r == RolledBack && vehicles == old(vehicles)
        else r == Committed(v) && vehicles == old(vehicles)[k := v]
      ensures PlatesUnique(old(vehicles)) ==> PlatesUnique(vehicles)
    {
      var k := VehicleIndex(id);
      if k.None? {
        return NoRow;
      }
      var v := Vehicle(id, ApplyVehicleUpdate(vehicles[k.value].info, u));
      if PlateClash(vehicles, k.value, v.info) {
        return RolledBack;
      }
      if PlatesUnique(vehicles) {
        ReplaceVehiclePlateUniqueIff(vehicles, k.value, v);
      }
      KeysValidReplace(vehicles, VehicleKey, nextVehicleId, k.value, v);
      vehicles := vehicles[k.value := v];
      r := Committed(v);
    }

    method UpdateReservation(id: int, u: ReservationUpdate) returns (r: Option<Reservation>)
      requires Valid()
      modifies this`reservations
      ensures Valid()
      ensures old(ReservationIndex(id)).None? ==> r.None? && reservations == old(reservations)
      ensures old(ReservationIndex(id)).Some? ==>
        var k := old(ReservationIndex(id)).value;
        && r == Some(Reservation(id, ApplyReservationUpdate(old(reservations)[k].info, u)))
        && reservations == old(reservations)[k := r.value]
    {
      var k := ReservationIndex(id);
      if k.None? {
        return None;
      }
      var x := Reservation(id, ApplyReservationUpdate(reservations[k.value].info, u));
      KeysValidReplace(reservations, ReservationKey, nextReservationId, k.value, x);
      reservations := reservations[k.value := x];
      r := Some(x);
    }

    /** A membership profile, reservation or rental still names the customer. */
    predicate HasDependents(id: int)
      reads this
    {
      || (exists i :: 0 <= i < |profiles| && profiles[i].customerId == id)
      || (exists i :: 0 <= i < |reservations| && reservations[i].info.customerId == id)
      || (exists i :: 0 <= i < |rentals| && rentals[i].info.customerId == id)
    }

    /** Every profile, reservation and rental names an existing customer
        (the foreign keys to the customer table). */
    predicate CustomerRefsResolve()
      reads this
    {
      && (forall i :: 0 <= i < |profiles| ==> CustomerIndex(profiles[i].customerId).Some?)
      && (forall i :: 0 <= i < |reservations| ==> CustomerIndex(reservations[i].info.customerId).Some?)
      && (forall i :: 0 <= i < |rentals| ==> CustomerIndex(rentals[i].info.customerId).Some?)
    }

    /** CRUDBase.delete: remove the first row with the key and return it;
        NoRow, and no change, when there is none.  The customer's
        relationships carry no delete cascade, so the session blanks the
        customer column of every loaded profile, reservation and rental
        before the delete; those columns are NOT NULL, the commit fails and
        nothing changes while any of them remains. */
    method DeleteCustomer(id: int) returns (r: Commit<Customer>)
      requires Valid()
      modifies this`customers
      ensures Valid()
      ensures old(CustomerIndex(id)).None? ==> r == NoRow && customers == old(customers)
      ensures old(CustomerIndex(id)).Some? && old(HasDependents(id)) ==>
        r == RolledBack && customers == old(customers)
      ensures old(CustomerIndex(id)).Some? && !old(HasDependents(id)) ==>
        var k := old(CustomerIndex(id)).value;
        && r == Committed(old(customers)[k])
        && customers == old(customers)[..k] + old(customers)[k + 1..]
      ensures r.Committed? ==> forall i :: 0 <= i < |customers| ==> customers[i].customerId != id
      ensures old(CustomerRefsResolve()) ==> CustomerRefsResolve()
    {
      var k := CustomerIndex(id);
      if k.None? {
        return NoRow;
      }
      if HasDependents(id) {
        return RolledBack;
      }
      r := Committed(customers[k.value]);
      ghost var before := customers;
      KeysValidRemove(customers, CustomerKey, nextCustomerId, k.value);
      customers := customers[..k.value] + customers[k.value + 1..];
      RemoveKeepsOthers(before, k.value, id);
    }

    /** Removing the row at k, whose key is id, keeps every other key. */
    lemma RemoveKeepsOthers(before: seq<Customer>, k: nat, id: int)
      requires k < |before| && before[k].customerId == id
      requires customers == before[..k] + before[k + 1..]
      ensures forall j :: 0 <= j < |before| && before[j].customerId != id ==>
                CustomerIndex(before[j].customerId).Some?
    {
      forall j | 0 <= j < |before| && before[j].customerId != id
        ensures CustomerIndex(before[j].customerId).Some?
      {
        var n := if j < k then j else j - 1;
        assert customers[n] == before[j];
      }
    }

    /** update_availability: set the flag on the vehicle if it exists. */
    method UpdateAvailability(vehicleId: int, available: bool) returns (r: Option<Vehicle>)
      requires Valid()
      modifies this`vehicles
      ensures Valid()
      ensures old(VehicleIndex(vehicleId)).None? ==> r.None? && vehicles == old(vehicles)
      ensures old(VehicleIndex(vehicleId)).Some? ==>
        var k := old(VehicleIndex(vehicleId)).value;
        && r == Some(WithAvailability(old(vehicles)[k], available))
        && vehicles == old(vehicles)[k := r.value]
    {
      var k := VehicleIndex(vehicleId);
      if k.None? {
        return None;
      }
      var v := WithAvailability(vehicles[k.value], available);
      KeysValidReplace(vehicles, VehicleKey, nextVehicleId, k.value, v);
      vehicles := vehicles[k.value := v];
      r := Some(v);
    }

    /** return_vehicle: close the rental and free its vehicle (when the
        vehicle exists); None, and no change, when there is no such rental. */
    method ReturnVehicle(rentalId: int, d: ReturnData, now: int) returns (r: Option<Rental>)
      requires Valid()
      modifies this`rentals, this`vehicles
      ensures Valid()
      ensures old(RentalIndex(rentalId)).None? ==>
        r.None? && rentals == old(rentals) && vehicles == old(vehicles)
      ensures old(RentalIndex(rentalId)).Some? ==>
        var k := old(RentalIndex(rentalId)).value;
        var x := ReturnedRental(old(rentals)[k], d, now);
        var j := old(VehicleIndex(rentals[k].info.vehicleId));
        && r == Some(x)
        && rentals == old(rentals)[k := x]
        && vehicles == (if j.None? then old(vehicles) else old(vehicles)[j.value := ReturnedVehicle(old(vehicles)[j.value], d.mileageEnd)])
    {
      var k := RentalIndex(rentalId);
      if k.None? {
        return None;
      }
      var x := ReturnedRental(rentals[k.value], d, now);
      KeysValidReplace(rentals, RentalKey, nextRentalId, k.value, x);
      rentals := rentals[k.value := x];
      var j := VehicleIndex(x.info.vehicleId);
      if j.Some? {
        var v := ReturnedVehicle(vehicles[j.value], d.mileageEnd);
        KeysValidReplace(vehicles, VehicleKey, nextVehicleId, j.value, v);
        vehicles := vehicles[j.value := v];
      }
      r := Some(x);
    }

    /** convert_to_rental: only a Confirmed reservation converts.  Then the
        rental is inserted, the reservation becomes Converted and the
        reservation's vehicle (not the rental's) becomes unavailable.
        Otherwise None, and nothing changes. */
    method ConvertToRental(reservationId: int, info: RentalInfo, now: int) returns (r: Option<Rental>)
      requires Valid()
      modifies this`rentals, this`nextRentalId, this`reservations, this`vehicles
      ensures Valid()
      ensures var k := old(ReservationIndex(reservationId));
        !(k.Some? && old(reservations)[k.value].info.status == "Confirmed") ==>
          && r.None?
          && rentals == old(rentals) && nextRentalId == old(nextRentalId)
          && reservations == old(reservations) && vehicles == old(vehicles)
      ensures var k := old(ReservationIndex(reservationId));
        k.Some? && old(reservations)[k.value].info.status == "Confirmed" ==>
          var res := old(reservations)[k.value];
          var j := old(VehicleIndex(res.info.vehicleId));
          && r == Some(Rental(old(nextRentalId), now, info))
          && rentals == old(rentals) + [r.value] && nextRentalId == old(nextRentalId) + 1
          && reservations == old(reservations)[k.value := res.(info := res.info.(status := "Converted"))]
          && vehicles == (if j.None? then old(vehicles) else old(vehicles)[j.value := WithAvailability(old(vehicles)[j.value], false)])
    {
      var k := ReservationIndex(reservationId);
      if k.None? || reservations[k.value].info.status != "Confirmed" {
        return None;
      }
      var rental := CreateRental(info, now);
      var res := reservations[k.value];
      var converted := res.(info := res.info.(status := "Converted"));
      KeysValidReplace(reservations, ReservationKey, nextReservationId, k.value, converted);
      reservations := reservations[k.value := converted];
      var j := VehicleIndex(res.info.vehicleId);
      if j.Some? {
        var v := WithAvailability(vehicles[j.value], false);
        KeysValidReplace(vehicles, VehicleKey, nextVehicleId, j.value, v);
        vehicles := vehicles[j.value := v];
      }
      r := Some(rental);
    }

    /** update_points on the customer's profile, if there is one. */
    method UpdatePoints(customerId: int, points: int, today: int) returns (r: Option<MembershipProfile>)
      modifies this`profiles
      ensures old(ProfileIndex(customerId)).None? ==> r.None? && profiles == old(profiles)
      ensures old(ProfileIndex(customerId)).Some? ==>
        var k := old(ProfileIndex(customerId)).value;
        && r == Some(AddPoints(old(profiles)[k], points, today))
        && profiles == old(profiles)[k := r.value]
    {
      var k := ProfileIndex(customerId);
      if k.None? {
        return None;
      }
      var p := AddPoints(profiles[k.value], points, today);
      profiles := profiles[k.value := p];
      r := Some(p);
    }

    /** update_spending on the customer's profile, if there is one. */
    method UpdateSpending(customerId: int, amount: int, today: int) returns (r: Option<MembershipProfile>)
      modifies this`profiles
      ensures old(ProfileIndex(customerId)).None? ==> r.None? && profiles == old(profiles)
      ensures old(ProfileIndex(customerId)).Some? ==>
        var k := old(ProfileIndex(customerId)).value;
        && r == Some(AddSpending(old(profiles)[k], amount, today))
        && profiles == old(profiles)[k := r.value]
    {
      var k := ProfileIndex(customerId);
      if k.None? {
        return None;
      }
      var p := AddSpending(profiles[k.value], amount, today);
      profiles := profiles[k.value := p];
      r := Some(p);
    }
  }
}
