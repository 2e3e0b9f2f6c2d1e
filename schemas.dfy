/** The request and record shapes of the backend, with the defaults the
    schemas fill in and the length and range constraints they enforce.
    Money is held in integer cents, instants in integer milliseconds and
    calendar dates in integer day numbers. */
module Schemas {
  import opened Base

  /** The fields a client sends for a customer. */
  datatype CustomerInfo = CustomerInfo(
    firstName: string,
    lastName: string,
    email: string,
    phone: string,
    address: Option<string>,
    driverLicense: string,
    dateOfBirth: Option<int>)

  datatype Customer = Customer(customerId: int, info: CustomerInfo)

  /** Names at most 50 characters, phone and driver licence at most 20. */
  predicate CustomerInfoValid(c: CustomerInfo)
  {
    |c.firstName| <= 50 && |c.lastName| <= 50 && |c.phone| <= 20 && |c.driverLicense| <= 20
  }

  datatype ProfileInfo = ProfileInfo(
    membershipTier: string,
    pointsBalance: int,
    tierLevel: string,
    lastActivityDate: Option<int>,
    lifetimeRentals: int,
    lifetimeSpending: int)

  datatype MembershipProfile = MembershipProfile(profileId: int, customerId: int, info: ProfileInfo)

  /** A profile created without explicit values: tier "Standard", level
      "Bronze", no activity yet, and every counter at zero. */
  function NewProfileInfo(): (p: ProfileInfo)
    ensures p.membershipTier == "Standard" && p.tierLevel == "Bronze"
    ensures p.pointsBalance == 0 && p.lifetimeRentals == 0 && p.lifetimeSpending == 0
    ensures p.lastActivityDate.None?
  {
    ProfileInfo("Standard", 0, "Bronze", None, 0, 0)
  }

  datatype VehiclePreference = VehiclePreference(customerId: int, vehicleType: string, preferenceScore: Option<int>)

  /** The schema's refusal of a request, with the field it names. */
  datatype SchemaError = FieldTooLong(field: string) | OutOfRange(field: string)

  /** Validation of a preference: a vehicle type of at most 30 characters
      and, when a score is given, a score from 1 to 10. */
  function MakePreference(customerId: int, vehicleType: string, score: Option<int>): (r: Result<VehiclePreference, SchemaError>)
    ensures r.Ok? <==> |vehicleType| <= 30 && (score.Some? ==> 1 <= score.value <= 10)
    ensures r.Ok? ==> r.value.preferenceScore == score && r.value.vehicleType == vehicleType
    ensures r.Ok? && r.value.preferenceScore.Some? ==> 1 <= r.value.preferenceScore.value <= 10
    ensures r.Err? && |vehicleType| > 30 ==> r.error == FieldTooLong("vehicle_type")
  {
    if |vehicleType| > 30 then Err(FieldTooLong("vehicle_type"))
    else if score.Some? && !(1 <= score.value <= 10) then Err(OutOfRange("preference_score"))
    else Ok(VehiclePreference(customerId, vehicleType, score))
  }

  datatype EmployeeInfo = EmployeeInfo(
    firstName: string,
    lastName: string,
    email: string,
    phone: string,
    role: string,
    hireDate: int,
    salary: Option<int>,
    locationId: Option<int>,
    managerId: Option<int>,
    isActive: bool)

  datatype Employee = Employee(employeeId: int, info: EmployeeInfo)

  predicate EmployeeInfoValid(e: EmployeeInfo)
  {
    |e.firstName| <= 50 && |e.lastName| <= 50 && |e.phone| <= 20 && |e.role| <= 30
  }

  datatype VehicleInfo = VehicleInfo(
    model: string,
    make: string,
    licensePlate: string,
    year: int,
    availability: bool,
    dailyRate: int,
    mileage: int,
    fuelType: string,
    transmission: string,
    seatingCapacity: int,
    locationId: Option<int>)

  datatype Vehicle = Vehicle(vehicleId: int, info: VehicleInfo)

  predicate VehicleInfoValid(v: VehicleInfo)
  {
    && |v.model| <= 50 && |v.make| <= 50 && |v.licensePlate| <= 10
    && |v.fuelType| <= 20 && |v.transmission| <= 20
  }

  /** A vehicle sent with only its required fields: available, no mileage,
      Gasoline, Automatic, five seats, no location. */
  function NewVehicleInfo(model: string, make: string, licensePlate: string, year: int, dailyRate: int): (v: VehicleInfo)
    ensures v.model == model && v.make == make && v.licensePlate == licensePlate
    ensures v.year == year && v.dailyRate == dailyRate
    ensures v.availability && v.mileage == 0 && v.seatingCapacity == 5
    ensures v.fuelType == "Gasoline" && v.transmission == "Automatic" && v.locationId.None?
  {
    VehicleInfo(model, make, licensePlate, year, true, dailyRate, 0, "Gasoline", "Automatic", 5, None)
  }

  /** The defaults fit the schema's own limits whenever the required fields do. */
  lemma NewVehicleInfoValid(model: string, make: string, licensePlate: string, year: int, dailyRate: int)
    requires |model| <= 50 && |make| <= 50 && |licensePlate| <= 10
    ensures VehicleInfoValid(NewVehicleInfo(model, make, licensePlate, year, dailyRate))
  {
    var v := NewVehicleInfo(model, make, licensePlate, year, dailyRate);
    assert |v.fuelType| == 8 && |v.transmission| == 9;
  }

  datatype ReservationInfo = ReservationInfo(
    customerId: int,
    vehicleId: int,
    pickupLocationId: int,
    returnLocationId: int,
    reservedStartDate: int,
    reservedEndDate: int,
    status: string,
    specialRequests: Option<string>,
    estimatedTotal: Option<int>)

  datatype Reservation = Reservation(reservationId: int, info: ReservationInfo)

  /** A reservation sent without a status is "Active". */
  function NewReservationInfo(customerId: int, vehicleId: int, pickup: int, dropOff: int, start: int, end: int): (r: ReservationInfo)
    ensures r.status == "Active"
    ensures r.customerId == customerId && r.vehicleId == vehicleId
    ensures r.pickupLocationId == pickup && r.returnLocationId == dropOff
    ensures r.reservedStartDate == start && r.reservedEndDate == end
    ensures r.specialRequests.None? && r.estimatedTotal.None?
  {
    ReservationInfo(customerId, vehicleId, pickup, dropOff, start, end, "Active", None, None)
  }

  datatype RentalInfo = RentalInfo(
    customerId: int,
    vehicleId: int,
    employeeId: Option<int>,
    pickupLocationId: int,
    returnLocationId: int,
    startDate: int,
    endDate: int,
    actualReturnDate: Option<int>,
    dailyRate: int,
    totalAmount: int,
    securityDeposit: int,
    mileageStart: Option<int>,
    mileageEnd: Option<int>,
    fuelLevelStart: Option<real>,
    fuelLevelEnd: Option<real>,
    status: string,
    discountApplied: int,
    lateFees: int,
    damageFees: int)

  /** A stored rental; createdAt is the instant the row was inserted. */
  datatype Rental = Rental(rentalId: int, createdAt: int, info: RentalInfo)

  /** A rental sent with only its required fields: a 200.00 security
      deposit, status "Active", and no discount, late fee or damage fee. */
  function NewRentalInfo(customerId: int, vehicleId: int, pickup: int, dropOff: int,
                         start: int, end: int, dailyRate: int, totalAmount: int): (r: RentalInfo)
    ensures r.securityDeposit == 200_00 && r.status == "Active"
    ensures r.discountApplied == 0 && r.lateFees == 0 && r.damageFees == 0
    ensures r.actualReturnDate.None? && r.mileageEnd.None? && r.fuelLevelEnd.None?
    ensures r.customerId == customerId && r.vehicleId == vehicleId
    ensures r.pickupLocationId == pickup && r.returnLocationId == dropOff
    ensures r.startDate == start && r.endDate == end
    ensures r.dailyRate == dailyRate && r.totalAmount == totalAmount
  {
    RentalInfo(customerId, vehicleId, None, pickup, dropOff, start, end, None, dailyRate, totalAmount,
               200_00, None, None, None, None, "Active", 0, 0, 0)
  }

  datatype PaymentInfo = PaymentInfo(
    rentalId: int,
    amount: int,
    payMethod: string,
    transactionId: Option<string>,
    status: string,
    paymentType: string)

  /** A stored payment; paymentDate is the instant it was recorded. */
  datatype Payment = Payment(paymentId: int, paymentDate: int, info: PaymentInfo)

  predicate PaymentInfoValid(p: PaymentInfo)
  {
    |p.payMethod| <= 20 && |p.paymentType| <= 20 && (p.transactionId.Some? ==> |p.transactionId.value| <= 100)
  }

  /** A payment sent without a status is "Completed". */
  function NewPaymentInfo(rentalId: int, amount: int, payMethod: string, paymentType: string): (p: PaymentInfo)
    ensures p.status == "Completed" && p.transactionId.None?
    ensures p.rentalId == rentalId && p.amount == amount
    ensures p.payMethod == payMethod && p.paymentType == paymentType
  {
    PaymentInfo(rentalId, amount, payMethod, None, "Completed", paymentType)
  }

  datatype Pagination = Pagination(page: int, perPage: int)

  /** Parsing pagination parameters: page defaults to 1 and must be at
      least 1; per_page defaults to 10 and must lie in 1..100. */
  function MakePagination(page: Option<int>, perPage: Option<int>): (r: Result<Pagination, SchemaError>)
    ensures r.Ok? <==> page.GetOr(1) >= 1 && 1 <= perPage.GetOr(10) <= 100
    ensures r.Ok? ==> r.value.page >= 1 && 1 <= r.value.perPage <= 100
    ensures r.Ok? ==> r.value.page == page.GetOr(1) && r.value.perPage == perPage.GetOr(10)
    ensures page.None? && perPage.None? ==> r == Ok(Pagination(1, 10))
  {
    var p := page.GetOr(1);
    var n := perPage.GetOr(10);
    if p < 1 then Err(OutOfRange("page"))
    else if !(1 <= n <= 100) then Err(OutOfRange("per_page"))
    else Ok(Pagination(p, n))
  }

  /** PATCH-style update of one field: Unset when the request left the field
      out, Set when it carried a value. */
  datatype Patch<+T> = Unset | Set(value: T)

  function Patched<T>(old_value: T, p: Patch<T>): (r: T)
    ensures p.Unset? ==> r == old_value
    ensures p.Set? ==> r == p.value
  {
    match p
    case Unset => old_value
    case Set(v) => v
  }

  datatype CustomerUpdate = CustomerUpdate(
    firstName: Patch<string>,
    lastName: Patch<string>,
    email: Patch<string>,
    phone: Patch<string>,
    address: Patch<Option<string>>,
    driverLicense: Patch<string>,
    dateOfBirth: Patch<Option<int>>)

  /** The update schema's length limits apply to the fields it carries. */
  predicate CustomerUpdateValid(u: CustomerUpdate)
  {
    && (u.firstName.Set? ==> |u.firstName.value| <= 50)
    && (u.lastName.Set? ==> |u.lastName.value| <= 50)
    && (u.phone.Set? ==> |u.phone.value| <= 20)
    && (u.driverLicense.Set? ==> |u.driverLicense.value| <= 20)
  }

  datatype VehicleUpdate = VehicleUpdate(
    model: Patch<string>,
    make: Patch<string>,
    licensePlate: Patch<string>,
    year: Patch<int>,
    availability: Patch<bool>,
    dailyRate: Patch<int>,
    mileage: Patch<int>,
    fuelType: Patch<string>,
    transmission: Patch<string>,
    seatingCapacity: Patch<int>,
    locationId: Patch<Option<int>>)

  predicate VehicleUpdateValid(u: VehicleUpdate)
  {
    && (u.model.Set? ==> |u.model.value| <= 50)
    && (u.make.Set? ==> |u.make.value| <= 50)
    && (u.licensePlate.Set? ==> |u.licensePlate.value| <= 10)
    && (u.fuelType.Set? ==> |u.fuelType.value| <= 20)
    && (u.transmission.Set? ==> |u.transmission.value| <= 20)
  }

  datatype ReservationUpdate = ReservationUpdate(
    vehicleId: Patch<int>,
    pickupLocationId: Patch<int>,
    returnLocationId: Patch<int>,
    reservedStartDate: Patch<int>,
    reservedEndDate: Patch<int>,
    status: Patch<string>,
    specialRequests: Patch<Option<string>>,
    estimatedTotal: Patch<Option<int>>)
}
