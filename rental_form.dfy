/** The rental creation page: the customer and the vehicle may be passed in
    the query string, choosing a vehicle copies its daily rate and mileage
    (and, when it has one, its location as the pickup location), the total
    is recomputed from the two dates and the daily rate, and the form needs
    four selects chosen, both dates with the end after the start, and a
    positive daily rate.  The vehicle list and Date parsing are parameters. */
module RentalForm {
  import opened Base
  import opened Text
  import opened FormKit
  import Schemas

  datatype Field = CustomerId | VehicleId | EmployeeId | PickupLocationId | ReturnLocationId
                 | StartDate | EndDate | DailyRate | TotalAmount | SecurityDeposit
                 | MileageStart | FuelLevelStart | Status

  /** The element each field is edited with; the total and the status have
      none. */
  function InputOf(k: Field): Option<InputType>
  {
    match k
    case CustomerId => Some(SelectInput)
    case VehicleId => Some(SelectInput)
    case EmployeeId => Some(SelectInput)
    case PickupLocationId => Some(SelectInput)
    case ReturnLocationId => Some(SelectInput)
    case StartDate => Some(TextInput)
    case EndDate => Some(TextInput)
    case TotalAmount => None
    case Status => None
    case _ => Some(NumberInput)
  }

  /** handleInputChange's coercion: an empty number box becomes 0; there is
      no checkbox. */
  const Policy: Coercion := ParseNumbers(JsNum(0.0), false)

  /** The initial state, given the ids read from the `customer_id` and
      `vehicle_id` query parameters. */
  function InitialForm(customerId: int, vehicleId: int): (f: FormData<Field>)
    ensures WellTyped(f)
    ensures Get(f, CustomerId) == JsNum(customerId as real) && Get(f, VehicleId) == JsNum(vehicleId as real)
    ensures Get(f, SecurityDeposit) == JsNum(200.0) && Get(f, TotalAmount) == JsNum(0.0)
    ensures Get(f, Status) == JsStr("Active")
  {
    map[CustomerId := JsNum(customerId as real), VehicleId := JsNum(vehicleId as real),
        EmployeeId := JsUndefined, PickupLocationId := JsNum(0.0), ReturnLocationId := JsNum(0.0),
        StartDate := JsStr(""), EndDate := JsStr(""), DailyRate := JsNum(0.0), TotalAmount := JsNum(0.0),
        SecurityDeposit := JsNum(200.0), MileageStart := JsUndefined, FuelLevelStart := JsUndefined,
        Status := JsStr("Active")]
  }

  /** The dates hold strings, the daily rate and the total numbers: what
      their inputs and the page's own updates store. */
  predicate WellTyped(f: FormData<Field>)
  {
    && HoldsText(f, StartDate) && HoldsText(f, EndDate)
    && HoldsNumber(f, DailyRate) && HoldsNumber(f, TotalAmount)
  }

  // ---------------------------------------------------------------------
  // Rental days and total

  /** `Math.ceil((end - start) / (1000 * 60 * 60 * 24))`: the number of
      started days between the two instants, or None when either string is
      an Invalid Date (the quotient is then NaN). */
  function DayCount(parse: string -> Option<int>, start: string, end: string): (d: Option<int>)
    ensures d.Some? <==> parse(start).Some? && parse(end).Some?
    ensures d.Some? ==> DayMs * (d.value - 1) < parse(end).value - parse(start).value <= DayMs * d.value
    ensures d.Some? ==> (d.value > 0 <==> !EndNotAfterStart(parse, start, end))
  {
    if parse(start).Some? && parse(end).Some? then
      var span := parse(end).value - parse(start).value;
      CeilDivPositive(span, DayMs);
      Some(CeilDiv(span, DayMs))
    else
      None
  }

  /** calculateTotalAmount's guard: both dates given and a positive rate. */
  predicate Recomputes(f: FormData<Field>)
    requires WellTyped(f)
  {
    !Missing(f, StartDate) && !Missing(f, EndDate) && f[DailyRate].num > 0.0
  }

  /** The day count calculateTotalAmount finds, when its guard passes and
      the count is positive. */
  function ChargedDays(f: FormData<Field>, parse: string -> Option<int>): (d: Option<int>)
    requires WellTyped(f)
    ensures d.Some? ==> Recomputes(f) && d.value > 0 && DayCount(parse, f[StartDate].str, f[EndDate].str) == d
    ensures d.None? ==> !Recomputes(f) || DayCount(parse, f[StartDate].str, f[EndDate].str).None?
                        || DayCount(parse, f[StartDate].str, f[EndDate].str).value <= 0
  {
    if !Recomputes(f) then None
    else
      match DayCount(parse, f[StartDate].str, f[EndDate].str)
      case Some(days) => if days > 0 then Some(days) else None
      case None => None
  }

  /** The form calculateTotalAmount leaves: total_amount set to days times
      the daily rate when a positive day count was found, untouched
      otherwise. */
  function Recalculated(f: FormData<Field>, parse: string -> Option<int>): (r: FormData<Field>)
    requires WellTyped(f)
    ensures WellTyped(r)
    ensures forall k | k != TotalAmount :: Get(r, k) == Get(f, k)
    ensures ChargedDays(f, parse).Some? ==> r[TotalAmount].num == ChargedDays(f, parse).value as real * f[DailyRate].num
    ensures ChargedDays(f, parse).None? ==> r == f
  {
    match ChargedDays(f, parse)
    case Some(days) => f[TotalAmount := JsNum(days as real * f[DailyRate].num)]
    case None => f
  }

  /** rentalDays after calculateTotalAmount: the positive day count, 0 when
      the count was not positive, unchanged when the guard skipped the
      update. */
  function RecalculatedDays(f: FormData<Field>, parse: string -> Option<int>, days: int): (r: int)
    requires WellTyped(f)
    ensures !Recomputes(f) ==> r == days
    ensures Recomputes(f) ==> (r != 0 <==> ChargedDays(f, parse).Some?)
    ensures ChargedDays(f, parse).Some? ==> r == ChargedDays(f, parse).value
  {
    if !Recomputes(f) then days
    else
      match ChargedDays(f, parse)
      case Some(d) => d
      case None => 0
  }

  /** Recomputing again changes nothing: only the total changed, and the
      total is not an input of the computation. */
  lemma RecalculationIdempotent(f: FormData<Field>, parse: string -> Option<int>, days: int)
    requires WellTyped(f)
    ensures Recalculated(Recalculated(f, parse), parse) == Recalculated(f, parse)
    ensures RecalculatedDays(Recalculated(f, parse), parse, RecalculatedDays(f, parse, days))
            == RecalculatedDays(f, parse, days)
  {
    var r := Recalculated(f, parse);
    assert r[StartDate] == f[StartDate] && r[EndDate] == f[EndDate] && r[DailyRate] == f[DailyRate] by {
      assert Get(r, StartDate) == Get(f, StartDate);
      assert Get(r, EndDate) == Get(f, EndDate);
      assert Get(r, DailyRate) == Get(f, DailyRate);
    }
    assert Recomputes(r) == Recomputes(f);
    assert ChargedDays(r, parse) == ChargedDays(f, parse);
    match ChargedDays(f, parse)
    case Some(d) =>
      var x := d as real * f[DailyRate].num;
      assert r[TotalAmount] == JsNum(x);
      assert Recalculated(r, parse)[TotalAmount] == JsNum(x);
      assert Recalculated(r, parse) == r;
    case None =>
  }

  /** Once both dates are given and the rate is positive, the submit button's
      day count is nonzero exactly when the end date passes the validator's
      date check. */
  lemma DaysAgreeWithDateCheck(f: FormData<Field>, parse: string -> Option<int>, days: int)
    requires WellTyped(f) && Recomputes(f)
    requires parse(f[StartDate].str).Some? && parse(f[EndDate].str).Some?
    ensures RecalculatedDays(f, parse, days) != 0 <==> !EndTooEarly(f, parse)
  {
    var d := DayCount(parse, f[StartDate].str, f[EndDate].str);
    assert d.Some?;
  }

  /** `formData.total_amount + (formData.security_deposit || 0)`: the amount
      shown as due today. */
  function DueToday(f: FormData<Field>): (r: real)
    requires WellTyped(f)
    ensures Truthy(Get(f, SecurityDeposit)) && Get(f, SecurityDeposit).JsNum? ==> r == f[TotalAmount].num + Get(f, SecurityDeposit).num
    ensures !Truthy(Get(f, SecurityDeposit)) ==> r == f[TotalAmount].num
  {
    f[TotalAmount].num + OrZero(Get(f, SecurityDeposit))
  }

  /** After a recomputation that found d days, the amount due today is d
      days at the daily rate plus the deposit. */
  lemma DueTodayAfterRecalculation(f: FormData<Field>, parse: string -> Option<int>)
    requires WellTyped(f) && ChargedDays(f, parse).Some?
    ensures DueToday(Recalculated(f, parse))
            == ChargedDays(f, parse).value as real * f[DailyRate].num + OrZero(Get(f, SecurityDeposit))
  {
    var r := Recalculated(f, parse);
    assert Get(r, SecurityDeposit) == Get(f, SecurityDeposit);
  }

  // ---------------------------------------------------------------------
  // Choosing a vehicle

  /** `vehicles.find(v => v.vehicle_id === id)`. */
  function FindVehicle(vehicles: seq<Schemas.Vehicle>, id: int): (r: Option<Schemas.Vehicle>)
    ensures r.Some? ==> r.value in vehicles && r.value.vehicleId == id
    ensures r.None? <==> forall v | v in vehicles :: v.vehicleId != id
  {
    match FirstIndex(vehicles, (v: Schemas.Vehicle) => v.vehicleId == id)
    case Some(i) => Some(vehicles[i])
    case None => None
  }

  /** In a list whose ids are distinct, a listed vehicle is found by its id. */
  lemma FindListedVehicle(vehicles: seq<Schemas.Vehicle>, v: Schemas.Vehicle)
    requires v in vehicles
    requires forall i, j | 0 <= i < j < |vehicles| :: vehicles[i].vehicleId != vehicles[j].vehicleId
    ensures FindVehicle(vehicles, v.vehicleId) == Some(v)
  {
    var r := FindVehicle(vehicles, v.vehicleId);
    var i :| 0 <= i < |vehicles| && vehicles[i] == v;
    var j :| 0 <= j < |vehicles| && vehicles[j] == r.value;
    assert vehicles[j].vehicleId == vehicles[i].vehicleId;
  }

  /** The vehicle a change event picks: only a change of the vehicle select
      whose value parses as an integer that some listed vehicle carries. */
  function ChosenVehicle(vehicles: seq<Schemas.Vehicle>, e: ChangeEvent<Field>): (r: Option<Schemas.Vehicle>)
    ensures r.Some? ==> e.name == VehicleId && r.value in vehicles && ParseInt(e.value) == Some(r.value.vehicleId)
    ensures r.None? <==> e.name != VehicleId || ParseInt(e.value).None?
                         || forall v | v in vehicles :: v.vehicleId != ParseInt(e.value).value
  {
    if e.name != VehicleId then None
    else
      match ParseInt(e.value)
      case Some(id) => FindVehicle(vehicles, id)
      case None => None
  }

  /** Choosing a listed vehicle's option, whose value is its id written in
      decimal, picks that vehicle. */
  lemma ChoosingOptionPicksVehicle(vehicles: seq<Schemas.Vehicle>, v: Schemas.Vehicle, e: ChangeEvent<Field>)
    requires v in vehicles && v.vehicleId >= 0
    requires forall i, j | 0 <= i < j < |vehicles| :: vehicles[i].vehicleId != vehicles[j].vehicleId
    requires e.name == VehicleId && e.value == DecimalString(v.vehicleId)
    ensures ChosenVehicle(vehicles, e) == Some(v)
  {
    ParseIntOfDecimal(v.vehicleId);
    FindListedVehicle(vehicles, v);
  }

  /** The fields a chosen vehicle fills in: its id, its daily rate (a
      Numeric(10,2) amount in cents on the server) and its mileage, with the
      pickup location set to `pickup`. */
  function WithVehicleTerms(f: FormData<Field>, v: Schemas.Vehicle, pickup: JsValue): (r: FormData<Field>)
    requires WellTyped(f)
    ensures WellTyped(r)
    ensures Get(r, VehicleId) == JsNum(v.vehicleId as real)
    ensures Get(r, DailyRate) == JsNum(CentsToNumber(v.info.dailyRate))
    ensures Get(r, MileageStart) == JsNum(v.info.mileage as real)
    ensures Get(r, PickupLocationId) == pickup
    ensures forall k | k != VehicleId && k != DailyRate && k != MileageStart && k != PickupLocationId ::
              Get(r, k) == Get(f, k)
  {
    f[VehicleId := JsNum(v.vehicleId as real)][DailyRate := JsNum(CentsToNumber(v.info.dailyRate))]
     [MileageStart := JsNum(v.info.mileage as real)][PickupLocationId := pickup]
  }

  /** `vehicle.location_id || prev.pickup_location_id`: the vehicle's
      location when it has a nonzero one, the previous pickup otherwise. */
  function PickupAfterChoice(f: FormData<Field>, v: Schemas.Vehicle): (p: JsValue)
    ensures v.info.locationId.Some? && v.info.locationId.value != 0 ==> p == JsNum(v.info.locationId.value as real)
    ensures v.info.locationId.None? || v.info.locationId.value == 0 ==> p == Get(f, PickupLocationId)
  {
    match v.info.locationId
    case Some(l) => if l != 0 then JsNum(l as real) else Get(f, PickupLocationId)
    case None => Get(f, PickupLocationId)
  }

  /** The value handleInputChange stores first: the coerced value under the
      input's name. */
  function Stored(f: FormData<Field>, e: ChangeEvent<Field>): (r: FormData<Field>)
    requires WellTyped(f) && InputOf(e.name).Some?
    ensures WellTyped(r)
    ensures r == f[e.name := Coerce(Policy, InputOf(e.name).value, e)]
  {
    var v := Coerce(Policy, InputOf(e.name).value, e);
    assert e.name == DailyRate ==> v.JsNum?;
    f[e.name := v]
  }

  /** The form handleInputChange leaves, given the vehicle the change picks
      (see ChosenVehicle): the coerced value stored, and when a vehicle was
      picked, its terms and the pickup rule on top. */
  function AfterChange(f: FormData<Field>, e: ChangeEvent<Field>, chosen: Option<Schemas.Vehicle>): (r: FormData<Field>)
    requires WellTyped(f) && InputOf(e.name).Some?
    ensures WellTyped(r)
    ensures chosen.None? ==> r == f[e.name := Coerce(Policy, InputOf(e.name).value, e)]
  {
    var s := Stored(f, e);
    match chosen
    case None => s
    case Some(v) => WithVehicleTerms(s, v, PickupAfterChoice(s, v))
  }

  /** A change of the vehicle select that picks vehicle v leaves v's id,
      daily rate and mileage in the form, the pickup location v's own when
      it has one and the previous one otherwise, and every other field as
      it was. */
  lemma VehicleChoiceFillsTerms(f: FormData<Field>, e: ChangeEvent<Field>, v: Schemas.Vehicle)
    requires WellTyped(f) && e.name == VehicleId
    ensures var r := AfterChange(f, e, Some(v));
            && Get(r, VehicleId) == JsNum(v.vehicleId as real)
            && Get(r, DailyRate) == JsNum(CentsToNumber(v.info.dailyRate))
            && Get(r, MileageStart) == JsNum(v.info.mileage as real)
            && Get(r, PickupLocationId) == PickupAfterChoice(f, v)
            && forall k | k != VehicleId && k != DailyRate && k != MileageStart && k != PickupLocationId ::
                 Get(r, k) == Get(f, k)
  {
    var s := Stored(f, e);
    assert Get(s, PickupLocationId) == Get(f, PickupLocationId);
  }

  /** A vehicle with a nonzero id and a positive rate satisfies both the
      vehicle check and the rate check, whatever the form held before. */
  lemma ChosenVehicleSatisfiesChecks(f: FormData<Field>, parse: string -> Option<int>, check: SelectCheck,
                                     v: Schemas.Vehicle, pickup: JsValue)
    requires WellTyped(f) && v.vehicleId != 0 && v.info.dailyRate > 0
    ensures FieldError(WithVehicleTerms(f, v, pickup), parse, check, VehicleId).None?
    ensures FieldError(WithVehicleTerms(f, v, pickup), parse, check, DailyRate).None?
  {
    var r := WithVehicleTerms(f, v, pickup);
    assert r[DailyRate] == JsNum(CentsToNumber(v.info.dailyRate));
  }

  // ---------------------------------------------------------------------
  // Validation

  /** Both dates are given and the end is not after the start. */
  predicate EndTooEarly(f: FormData<Field>, parse: string -> Option<int>)
    requires WellTyped(f)
  {
    && !Missing(f, StartDate) && !Missing(f, EndDate)
    && EndNotAfterStart(parse, f[StartDate].str, f[EndDate].str)
  }

  /** The message validateForm records for field k, if any: the rule for
      each field on its own, the selects judged by the given SelectCheck. */
  function FieldError(f: FormData<Field>, parse: string -> Option<int>, check: SelectCheck, k: Field): Option<string>
    requires WellTyped(f)
  {
    match k
    case CustomerId => if Unselected(check, Get(f, CustomerId)) then Some("Please select a customer") else None
    case VehicleId => if Unselected(check, Get(f, VehicleId)) then Some("Please select a vehicle") else None
    case PickupLocationId =>
      if Unselected(check, Get(f, PickupLocationId)) then Some("Please select a pickup location") else None
    case ReturnLocationId =>
      if Unselected(check, Get(f, ReturnLocationId)) then Some("Please select a return location") else None
    case StartDate => if Missing(f, StartDate) then Some("Start date is required") else None
    case EndDate =>
      if EndTooEarly(f, parse) then Some("End date must be after start date")
      else if Missing(f, EndDate) then Some("End date is required")
      else None
    case DailyRate => if f[DailyRate].num <= 0.0 then Some("Daily rate must be greater than 0") else None
    case _ => None
  }

  /** The errors validateForm records, rule by rule in its order.  The page
      itself tests the selects with `=== 0` (AsWritten). */
  function FormErrors(f: FormData<Field>, parse: string -> Option<int>, check: SelectCheck): Errors<Field>
    requires WellTyped(f)
  {
    var e0: Errors<Field> := map[];
    var e1 := Flag(e0, Unselected(check, Get(f, CustomerId)), CustomerId, "Please select a customer");
    var e2 := Flag(e1, Unselected(check, Get(f, VehicleId)), VehicleId, "Please select a vehicle");
    var e3 := Flag(e2, Unselected(check, Get(f, PickupLocationId)), PickupLocationId, "Please select a pickup location");
    var e4 := Flag(e3, Unselected(check, Get(f, ReturnLocationId)), ReturnLocationId, "Please select a return location");
    var e5 := Flag(e4, Missing(f, StartDate), StartDate, "Start date is required");
    var e6 := Flag(e5, Missing(f, EndDate), EndDate, "End date is required");
    var e7 := Flag(e6, EndTooEarly(f, parse), EndDate, "End date must be after start date");
    Flag(e7, f[DailyRate].num <= 0.0, DailyRate, "Daily rate must be greater than 0")
  }

  /** The recorded errors are exactly the fields whose rule fails, each with
      its rule's message. */
  lemma FormErrorsByField(f: FormData<Field>, parse: string -> Option<int>, check: SelectCheck, k: Field)
    requires WellTyped(f)
    ensures Lookup(FormErrors(f, parse, check), k) == FieldError(f, parse, check, k)
  {
  }

  /** An end date that is not after the start date is reported on the end
      date, whatever the other fields hold. */
  lemma EndTooEarlyAlwaysReported(f: FormData<Field>, parse: string -> Option<int>, check: SelectCheck)
    requires WellTyped(f) && EndTooEarly(f, parse)
    ensures Lookup(FormErrors(f, parse, check), EndDate) == Some("End date must be after start date")
  {
    FormErrorsByField(f, parse, check, EndDate);
  }

  /** All four selects chosen, both dates given with the end after the
      start, and a positive daily rate. */
  predicate Acceptable(f: FormData<Field>, parse: string -> Option<int>, check: SelectCheck)
    requires WellTyped(f)
  {
    && !Unselected(check, Get(f, CustomerId)) && !Unselected(check, Get(f, VehicleId))
    && !Unselected(check, Get(f, PickupLocationId)) && !Unselected(check, Get(f, ReturnLocationId))
    && !Missing(f, StartDate) && !Missing(f, EndDate)
    && !EndNotAfterStart(parse, f[StartDate].str, f[EndDate].str)
    && f[DailyRate].num > 0.0
  }

  lemma ValidIffAcceptable(f: FormData<Field>, parse: string -> Option<int>, check: SelectCheck)
    requires WellTyped(f)
    ensures FormErrors(f, parse, check) == map[] <==> Acceptable(f, parse, check)
  {
    var e := FormErrors(f, parse, check);
    if Acceptable(f, parse, check) {
      forall k ensures k !in e {
        FormErrorsByField(f, parse, check, k);
      }
      assert e.Keys == {};
    } else {
      FormErrorsByField(f, parse, check, CustomerId);
      FormErrorsByField(f, parse, check, VehicleId);
      FormErrorsByField(f, parse, check, PickupLocationId);
      FormErrorsByField(f, parse, check, ReturnLocationId);
      FormErrorsByField(f, parse, check, StartDate);
      FormErrorsByField(f, parse, check, EndDate);
      FormErrorsByField(f, parse, check, DailyRate);
    }
  }

  /** The four selects the validator checks; the employee select is not
      one of them. */
  predicate CheckedSelect(k: Field)
  {
    k == CustomerId || k == VehicleId || k == PickupLocationId || k == ReturnLocationId
  }

  /** The form after choosing the placeholder option of the select e.name
      (the value stored before any vehicle lookup). */
  function PlaceholderChosen(f: FormData<Field>, e: ChangeEvent<Field>): FormData<Field>
  {
    f[e.name := Coerce(Policy, SelectInput, e)]
  }

  /** As written: choosing a checked select's placeholder again on a form
      that passed leaves it passing, since the stored value is the string
      "0" and `=== 0` is false for it; HandleSubmit then sends the rental
      with that id "0". */
  lemma PlaceholderSentAsWritten(f: FormData<Field>, parse: string -> Option<int>, e: ChangeEvent<Field>)
    requires WellTyped(f) && Acceptable(f, parse, AsWritten) && CheckedSelect(e.name) && e.value == "0"
    ensures WellTyped(PlaceholderChosen(f, e))
    ensures Get(PlaceholderChosen(f, e), e.name) == JsStr("0")
    ensures Acceptable(PlaceholderChosen(f, e), parse, AsWritten)
  {
  }

  /** Corrected: the same form is refused, with the select's "Please
      select" message. */
  lemma CorrectedCheckFlagsPlaceholder(f: FormData<Field>, parse: string -> Option<int>, e: ChangeEvent<Field>)
    requires WellTyped(f) && CheckedSelect(e.name) && e.value == "0"
    ensures WellTyped(PlaceholderChosen(f, e))
    ensures e.name == CustomerId ==>
      FieldError(PlaceholderChosen(f, e), parse, Corrected, CustomerId) == Some("Please select a customer")
    ensures FieldError(PlaceholderChosen(f, e), parse, Corrected, e.name).Some?
    ensures !Acceptable(PlaceholderChosen(f, e), parse, Corrected)
  {
  }

  /** No checked select holds the placeholder string. */
  predicate NoPlaceholder(f: FormData<Field>)
  {
    forall k :: CheckedSelect(k) ==> Get(f, k) != JsStr("0")
  }

  /** Away from the placeholder string both tests record the same errors. */
  lemma ChecksAgreeWithoutPlaceholder(f: FormData<Field>, parse: string -> Option<int>)
    requires WellTyped(f) && NoPlaceholder(f)
    ensures FormErrors(f, parse, AsWritten) == FormErrors(f, parse, Corrected)
  {
    assert CheckedSelect(CustomerId) && CheckedSelect(VehicleId);
    assert CheckedSelect(PickupLocationId) && CheckedSelect(ReturnLocationId);
    ChecksDisagreeOnlyOnPlaceholder(Get(f, CustomerId));
    ChecksDisagreeOnlyOnPlaceholder(Get(f, VehicleId));
    ChecksDisagreeOnlyOnPlaceholder(Get(f, PickupLocationId));
    ChecksDisagreeOnlyOnPlaceholder(Get(f, ReturnLocationId));
  }

  /** The banner a failed save shows. */
  const CreateFailed := "Failed to create rental. Please try again."

  /** The banner a failed load of the select lists shows. */
  const LoadFailed := "Failed to load form data"

  class Page {
    /** Date parsing, an Invalid Date being None. */
    const parse: string -> Option<int>
    /** The id the `vehicle_id` query parameter names, 0 when it names
        none: what both the initial state and fetchFormData read from it. */
    const linkedVehicleId: int
    var formData: FormData<Field>
    /** The available vehicles the page loaded. */
    var vehicles: seq<Schemas.Vehicle>
    var errors: Errors<Field>
    var submitError: Option<string>
    var loading: bool
    var rentalDays: int
    var navigatedTo: Option<string>
    /** The forms the page has sent to be saved, in order. */
    var sent: seq<FormData<Field>>

    predicate Valid()
      reads this
    {
      WellTyped(formData)
    }

    constructor(customerQuery: Option<string>, vehicleQuery: Option<string>, parse: string -> Option<int>)
      ensures Valid()
      ensures this.parse == parse && linkedVehicleId == InitialIdFromQuery(vehicleQuery)
      ensures formData == InitialForm(InitialIdFromQuery(customerQuery), linkedVehicleId)
      ensures vehicles == [] && errors == map[] && submitError.None?
      ensures !loading && rentalDays == 0 && navigatedTo.None? && sent == []
    {
      this.parse := parse;
      linkedVehicleId := InitialIdFromQuery(vehicleQuery);
      formData := InitialForm(InitialIdFromQuery(customerQuery), InitialIdFromQuery(vehicleQuery));
      vehicles := [];
      errors := map[];
      submitError := None;
      loading := false;
      rentalDays := 0;
      navigatedTo := None;
      sent := [];
    }

    /** fetchFormData, with the loaded vehicle list as a parameter (None when
        a request failed).  A vehicle named in the query string and found in
        the list is preselected, with its rate and mileage. */
    method FetchFormData(loaded: Option<seq<Schemas.Vehicle>>)
      requires Valid()
      modifies this`formData, this`vehicles, this`submitError
      ensures Valid()
      ensures loaded.None? ==>
        && formData == old(formData) && vehicles == old(vehicles)
        && submitError == Some(LoadFailed)
      ensures loaded.Some? ==> vehicles == loaded.value && submitError == old(submitError)
      ensures loaded.Some? ==>
        var found := if linkedVehicleId != 0 then FindVehicle(loaded.value, linkedVehicleId) else None;
        && (found.Some? ==> formData == WithVehicleTerms(old(formData), found.value, Get(old(formData), PickupLocationId)))
        && (found.None? ==> formData == old(formData))
    {
      if loaded.None? {
        submitError := Some(LoadFailed);
        return;
      }
      vehicles := loaded.value;
      if linkedVehicleId != 0 {
        var found := FindVehicle(vehicles, linkedVehicleId);
        if found.Some? {
          formData := WithVehicleTerms(formData, found.value, Get(formData, PickupLocationId));
        }
      }
    }

    /** The calculateTotalAmount effect, run after a change of either date,
        the daily rate or the vehicle. */
    method CalculateTotalAmount()
      requires Valid()
      modifies this`formData, this`rentalDays
      ensures Valid()
      ensures formData == Recalculated(old(formData), parse)
      ensures rentalDays == RecalculatedDays(old(formData), parse, old(rentalDays))
    {
      if !Missing(formData, StartDate) && !Missing(formData, EndDate) && formData[DailyRate].num > 0.0 {
        var days := DayCount(parse, formData[StartDate].str, formData[EndDate].str);
        if days.Some? && days.value > 0 {
          assert ChargedDays(formData, parse) == days;
          rentalDays := days.value;
          formData := formData[TotalAmount := JsNum(days.value as real * formData[DailyRate].num)];
        } else {
          rentalDays := 0;
        }
      }
    }

    /** handleInputChange: store the coerced value under the input's name;
        a change of the vehicle select that picks a listed vehicle then
        fills in its terms and, when it has a location, the pickup
        location; the edited field's error is cleared. */
    method HandleInputChange(e: ChangeEvent<Field>)
      requires Valid() && InputOf(e.name).Some?
      modifies this`formData, this`errors
      ensures Valid()
      ensures formData == AfterChange(old(formData), e, ChosenVehicle(vehicles, e))
      ensures errors == ClearError(old(errors), e.name)
    {
      formData := AfterChange(formData, e, ChosenVehicle(vehicles, e));
      errors := ClearError(errors, e.name);
    }

    /** validateForm: record the errors and report whether there were none. */
    method ValidateForm() returns (ok: bool)
      requires Valid()
      modifies this`errors
      ensures errors == FormErrors(formData, parse, AsWritten)
      ensures ok <==> Acceptable(formData, parse, AsWritten)
    {
      var f := formData;
      var newErrors: Errors<Field> := map[];
      newErrors := Flag(newErrors, StrictZero(Get(f, CustomerId)), CustomerId, "Please select a customer");
      newErrors := Flag(newErrors, StrictZero(Get(f, VehicleId)), VehicleId, "Please select a vehicle");
      newErrors := Flag(newErrors, StrictZero(Get(f, PickupLocationId)), PickupLocationId,
                        "Please select a pickup location");
      newErrors := Flag(newErrors, StrictZero(Get(f, ReturnLocationId)), ReturnLocationId,
                        "Please select a return location");
      newErrors := Flag(newErrors, Missing(f, StartDate), StartDate, "Start date is required");
      newErrors := Flag(newErrors, Missing(f, EndDate), EndDate, "End date is required");
      newErrors := Flag(newErrors, EndTooEarly(f, parse), EndDate, "End date must be after start date");
      newErrors := Flag(newErrors, f[DailyRate].num <= 0.0, DailyRate, "Daily rate must be greater than 0");
      errors := newErrors;
      ValidIffAcceptable(formData, parse, AsWritten);
      ok := newErrors == map[];
    }

    /** handleSubmit, with the outcome of the save call as a parameter (None
        when it succeeded).  An invalid form sends nothing. */
    method HandleSubmit(outcome: Option<ApiFailure>)
      requires Valid()
      modifies this`errors, this`submitError, this`loading, this`navigatedTo, this`sent
      ensures Valid() && formData == old(formData) && errors == FormErrors(formData, parse, AsWritten)
      ensures !Acceptable(formData, parse, AsWritten) ==>
        sent == old(sent) && submitError == old(submitError) && loading == old(loading)
        && navigatedTo == old(navigatedTo)
      ensures Acceptable(formData, parse, AsWritten) ==> sent == old(sent) + [formData] && !loading
      ensures Acceptable(formData, parse, AsWritten) && outcome.None? ==>
        navigatedTo == Some("/rentals") && submitError.None?
      ensures Acceptable(formData, parse, AsWritten) && outcome.Some? ==>
        navigatedTo == old(navigatedTo) && submitError == Some(CreateFailed)
    {
      var ok := ValidateForm();
      if !ok {
        return;
      }
      loading := true;
      submitError := None;
      sent := sent + [formData];
      if outcome.None? {
        navigatedTo := Some("/rentals");
      } else {
        submitError := Some(CreateFailed);
      }
      loading := false;
    }
  }

  /** The placeholder slipping through, on the page: on a form that passed,
      choosing "Select a customer" again and submitting sends the rental
      with customer_id "0". */
  method PlaceholderSubmitted(p: Page, e: ChangeEvent<Field>, outcome: Option<ApiFailure>)
    requires p.Valid() && Acceptable(p.formData, p.parse, AsWritten) && e.name == CustomerId && e.value == "0"
    modifies p
    ensures p.sent == old(p.sent) + [old(p.formData)[CustomerId := JsStr("0")]]
  {
    PlaceholderSentAsWritten(p.formData, p.parse, e);
    p.HandleInputChange(e);
    p.HandleSubmit(outcome);
  }
}
