/** The vehicle form page (create and edit): number inputs become numbers
    (an empty box becomes 0), the availability checkbox becomes its checked
    flag, make, model and plate are required, the year, daily rate and
    seating capacity must lie in range, and a failed save is mapped to a
    field error or a banner.  The current year is a parameter. */
module VehicleForm {
  import opened Base
  import opened Text
  import opened FormKit
  import Api

  datatype Field = Make | Model | LicensePlate | Year | Availability | DailyRate | Mileage
                 | FuelType | Transmission | SeatingCapacity | LocationId

  /** The element each field is edited with. */
  function InputOf(k: Field): InputType
  {
    match k
    case Year => NumberInput
    case DailyRate => NumberInput
    case Mileage => NumberInput
    case SeatingCapacity => NumberInput
    case FuelType => SelectInput
    case Transmission => SelectInput
    case LocationId => SelectInput
    case Availability => CheckboxInput
    case _ => TextInput
  }

  /** handleInputChange's coercion: an empty number box becomes 0 and a
      checkbox stores its checked flag. */
  const Policy: Coercion := ParseNumbers(JsNum(0.0), true)

  /** The initial state; the year is the current one. */
  function InitialForm(currentYear: int): (f: FormData<Field>)
    ensures WellTyped(f)
    ensures f[Year] == JsNum(currentYear as real) && f[DailyRate] == JsNum(0.0)
  {
    map[Make := JsStr(""), Model := JsStr(""), LicensePlate := JsStr(""),
        Year := JsNum(currentYear as real), Availability := JsBool(true), DailyRate := JsNum(0.0),
        Mileage := JsNum(0.0), FuelType := JsStr("Gasoline"), Transmission := JsStr("Automatic"),
        SeatingCapacity := JsNum(5.0), LocationId := JsUndefined]
  }

  /** The text fields hold strings, year and daily rate hold numbers, and
      the seating capacity a number or nothing. */
  predicate WellTyped(f: FormData<Field>)
  {
    && HoldsText(f, Make) && HoldsText(f, Model) && HoldsText(f, LicensePlate)
    && HoldsNumber(f, Year) && HoldsNumber(f, DailyRate)
    && (Get(f, SeatingCapacity).JsNum? || Get(f, SeatingCapacity).JsUndefined?)
  }

  /** `formData.seating_capacity ?? 5`. */
  function Capacity(f: FormData<Field>): (c: real)
    ensures Get(f, SeatingCapacity).JsNum? ==> c == Get(f, SeatingCapacity).num
    ensures Get(f, SeatingCapacity).JsUndefined? ==> c == 5.0
  {
    match Get(f, SeatingCapacity)
    case JsNum(n) => n
    case _ => 5.0
  }

  /** The year check: outside [1900, currentYear + 1]. */
  predicate BadYear(f: FormData<Field>, currentYear: int)
    requires WellTyped(f)
  {
    f[Year].num < 1900.0 || f[Year].num > (currentYear + 1) as real
  }

  /** The message validateForm records for field k, if any: the rule for
      each field on its own. */
  function FieldError(f: FormData<Field>, currentYear: int, k: Field): Option<string>
    requires WellTyped(f)
  {
    match k
    case Make => if BlankField(f, Make) then Some("Make is required") else None
    case Model => if BlankField(f, Model) then Some("Model is required") else None
    case LicensePlate => if BlankField(f, LicensePlate) then Some("License plate is required") else None
    case Year => if BadYear(f, currentYear) then Some("Please enter a valid year") else None
    case DailyRate => if f[DailyRate].num <= 0.0 then Some("Daily rate must be greater than 0") else None
    case SeatingCapacity =>
      if Capacity(f) < 1.0 || Capacity(f) > 20.0 then Some("Seating capacity must be between 1 and 20") else None
    case _ => None
  }

  /** The errors validateForm records, check by check in its order. */
  function FormErrors(f: FormData<Field>, currentYear: int): Errors<Field>
    requires WellTyped(f)
  {
    var e0: Errors<Field> := map[];
    var e1 := Flag(e0, BlankField(f, Make), Make, "Make is required");
    var e2 := Flag(e1, BlankField(f, Model), Model, "Model is required");
    var e3 := Flag(e2, BlankField(f, LicensePlate), LicensePlate, "License plate is required");
    var e4 := Flag(e3, BadYear(f, currentYear), Year, "Please enter a valid year");
    var e5 := Flag(e4, f[DailyRate].num <= 0.0, DailyRate, "Daily rate must be greater than 0");
    Flag(e5, Capacity(f) < 1.0 || Capacity(f) > 20.0, SeatingCapacity, "Seating capacity must be between 1 and 20")
  }

  /** The recorded errors are exactly the fields whose rule fails, each with
      its rule's message. */
  lemma FormErrorsByField(f: FormData<Field>, currentYear: int, k: Field)
    requires WellTyped(f)
    ensures Lookup(FormErrors(f, currentYear), k) == FieldError(f, currentYear, k)
  {
  }

  /** Make, model and plate filled in, a year in [1900, currentYear + 1], a
      positive daily rate and between 1 and 20 seats. */
  predicate Acceptable(f: FormData<Field>, currentYear: int)
    requires WellTyped(f)
  {
    && !BlankField(f, Make) && !BlankField(f, Model) && !BlankField(f, LicensePlate)
    && 1900.0 <= f[Year].num <= (currentYear + 1) as real
    && f[DailyRate].num > 0.0
    && 1.0 <= Capacity(f) <= 20.0
  }

  lemma ValidIffAcceptable(f: FormData<Field>, currentYear: int)
    requires WellTyped(f)
    ensures FormErrors(f, currentYear) == map[] <==> Acceptable(f, currentYear)
  {
    var e := FormErrors(f, currentYear);
    if Acceptable(f, currentYear) {
      forall k ensures k !in e {
        FormErrorsByField(f, currentYear, k);
      }
      assert e.Keys == {};
    } else {
      FormErrorsByField(f, currentYear, Make);
      FormErrorsByField(f, currentYear, Model);
      FormErrorsByField(f, currentYear, LicensePlate);
      FormErrorsByField(f, currentYear, Year);
      FormErrorsByField(f, currentYear, DailyRate);
      FormErrorsByField(f, currentYear, SeatingCapacity);
    }
  }

  /** A fresh form cannot be saved as it stands: its daily rate is 0.  Its
      year, the current one, passes the year check. */
  lemma InitialFormNeedsRate(currentYear: int)
    requires currentYear >= 1900
    ensures FieldError(InitialForm(currentYear), currentYear, DailyRate).Some?
    ensures FieldError(InitialForm(currentYear), currentYear, Year).None?
    ensures !Acceptable(InitialForm(currentYear), currentYear)
  {
  }

  /** The error a failed save leaves on the page. */
  function SubmitFailure(failure: ApiFailure): (eff: SubmitEffect<Field>)
    ensures failure.status != 400 ==> eff == ShowBanner("Failed to save vehicle. Please try again.")
    ensures failure.status == 400 && Contains(failure.message, "License plate already exists")
            ==> eff == ReplaceErrors(map[LicensePlate := "License plate already exists"])
    ensures failure.status == 400 && !Contains(failure.message, "License plate already exists")
            ==> eff == ShowBanner("Validation error. Please check your input.")
  {
    if failure.status == 400 then
      if Contains(failure.message, "License plate already exists") then
        ReplaceErrors(map[LicensePlate := "License plate already exists"])
      else
        ShowBanner("Validation error. Please check your input.")
    else
      ShowBanner("Failed to save vehicle. Please try again.")
  }

  /** The server's duplicate-plate rejection lands on the plate field. */
  lemma PlateTakenMapped()
    ensures SubmitFailure(ApiFailure(Api.PlateTaken.status, ErrorBody(Api.PlateTaken.detail)))
            == ReplaceErrors(map[LicensePlate := "License plate already exists"])
  {
  }

  /** What the save call was asked to do: create, or update the vehicle with
      the id in the route. */
  datatype Request = Request(vehicleId: Option<int>, form: FormData<Field>)

  class Page {
    /** The id in the route when the page edits an existing vehicle. */
    const editing: Option<int>
    /** `new Date().getFullYear()`. */
    const currentYear: int
    var formData: FormData<Field>
    var errors: Errors<Field>
    var submitError: Option<string>
    var loading: bool
    var navigatedTo: Option<string>
    /** The save requests the page has sent, in order. */
    var sent: seq<Request>

    predicate Valid()
      reads this
    {
      WellTyped(formData)
    }

    constructor(editing: Option<int>, currentYear: int)
      ensures Valid()
      ensures this.editing == editing && this.currentYear == currentYear
      ensures formData == InitialForm(currentYear) && errors == map[]
      ensures submitError.None? && !loading && navigatedTo.None? && sent == []
    {
      this.editing := editing;
      this.currentYear := currentYear;
      formData := InitialForm(currentYear);
      errors := map[];
      submitError := None;
      loading := false;
      navigatedTo := None;
      sent := [];
    }

    /** handleInputChange: store the coerced value under the input's name,
        clear that field's error. */
    method HandleInputChange(e: ChangeEvent<Field>)
      requires Valid()
      modifies this`formData, this`errors
      ensures Valid()
      ensures formData == old(formData)[e.name := Coerce(Policy, InputOf(e.name), e)]
      ensures errors == ClearError(old(errors), e.name)
    {
      formData := formData[e.name := Coerce(Policy, InputOf(e.name), e)];
      errors := ClearError(errors, e.name);
    }

    /** validateForm: record the errors and report whether there were none. */
    method ValidateForm() returns (ok: bool)
      requires Valid()
      modifies this`errors
      ensures errors == FormErrors(formData, currentYear)
      ensures ok <==> Acceptable(formData, currentYear)
    {
      var f := formData;
      var newErrors: Errors<Field> := map[];
      newErrors := Flag(newErrors, BlankField(f, Make), Make, "Make is required");
      newErrors := Flag(newErrors, BlankField(f, Model), Model, "Model is required");
      newErrors := Flag(newErrors, BlankField(f, LicensePlate), LicensePlate, "License plate is required");
      newErrors := Flag(newErrors, BadYear(f, currentYear), Year, "Please enter a valid year");
      newErrors := Flag(newErrors, f[DailyRate].num <= 0.0, DailyRate, "Daily rate must be greater than 0");
      newErrors := Flag(newErrors, Capacity(f) < 1.0 || Capacity(f) > 20.0, SeatingCapacity,
                        "Seating capacity must be between 1 and 20");
      errors := newErrors;
      ValidIffAcceptable(formData, currentYear);
      ok := newErrors == map[];
    }

    /** handleSubmit, with the outcome of the save call as a parameter (None
        when it succeeded).  An invalid form sends nothing. */
    method HandleSubmit(outcome: Option<ApiFailure>)
      requires Valid()
      modifies this`errors, this`submitError, this`loading, this`navigatedTo, this`sent
      ensures Valid() && formData == old(formData)
      ensures !Acceptable(formData, currentYear) ==>
        && errors == FormErrors(formData, currentYear) && sent == old(sent)
        && submitError == old(submitError) && loading == old(loading) && navigatedTo == old(navigatedTo)
      ensures Acceptable(formData, currentYear) ==> sent == old(sent) + [Request(editing, formData)] && !loading
      ensures Acceptable(formData, currentYear) && outcome.None? ==>
        navigatedTo == Some("/vehicles") && submitError.None? && errors == map[]
      ensures Acceptable(formData, currentYear) && outcome.Some? ==>
        && navigatedTo == old(navigatedTo)
        && var eff := SubmitFailure(outcome.value);
           (eff.ReplaceErrors? ==> errors == eff.errors && submitError.None?)
           && (eff.ShowBanner? ==> errors == map[] && submitError == Some(eff.message))
    {
      var ok := ValidateForm();
      if !ok {
        return;
      }
      ValidIffAcceptable(formData, currentYear);
      loading := true;
      submitError := None;
      sent := sent + [Request(editing, formData)];
      match outcome {
        case None =>
          navigatedTo := Some("/vehicles");
        case Some(failure) =>
          match SubmitFailure(failure) {
            case ReplaceErrors(m) => errors := m;
            case ShowBanner(msg) => submitError := Some(msg);
            case OnlyLog =>
          }
      }
      loading := false;
    }
  }
}
