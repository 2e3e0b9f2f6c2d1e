/** The maintenance scheduling page: the vehicle may be preselected by the
    `vehicle_id` query parameter, the vehicle, the maintenance type and the
    date are required, an empty number box becomes undefined, and a failed
    save shows one fixed banner. */
module MaintenanceForm {
  import opened Base
  import opened Text
  import opened FormKit

  datatype Field = VehicleId | MaintenanceType | ScheduledDate | AssignedMechanic | Cost | Notes | Status

  /** The element each field is edited with; status has none. */
  function InputOf(k: Field): Option<InputType>
  {
    match k
    case VehicleId => Some(SelectInput)
    case MaintenanceType => Some(SelectInput)
    case AssignedMechanic => Some(SelectInput)
    case Cost => Some(NumberInput)
    case Status => None
    case _ => Some(TextInput)
  }

  /** handleInputChange's coercion: an empty number box becomes undefined;
      there is no checkbox. */
  const Policy: Coercion := ParseNumbers(JsUndefined, false)

  /** The initial state, given the `vehicle_id` query parameter. */
  function InitialForm(vehicleId: int): (f: FormData<Field>)
    ensures WellTyped(f)
    ensures Get(f, VehicleId) == JsNum(vehicleId as real)
    ensures Get(f, Status) == JsStr("Scheduled")
  {
    map[VehicleId := JsNum(vehicleId as real), MaintenanceType := JsStr(""),
        ScheduledDate := JsStr(""), AssignedMechanic := JsUndefined, Cost := JsUndefined,
        Notes := JsStr(""), Status := JsStr("Scheduled")]
  }

  /** The maintenance type holds a string, as its select stores it. */
  predicate WellTyped(f: FormData<Field>)
  {
    HoldsText(f, MaintenanceType)
  }

  /** The message validateForm records for field k, if any, the vehicle
      select judged by the given SelectCheck. */
  function FieldError(f: FormData<Field>, check: SelectCheck, k: Field): Option<string>
    requires WellTyped(f)
  {
    match k
    case VehicleId => if Unselected(check, Get(f, VehicleId)) then Some("Please select a vehicle") else None
    case MaintenanceType =>
      if BlankField(f, MaintenanceType) then Some("Maintenance type is required") else None
    case ScheduledDate => if Missing(f, ScheduledDate) then Some("Scheduled date is required") else None
    case _ => None
  }

  /** The errors validateForm records, rule by rule in its order.  The page
      itself tests the vehicle select with `=== 0` (AsWritten). */
  function FormErrors(f: FormData<Field>, check: SelectCheck): Errors<Field>
    requires WellTyped(f)
  {
    var e0: Errors<Field> := map[];
    var e1 := Flag(e0, Unselected(check, Get(f, VehicleId)), VehicleId, "Please select a vehicle");
    var e2 := Flag(e1, BlankField(f, MaintenanceType), MaintenanceType, "Maintenance type is required");
    Flag(e2, Missing(f, ScheduledDate), ScheduledDate, "Scheduled date is required")
  }

  /** The recorded errors are exactly the fields whose rule fails, each with
      its rule's message. */
  lemma FormErrorsByField(f: FormData<Field>, check: SelectCheck, k: Field)
    requires WellTyped(f)
    ensures Lookup(FormErrors(f, check), k) == FieldError(f, check, k)
  {
  }

  /** A vehicle chosen, a maintenance type filled in, and a date. */
  predicate Acceptable(f: FormData<Field>, check: SelectCheck)
    requires WellTyped(f)
  {
    !Unselected(check, Get(f, VehicleId)) && !BlankField(f, MaintenanceType) && !Missing(f, ScheduledDate)
  }

  lemma ValidIffAcceptable(f: FormData<Field>, check: SelectCheck)
    requires WellTyped(f)
    ensures FormErrors(f, check) == map[] <==> Acceptable(f, check)
  {
    var e := FormErrors(f, check);
    if Acceptable(f, check) {
      forall k ensures k !in e {
        FormErrorsByField(f, check, k);
      }
      assert e.Keys == {};
    } else {
      FormErrorsByField(f, check, VehicleId);
      FormErrorsByField(f, check, MaintenanceType);
      FormErrorsByField(f, check, ScheduledDate);
    }
  }

  /** The form after choosing the vehicle select's placeholder option. */
  function PlaceholderChosen(f: FormData<Field>, e: ChangeEvent<Field>): FormData<Field>
  {
    f[VehicleId := Coerce(Policy, SelectInput, e)]
  }

  /** As written: choosing the placeholder again on a form that passed
      leaves it passing, since the stored value is the string "0" and
      `=== 0` is false for it; HandleSubmit then sends the record with
      vehicle_id "0". */
  lemma PlaceholderSentAsWritten(f: FormData<Field>, e: ChangeEvent<Field>)
    requires WellTyped(f) && Acceptable(f, AsWritten) && e.name == VehicleId && e.value == "0"
    ensures WellTyped(PlaceholderChosen(f, e))
    ensures Get(PlaceholderChosen(f, e), VehicleId) == JsStr("0")
    ensures Acceptable(PlaceholderChosen(f, e), AsWritten)
  {
  }

  /** Corrected: the same form is refused with "Please select a vehicle". */
  lemma CorrectedCheckFlagsPlaceholder(f: FormData<Field>, e: ChangeEvent<Field>)
    requires WellTyped(f) && e.name == VehicleId && e.value == "0"
    ensures WellTyped(PlaceholderChosen(f, e))
    ensures FieldError(PlaceholderChosen(f, e), Corrected, VehicleId) == Some("Please select a vehicle")
    ensures !Acceptable(PlaceholderChosen(f, e), Corrected)
  {
  }

  /** Away from the placeholder string both tests record the same errors. */
  lemma ChecksAgreeWithoutPlaceholder(f: FormData<Field>)
    requires WellTyped(f) && Get(f, VehicleId) != JsStr("0")
    ensures FormErrors(f, AsWritten) == FormErrors(f, Corrected)
  {
    ChecksDisagreeOnlyOnPlaceholder(Get(f, VehicleId));
  }

  /** The page starts with a vehicle chosen exactly when the query named
      one: a link carrying vehicle n > 0 preselects it, and without the
      parameter the vehicle must still be chosen. */
  lemma LinkedVehiclePreselected(n: nat, check: SelectCheck)
    ensures FieldError(InitialForm(InitialIdFromQuery(Some(DecimalString(n)))), check, VehicleId).None? <==> n > 0
    ensures FieldError(InitialForm(InitialIdFromQuery(None)), check, VehicleId) == Some("Please select a vehicle")
  {
    InitialIdRoundTrip(n);
    var f := InitialForm(InitialIdFromQuery(Some(DecimalString(n))));
    assert Get(f, VehicleId) == JsNum(n as real);
    assert InitialIdFromQuery(None) == 0;
  }

  /** The banner a failed save shows. */
  const ScheduleFailed := "Failed to schedule maintenance. Please try again."

  class Page {
    var formData: FormData<Field>
    var errors: Errors<Field>
    var submitError: Option<string>
    var loading: bool
    var navigatedTo: Option<string>
    /** The schedules the page has sent to be saved, in order. */
    var sent: seq<FormData<Field>>

    predicate Valid()
      reads this
    {
      WellTyped(formData)
    }

    constructor(vehicleQuery: Option<string>)
      ensures Valid()
      ensures formData == InitialForm(InitialIdFromQuery(vehicleQuery)) && errors == map[]
      ensures submitError.None? && !loading && navigatedTo.None? && sent == []
    {
      formData := InitialForm(InitialIdFromQuery(vehicleQuery));
      errors := map[];
      submitError := None;
      loading := false;
      navigatedTo := None;
      sent := [];
    }

    /** handleInputChange: store the coerced value under the input's name,
        clear that field's error. */
    method HandleInputChange(e: ChangeEvent<Field>)
      requires Valid() && InputOf(e.name).Some?
      modifies this`formData, this`errors
      ensures Valid()
      ensures formData == old(formData)[e.name := Coerce(Policy, InputOf(e.name).value, e)]
      ensures errors == ClearError(old(errors), e.name)
    {
      formData := formData[e.name := Coerce(Policy, InputOf(e.name).value, e)];
      errors := ClearError(errors, e.name);
    }

    /** validateForm: record the errors and report whether there were none. */
    method ValidateForm() returns (ok: bool)
      requires Valid()
      modifies this`errors
      ensures errors == FormErrors(formData, AsWritten)
      ensures ok <==> Acceptable(formData, AsWritten)
    {
      var f := formData;
      var newErrors: Errors<Field> := map[];
      newErrors := Flag(newErrors, StrictZero(Get(f, VehicleId)), VehicleId, "Please select a vehicle");
      newErrors := Flag(newErrors, BlankField(f, MaintenanceType), MaintenanceType, "Maintenance type is required");
      newErrors := Flag(newErrors, Missing(f, ScheduledDate), ScheduledDate, "Scheduled date is required");
      errors := newErrors;
      ValidIffAcceptable(formData, AsWritten);
      ok := newErrors == map[];
    }

    /** handleSubmit, with the outcome of the save call as a parameter (None
        when it succeeded).  A failure stays on the page with the banner. */
    method HandleSubmit(outcome: Option<ApiFailure>)
      requires Valid()
      modifies this`errors, this`submitError, this`loading, this`navigatedTo, this`sent
      ensures Valid() && formData == old(formData) && errors == FormErrors(formData, AsWritten)
      ensures !Acceptable(formData, AsWritten) ==>
        sent == old(sent) && submitError == old(submitError) && loading == old(loading)
        && navigatedTo == old(navigatedTo)
      ensures Acceptable(formData, AsWritten) ==> sent == old(sent) + [formData] && !loading
      ensures Acceptable(formData, AsWritten) && outcome.None? ==> navigatedTo == Some("/maintenance") && submitError.None?
      ensures Acceptable(formData, AsWritten) && outcome.Some? ==>
        navigatedTo == old(navigatedTo) && submitError == Some(ScheduleFailed)
    {
      var ok := ValidateForm();
      if !ok {
        return;
      }
      loading := true;
      submitError := None;
      sent := sent + [formData];
      if outcome.None? {
        navigatedTo := Some("/maintenance");
      } else {
        submitError := Some(ScheduleFailed);
      }
      loading := false;
    }
  }

  /** The placeholder slipping through, on the page: on a form that passed,
      choosing "Select a vehicle" again and submitting sends the record with
      vehicle_id "0". */
  method PlaceholderSubmitted(p: Page, e: ChangeEvent<Field>, outcome: Option<ApiFailure>)
    requires p.Valid() && Acceptable(p.formData, AsWritten) && e.name == VehicleId && e.value == "0"
    modifies p
    ensures p.sent == old(p.sent) + [old(p.formData)[VehicleId := JsStr("0")]]
  {
    PlaceholderSentAsWritten(p.formData, e);
    p.HandleInputChange(e);
    p.HandleSubmit(outcome);
  }
}
