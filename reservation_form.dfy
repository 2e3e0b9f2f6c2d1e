/** The reservation form page: four selects (customer, vehicle, pickup and
    return location) whose placeholder is the option "0", two required
    datetime-local inputs whose end must come after the start, and a failed
    save shown as a banner chosen from the text of the server's reply. */
module ReservationForm {
  import opened Base
  import opened Text
  import opened FormKit

  datatype Field = CustomerId | VehicleId | PickupLocationId | ReturnLocationId
                 | ReservedStartDate | ReservedEndDate | Status | SpecialRequests | EstimatedTotal

  /** The element each field is edited with; status has none. */
  function InputOf(k: Field): Option<InputType>
  {
    match k
    case CustomerId => Some(SelectInput)
    case VehicleId => Some(SelectInput)
    case PickupLocationId => Some(SelectInput)
    case ReturnLocationId => Some(SelectInput)
    case EstimatedTotal => Some(NumberInput)
    case Status => None
    case _ => Some(TextInput)
  }

  /** handleInputChange's coercion: an empty number box becomes 0; there is
      no checkbox. */
  const Policy: Coercion := ParseNumbers(JsNum(0.0), false)

  function InitialForm(): (f: FormData<Field>)
    ensures WellTyped(f)
    ensures Get(f, Status) == JsStr("Active")
  {
    map[CustomerId := JsNum(0.0), VehicleId := JsNum(0.0), PickupLocationId := JsNum(0.0),
        ReturnLocationId := JsNum(0.0), ReservedStartDate := JsStr(""), ReservedEndDate := JsStr(""),
        Status := JsStr("Active"), SpecialRequests := JsStr(""), EstimatedTotal := JsNum(0.0)]
  }

  /** The two dates hold strings, as their inputs store them. */
  predicate WellTyped(f: FormData<Field>)
  {
    HoldsText(f, ReservedStartDate) && HoldsText(f, ReservedEndDate)
  }

  /** Both dates are given and the end is not after the start. */
  predicate EndTooEarly(f: FormData<Field>, parse: string -> Option<int>)
    requires WellTyped(f)
  {
    && !Missing(f, ReservedStartDate) && !Missing(f, ReservedEndDate)
    && EndNotAfterStart(parse, f[ReservedStartDate].str, f[ReservedEndDate].str)
  }

  /** The message validateForm records for field k, if any: the rule for
      each field on its own, the selects judged by the given SelectCheck. */
  function FieldError(f: FormData<Field>, parse: string -> Option<int>, check: SelectCheck, k: Field): Option<string>
    requires WellTyped(f)
  {
    match k
    case CustomerId => if Unselected(check, Get(f, CustomerId)) then Some("Please select a customer") else None
    case VehicleId => if Unselected(check, Get(f, VehicleId)) then Some("Please select a vehicle") else None
    case PickupLocationId =>
      if Unselected(check, Get(f, PickupLocationId)) then Some("Please select a pickup location") else None
    case ReturnLocationId =>
      if Unselected(check, Get(f, ReturnLocationId)) then Some("Please select a return location") else None
    case ReservedStartDate => if Missing(f, ReservedStartDate) then Some("Start date is required") else None
    case ReservedEndDate =>
      if EndTooEarly(f, parse) then Some("End date must be after start date")
      else if Missing(f, ReservedEndDate) then Some("End date is required")
      else None
    case _ => None
  }

  /** The errors validateForm records, rule by rule in its order.  The page
      itself tests the selects with `=== 0` (AsWritten). */
  function FormErrors(f: FormData<Field>, parse: string -> Option<int>, check: SelectCheck): Errors<Field>
    requires WellTyped(f)
  {
    var e0: Errors<Field> := map[];
    var e1 := Flag(e0, Unselected(check, Get(f, CustomerId)), CustomerId, "Please select a customer");
    var e2 := Flag(e1, Unselected(check, Get(f, VehicleId)), VehicleId, "Please select a vehicle");
    var e3 := Flag(e2, Unselected(check, Get(f, PickupLocationId)), PickupLocationId, "Please select a pickup location");
    var e4 := Flag(e3, Unselected(check, Get(f, ReturnLocationId)), ReturnLocationId, "Please select a return location");
    var e5 := Flag(e4, Missing(f, ReservedStartDate), ReservedStartDate, "Start date is required");
    var e6 := Flag(e5, Missing(f, ReservedEndDate), ReservedEndDate, "End date is required");
    Flag(e6, EndTooEarly(f, parse), ReservedEndDate, "End date must be after start date")
  }

  /** The recorded errors are exactly the fields whose rule fails, each with
      its rule's message. */
  lemma FormErrorsByField(f: FormData<Field>, parse: string -> Option<int>, check: SelectCheck, k: Field)
    requires WellTyped(f)
    ensures Lookup(FormErrors(f, parse, check), k) == FieldError(f, parse, check, k)
  {
  }

  /** All four selects chosen, both dates given, and the end after the
      start. */
  predicate Acceptable(f: FormData<Field>, parse: string -> Option<int>, check: SelectCheck)
    requires WellTyped(f)
  {
    && !Unselected(check, Get(f, CustomerId)) && !Unselected(check, Get(f, VehicleId))
    && !Unselected(check, Get(f, PickupLocationId)) && !Unselected(check, Get(f, ReturnLocationId))
    && !Missing(f, ReservedStartDate) && !Missing(f, ReservedEndDate)
    && !EndNotAfterStart(parse, f[ReservedStartDate].str, f[ReservedEndDate].str)
  }

  lemma ValidIffAcceptable(f: FormData<Field>, parse: string -> Option<int>, check: SelectCheck)
    requires WellTyped(f)
    ensures FormErrors(f, parse, check) == map[] <==> Acceptable(f, parse, check)
  {
    var e := FormErrors(f, parse, check);
    if Acceptable(f, parse, check) {
      forall k ensures k !in e {
        FormErrorsByField(f, parse, check, k);
      }
      assert e.Keys == {};
    } else {
      FormErrorsByField(f, parse, check, CustomerId);
      FormErrorsByField(f, parse, check, VehicleId);
      FormErrorsByField(f, parse, check, PickupLocationId);
      FormErrorsByField(f, parse, check, ReturnLocationId);
      FormErrorsByField(f, parse, check, ReservedStartDate);
      FormErrorsByField(f, parse, check, ReservedEndDate);
    }
  }

  /** The form after choosing the placeholder option of the select e.name. */
  function PlaceholderChosen(f: FormData<Field>, e: ChangeEvent<Field>): FormData<Field>
  {
    f[e.name := Coerce(Policy, SelectInput, e)]
  }

  /** As written: choosing a select's placeholder again on a form that
      passed leaves it passing, since the stored value is the string "0"
      and `=== 0` is false for it; HandleSubmit then sends the reservation
      with that id "0". */
  lemma PlaceholderSentAsWritten(f: FormData<Field>, parse: string -> Option<int>, e: ChangeEvent<Field>)
    requires WellTyped(f) && Acceptable(f, parse, AsWritten)
    requires InputOf(e.name) == Some(SelectInput) && e.value == "0"
    ensures WellTyped(PlaceholderChosen(f, e))
    ensures Get(PlaceholderChosen(f, e), e.name) == JsStr("0")
    ensures Acceptable(PlaceholderChosen(f, e), parse, AsWritten)
  {
  }

  /** Corrected: the same form is refused, with the select's "Please
      select" message. */
  lemma CorrectedCheckFlagsPlaceholder(f: FormData<Field>, parse: string -> Option<int>, e: ChangeEvent<Field>)
    requires WellTyped(f) && InputOf(e.name) == Some(SelectInput) && e.value == "0"
    ensures WellTyped(PlaceholderChosen(f, e))
    ensures e.name == CustomerId ==>
      FieldError(PlaceholderChosen(f, e), parse, Corrected, CustomerId) == Some("Please select a customer")
    ensures FieldError(PlaceholderChosen(f, e), parse, Corrected, e.name).Some?
    ensures !Acceptable(PlaceholderChosen(f, e), parse, Corrected)
  {
  }

  /** No select holds the placeholder string. */
  predicate NoPlaceholder(f: FormData<Field>)
  {
    forall k :: InputOf(k) == Some(SelectInput) ==> Get(f, k) != JsStr("0")
  }

  /** Away from the placeholder string both tests record the same errors. */
  lemma ChecksAgreeWithoutPlaceholder(f: FormData<Field>, parse: string -> Option<int>)
    requires WellTyped(f) && NoPlaceholder(f)
    ensures FormErrors(f, parse, AsWritten) == FormErrors(f, parse, Corrected)
  {
    assert InputOf(CustomerId) == Some(SelectInput) && InputOf(VehicleId) == Some(SelectInput);
    assert InputOf(PickupLocationId) == Some(SelectInput) && InputOf(ReturnLocationId) == Some(SelectInput);
    ChecksDisagreeOnlyOnPlaceholder(Get(f, CustomerId));
    ChecksDisagreeOnlyOnPlaceholder(Get(f, VehicleId));
    ChecksDisagreeOnlyOnPlaceholder(Get(f, PickupLocationId));
    ChecksDisagreeOnlyOnPlaceholder(Get(f, ReturnLocationId));
  }

  /** The banner a failed save shows: only the text of the reply matters,
      not its status. */
  function SubmitFailure(failure: ApiFailure): (eff: SubmitEffect<Field>)
    ensures Contains(failure.message, "not available")
            ==> eff == ShowBanner("Vehicle is not available for the selected dates")
    ensures !Contains(failure.message, "not available")
            ==> eff == ShowBanner("Failed to create reservation. Please try again.")
  {
    if Contains(failure.message, "not available") then
      ShowBanner("Vehicle is not available for the selected dates")
    else
      ShowBanner("Failed to create reservation. Please try again.")
  }

  class Page {
    /** Date parsing, an Invalid Date being None. */
    const parse: string -> Option<int>
    var formData: FormData<Field>
    var errors: Errors<Field>
    var submitError: Option<string>
    var loading: bool
    var navigatedTo: Option<string>
    /** The forms the page has sent to be saved, in order. */
    var sent: seq<FormData<Field>>

    predicate Valid()
      reads this
    {
      WellTyped(formData)
    }

    constructor(parse: string -> Option<int>)
      ensures Valid()
      ensures this.parse == parse && formData == InitialForm() && errors == map[]
      ensures submitError.None? && !loading && navigatedTo.None? && sent == []
    {
      this.parse := parse;
      formData := InitialForm();
      errors := map[];
      submitError := None;
      loading := false;
      navigatedTo := None;
      sent := [];
    }

    /** handleInputChange: store the coerced value under the input's name,
        clear that field's error. */
    method HandleInputChange(e: ChangeEvent<Field>)
      requires Valid() && InputOf(e.name).Some?
      modifies this`formData, this`errors
      ensures Valid()
      ensures formData == old(formData)[e.name := Coerce(Policy, InputOf(e.name).value, e)]
      ensures errors == ClearError(old(errors), e.name)
    {
      formData := formData[e.name := Coerce(Policy, InputOf(e.name).value, e)];
      errors := ClearError(errors, e.name);
    }

    /** validateForm: record the errors and report whether there were none. */
    method ValidateForm() returns (ok: bool)
      requires Valid()
      modifies this`errors
      ensures errors == FormErrors(formData, parse, AsWritten)
      ensures ok <==> Acceptable(formData, parse, AsWritten)
    {
      var f := formData;
      var newErrors: Errors<Field> := map[];
      newErrors := Flag(newErrors, StrictZero(Get(f, CustomerId)), CustomerId, "Please select a customer");
      newErrors := Flag(newErrors, StrictZero(Get(f, VehicleId)), VehicleId, "Please select a vehicle");
      newErrors := Flag(newErrors, StrictZero(Get(f, PickupLocationId)), PickupLocationId,
                        "Please select a pickup location");
      newErrors := Flag(newErrors, StrictZero(Get(f, ReturnLocationId)), ReturnLocationId,
                        "Please select a return location");
      newErrors := Flag(newErrors, Missing(f, ReservedStartDate), ReservedStartDate, "Start date is required");
      newErrors := Flag(newErrors, Missing(f, ReservedEndDate), ReservedEndDate, "End date is required");
      newErrors := Flag(newErrors, EndTooEarly(f, parse), ReservedEndDate, "End date must be after start date");
      errors := newErrors;
      ValidIffAcceptable(formData, parse, AsWritten);
      ok := newErrors == map[];
    }

    /** handleSubmit, with the outcome of the save call as a parameter (None
        when it succeeded).  An invalid form sends nothing. */
    method HandleSubmit(outcome: Option<ApiFailure>)
      requires Valid()
      modifies this`errors, this`submitError, this`loading, this`navigatedTo, this`sent
      ensures Valid() && formData == old(formData) && errors == FormErrors(formData, parse, AsWritten)
      ensures !Acceptable(formData, parse, AsWritten) ==>
        sent == old(sent) && submitError == old(submitError) && loading == old(loading)
        && navigatedTo == old(navigatedTo)
      ensures Acceptable(formData, parse, AsWritten) ==> sent == old(sent) + [formData] && !loading
      ensures Acceptable(formData, parse, AsWritten) && outcome.None? ==>
        navigatedTo == Some("/reservations") && submitError.None?
      ensures Acceptable(formData, parse, AsWritten) && outcome.Some? ==>
        navigatedTo == old(navigatedTo) && submitError == Some(SubmitFailure(outcome.value).message)
    {
      var ok := ValidateForm();
      if !ok {
        return;
      }
      loading := true;
      submitError := None;
      sent := sent + [formData];
      if outcome.None? {
        navigatedTo := Some("/reservations");
      } else {
        submitError := Some(SubmitFailure(outcome.value).message);
      }
      loading := false;
    }
  }

  /** The placeholder slipping through, on the page: on a form that passed,
      choosing a select's placeholder again and submitting sends the
      reservation with that id "0". */
  method PlaceholderSubmitted(p: Page, e: ChangeEvent<Field>, outcome: Option<ApiFailure>)
    requires p.Valid() && Acceptable(p.formData, p.parse, AsWritten)
    requires InputOf(e.name) == Some(SelectInput) && e.value == "0"
    modifies p
    ensures p.sent == old(p.sent) + [old(p.formData)[e.name := JsStr("0")]]
  {
    PlaceholderSentAsWritten(p.formData, p.parse, e);
    p.HandleInputChange(e);
    p.HandleSubmit(outcome);
  }
}
