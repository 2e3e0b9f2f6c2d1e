/** The incident report page: the rental may be preselected by the
    `rental_id` query parameter, the rental, incident type, description and
    date are required, an empty number box becomes undefined, and a failed
    save is only logged. */
module IncidentForm {
  import opened Base
  import opened Text
  import opened FormKit

  datatype Field = RentalId | ReportedBy | IncidentDate | IncidentType | Description
                 | EstimatedCost | Status | Photos | PoliceReportNumber

  /** The element each field is edited with; status and photos have none. */
  function InputOf(k: Field): Option<InputType>
  {
    match k
    case RentalId => Some(SelectInput)
    case IncidentType => Some(SelectInput)
    case ReportedBy => Some(SelectInput)
    case EstimatedCost => Some(NumberInput)
    case Status => None
    case Photos => None
    case _ => Some(TextInput)
  }

  /** handleInputChange's coercion: an empty number box becomes undefined;
      there is no checkbox. */
  const Policy: Coercion := ParseNumbers(JsUndefined, false)

  /** The initial state, given the `rental_id` query parameter. */
  function InitialForm(rentalId: int): (f: FormData<Field>)
    ensures WellTyped(f)
    ensures Get(f, RentalId) == JsNum(rentalId as real)
    ensures Get(f, Status) == JsStr("Open")
  {
    map[RentalId := JsNum(rentalId as real), ReportedBy := JsUndefined,
        IncidentDate := JsStr(""), IncidentType := JsStr(""), Description := JsStr(""),
        EstimatedCost := JsUndefined, Status := JsStr("Open"), Photos := JsStr(""),
        PoliceReportNumber := JsStr("")]
  }

  /** The type and the description hold strings, as their inputs store them. */
  predicate WellTyped(f: FormData<Field>)
  {
    HoldsText(f, IncidentType) && HoldsText(f, Description)
  }

  /** The message validateForm records for field k, if any, the rental
      select judged by the given SelectCheck. */
  function FieldError(f: FormData<Field>, check: SelectCheck, k: Field): Option<string>
    requires WellTyped(f)
  {
    match k
    case RentalId => if Unselected(check, Get(f, RentalId)) then Some("Please select a rental") else None
    case IncidentType => if BlankField(f, IncidentType) then Some("Incident type is required") else None
    case Description => if BlankField(f, Description) then Some("Description is required") else None
    case IncidentDate => if Missing(f, IncidentDate) then Some("Incident date is required") else None
    case _ => None
  }

  /** The errors validateForm records, rule by rule in its order.  The page
      itself tests the rental select with `=== 0` (AsWritten). */
  function FormErrors(f: FormData<Field>, check: SelectCheck): Errors<Field>
    requires WellTyped(f)
  {
    var e0: Errors<Field> := map[];
    var e1 := Flag(e0, Unselected(check, Get(f, RentalId)), RentalId, "Please select a rental");
    var e2 := Flag(e1, BlankField(f, IncidentType), IncidentType, "Incident type is required");
    var e3 := Flag(e2, BlankField(f, Description), Description, "Description is required");
    Flag(e3, Missing(f, IncidentDate), IncidentDate, "Incident date is required")
  }

  /** The recorded errors are exactly the fields whose rule fails, each with
      its rule's message. */
  lemma FormErrorsByField(f: FormData<Field>, check: SelectCheck, k: Field)
    requires WellTyped(f)
    ensures Lookup(FormErrors(f, check), k) == FieldError(f, check, k)
  {
  }

  /** A rental chosen, a type and a description filled in, and a date. */
  predicate Acceptable(f: FormData<Field>, check: SelectCheck)
    requires WellTyped(f)
  {
    && !Unselected(check, Get(f, RentalId)) && !BlankField(f, IncidentType)
    && !BlankField(f, Description) && !Missing(f, IncidentDate)
  }

  lemma ValidIffAcceptable(f: FormData<Field>, check: SelectCheck)
    requires WellTyped(f)
    ensures FormErrors(f, check) == map[] <==> Acceptable(f, check)
  {
    var e := FormErrors(f, check);
    if Acceptable(f, check) {
      forall k ensures k !in e {
        FormErrorsByField(f, check, k);
      }
      assert e.Keys == {};
    } else {
      FormErrorsByField(f, check, RentalId);
      FormErrorsByField(f, check, IncidentType);
      FormErrorsByField(f, check, Description);
      FormErrorsByField(f, check, IncidentDate);
    }
  }

  /** The form after choosing the rental select's placeholder option. */
  function PlaceholderChosen(f: FormData<Field>, e: ChangeEvent<Field>): FormData<Field>
  {
    f[RentalId := Coerce(Policy, SelectInput, e)]
  }

  /** As written: choosing the placeholder again on a form that passed
      leaves it passing, since the stored value is the string "0" and
      `=== 0` is false for it; HandleSubmit then sends the report with
      rental_id "0". */
  lemma PlaceholderSentAsWritten(f: FormData<Field>, e: ChangeEvent<Field>)
    requires WellTyped(f) && Acceptable(f, AsWritten) && e.name == RentalId && e.value == "0"
    ensures WellTyped(PlaceholderChosen(f, e))
    ensures Get(PlaceholderChosen(f, e), RentalId) == JsStr("0")
    ensures Acceptable(PlaceholderChosen(f, e), AsWritten)
  {
  }

  /** Corrected: the same form is refused with "Please select a rental". */
  lemma CorrectedCheckFlagsPlaceholder(f: FormData<Field>, e: ChangeEvent<Field>)
    requires WellTyped(f) && e.name == RentalId && e.value == "0"
    ensures WellTyped(PlaceholderChosen(f, e))
    ensures FieldError(PlaceholderChosen(f, e), Corrected, RentalId) == Some("Please select a rental")
    ensures !Acceptable(PlaceholderChosen(f, e), Corrected)
  {
  }

  /** Away from the placeholder string both tests record the same errors. */
  lemma ChecksAgreeWithoutPlaceholder(f: FormData<Field>)
    requires WellTyped(f) && Get(f, RentalId) != JsStr("0")
    ensures FormErrors(f, AsWritten) == FormErrors(f, Corrected)
  {
    ChecksDisagreeOnlyOnPlaceholder(Get(f, RentalId));
  }

  /** The page starts with a rental chosen exactly when the query named
      one: a link carrying rental n > 0 preselects it, and without the
      parameter the rental must still be chosen. */
  lemma LinkedRentalPreselected(n: nat, check: SelectCheck)
    ensures FieldError(InitialForm(InitialIdFromQuery(Some(DecimalString(n)))), check, RentalId).None? <==> n > 0
    ensures FieldError(InitialForm(InitialIdFromQuery(None)), check, RentalId) == Some("Please select a rental")
  {
    InitialIdRoundTrip(n);
    var f := InitialForm(InitialIdFromQuery(Some(DecimalString(n))));
    assert Get(f, RentalId) == JsNum(n as real);
    assert InitialIdFromQuery(None) == 0;
  }

  class Page {
    var formData: FormData<Field>
    var errors: Errors<Field>
    var loading: bool
    var navigatedTo: Option<string>
    /** The reports the page has sent to be saved, in order. */
    var sent: seq<FormData<Field>>

    predicate Valid()
      reads this
    {
      WellTyped(formData)
    }

    constructor(rentalQuery: Option<string>)
      ensures Valid()
      ensures formData == InitialForm(InitialIdFromQuery(rentalQuery)) && errors == map[]
      ensures !loading && navigatedTo.None? && sent == []
    {
      formData := InitialForm(InitialIdFromQuery(rentalQuery));
      errors := map[];
      loading := false;
      navigatedTo := None;
      sent := [];
    }

    /** handleInputChange: store the coerced value under the input's name,
        clear that field's error. */
    method HandleInputChange(e: ChangeEvent<Field>)
      requires Valid() && InputOf(e.name).Some?
      modifies this`formData, this`errors
      ensures Valid()
      ensures formData == old(formData)[e.name := Coerce(Policy, InputOf(e.name).value, e)]
      ensures errors == ClearError(old(errors), e.name)
    {
      formData := formData[e.name := Coerce(Policy, InputOf(e.name).value, e)];
      errors := ClearError(errors, e.name);
    }

    /** validateForm: record the errors and report whether there were none. */
    method ValidateForm() returns (ok: bool)
      requires Valid()
      modifies this`errors
      ensures errors == FormErrors(formData, AsWritten)
      ensures ok <==> Acceptable(formData, AsWritten)
    {
      var f := formData;
      var newErrors: Errors<Field> := map[];
      newErrors := Flag(newErrors, StrictZero(Get(f, RentalId)), RentalId, "Please select a rental");
      newErrors := Flag(newErrors, BlankField(f, IncidentType), IncidentType, "Incident type is required");
      newErrors := Flag(newErrors, BlankField(f, Description), Description, "Description is required");
      newErrors := Flag(newErrors, Missing(f, IncidentDate), IncidentDate, "Incident date is required");
      errors := newErrors;
      ValidIffAcceptable(formData, AsWritten);
      ok := newErrors == map[];
    }

    /** handleSubmit, with the outcome of the save call as a parameter (None
        when it succeeded).  A failure stays on the page and is only logged;
        loading ends either way. */
    method HandleSubmit(outcome: Option<ApiFailure>)
      requires Valid()
      modifies this`errors, this`loading, this`navigatedTo, this`sent
      ensures Valid() && formData == old(formData) && errors == FormErrors(formData, AsWritten)
      ensures !Acceptable(formData, AsWritten) ==>
        sent == old(sent) && loading == old(loading) && navigatedTo == old(navigatedTo)
      ensures Acceptable(formData, AsWritten) ==> sent == old(sent) + [formData] && !loading
      ensures Acceptable(formData, AsWritten) && outcome.None? ==> navigatedTo == Some("/incidents")
      ensures outcome.Some? ==> navigatedTo == old(navigatedTo)
    {
      var ok := ValidateForm();
      if !ok {
        return;
      }
      loading := true;
      sent := sent + [formData];
      if outcome.None? {
        navigatedTo := Some("/incidents");
      }
      loading := false;
    }
  }

  /** The placeholder slipping through, on the page: on a form that passed,
      choosing "Select a rental" again and submitting sends the report with
      rental_id "0". */
  method PlaceholderSubmitted(p: Page, e: ChangeEvent<Field>, outcome: Option<ApiFailure>)
    requires p.Valid() && Acceptable(p.formData, AsWritten) && e.name == RentalId && e.value == "0"
    modifies p
    ensures p.sent == old(p.sent) + [old(p.formData)[RentalId := JsStr("0")]]
  {
    PlaceholderSentAsWritten(p.formData, e);
    p.HandleInputChange(e);
    p.HandleSubmit(outcome);
  }
}
