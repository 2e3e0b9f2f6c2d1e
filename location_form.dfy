/** The location form page: seven text inputs stored as typed, of which
    name, address, city, state and ZIP code are required.  A failed save is
    only logged. */
module LocationForm {
  import opened Base
  import opened Text
  import opened FormKit

  datatype Field = Name | Address | City | State | ZipCode | Phone | OperatingHours

  /** Every field starts as the empty string. */
  function InitialForm(): (f: FormData<Field>)
    ensures WellTyped(f)
  {
    map[Name := JsStr(""), Address := JsStr(""), City := JsStr(""), State := JsStr(""),
        ZipCode := JsStr(""), Phone := JsStr(""), OperatingHours := JsStr("")]
  }

  /** Every field holds a string, as the text inputs store them. */
  predicate WellTyped(f: FormData<Field>)
  {
    && HoldsText(f, Name) && HoldsText(f, Address) && HoldsText(f, City) && HoldsText(f, State)
    && HoldsText(f, ZipCode) && HoldsText(f, Phone) && HoldsText(f, OperatingHours)
  }

  /** The message validateForm records for field k, if any. */
  function FieldError(f: FormData<Field>, k: Field): Option<string>
    requires WellTyped(f)
  {
    match k
    case Name => if BlankField(f, Name) then Some("Name is required") else None
    case Address => if BlankField(f, Address) then Some("Address is required") else None
    case City => if BlankField(f, City) then Some("City is required") else None
    case State => if BlankField(f, State) then Some("State is required") else None
    case ZipCode => if BlankField(f, ZipCode) then Some("ZIP code is required") else None
    case _ => None
  }

  /** The errors validateForm records, check by check in its order. */
  function FormErrors(f: FormData<Field>): Errors<Field>
    requires WellTyped(f)
  {
    var e0: Errors<Field> := map[];
    var e1 := Flag(e0, BlankField(f, Name), Name, "Name is required");
    var e2 := Flag(e1, BlankField(f, Address), Address, "Address is required");
    var e3 := Flag(e2, BlankField(f, City), City, "City is required");
    var e4 := Flag(e3, BlankField(f, State), State, "State is required");
    Flag(e4, BlankField(f, ZipCode), ZipCode, "ZIP code is required")
  }

  /** The recorded errors are exactly the fields whose rule fails, each with
      its rule's message. */
  lemma FormErrorsByField(f: FormData<Field>, k: Field)
    requires WellTyped(f)
    ensures Lookup(FormErrors(f), k) == FieldError(f, k)
  {
  }

  /** The five required fields are filled in. */
  predicate Acceptable(f: FormData<Field>)
    requires WellTyped(f)
  {
    && !BlankField(f, Name) && !BlankField(f, Address) && !BlankField(f, City)
    && !BlankField(f, State) && !BlankField(f, ZipCode)
  }

  lemma ValidIffAcceptable(f: FormData<Field>)
    requires WellTyped(f)
    ensures FormErrors(f) == map[] <==> Acceptable(f)
  {
    var e := FormErrors(f);
    if Acceptable(f) {
      forall k ensures k !in e {
        FormErrorsByField(f, k);
      }
      assert e.Keys == {};
    } else {
      FormErrorsByField(f, Name);
      FormErrorsByField(f, Address);
      FormErrorsByField(f, City);
      FormErrorsByField(f, State);
      FormErrorsByField(f, ZipCode);
    }
  }

  /** phone and operating_hours are never validated. */
  lemma UnvalidatedFieldsIgnored(f: FormData<Field>, phone: string, hours: string)
    requires WellTyped(f)
    ensures WellTyped(f[Phone := JsStr(phone)][OperatingHours := JsStr(hours)])
    ensures FormErrors(f[Phone := JsStr(phone)][OperatingHours := JsStr(hours)]) == FormErrors(f)
  {
    var g := f[Phone := JsStr(phone)][OperatingHours := JsStr(hours)];
    assert g[Name] == f[Name] && g[Address] == f[Address] && g[City] == f[City];
    assert g[State] == f[State] && g[ZipCode] == f[ZipCode];
  }

  class Page {
    var formData: FormData<Field>
    var errors: Errors<Field>
    var loading: bool
    var navigatedTo: Option<string>
    /** The forms the page has sent to be saved, in order. */
    var sent: seq<FormData<Field>>

    predicate Valid()
      reads this
    {
      WellTyped(formData)
    }

    constructor()
      ensures Valid()
      ensures formData == InitialForm() && errors == map[] && !loading && navigatedTo.None? && sent == []
    {
      formData := InitialForm();
      errors := map[];
      loading := false;
      navigatedTo := None;
      sent := [];
    }

    /** handleInputChange: store the value under the input's name, clear that
        field's error. */
    method HandleInputChange(e: ChangeEvent<Field>)
      requires Valid()
      modifies this`formData, this`errors
      ensures Valid()
      ensures formData == old(formData)[e.name := Coerce(StoreValue, TextInput, e)]
      ensures errors == ClearError(old(errors), e.name)
    {
      formData := formData[e.name := Coerce(StoreValue, TextInput, e)];
      errors := ClearError(errors, e.name);
    }

    /** validateForm: record the errors and report whether there were none. */
    method ValidateForm() returns (ok: bool)
      requires Valid()
      modifies this`errors
      ensures errors == FormErrors(formData)
      ensures ok <==> Acceptable(formData)
    {
      var f := formData;
      var newErrors: Errors<Field> := map[];
      newErrors := Flag(newErrors, BlankField(f, Name), Name, "Name is required");
      newErrors := Flag(newErrors, BlankField(f, Address), Address, "Address is required");
      newErrors := Flag(newErrors, BlankField(f, City), City, "City is required");
      newErrors := Flag(newErrors, BlankField(f, State), State, "State is required");
      newErrors := Flag(newErrors, BlankField(f, ZipCode), ZipCode, "ZIP code is required");
      errors := newErrors;
      ValidIffAcceptable(formData);
      ok := newErrors == map[];
    }

    /** handleSubmit, with the outcome of the save call as a parameter (None
        when it succeeded).  A failure leaves the page as it was, apart from
        the errors validation recorded. */
    method HandleSubmit(outcome: Option<ApiFailure>)
      requires Valid()
      modifies this`errors, this`loading, this`navigatedTo, this`sent
      ensures Valid() && formData == old(formData) && errors == FormErrors(formData)
      ensures !Acceptable(formData) ==>
        sent == old(sent) && loading == old(loading) && navigatedTo == old(navigatedTo)
      ensures Acceptable(formData) ==> sent == old(sent) + [formData] && !loading
      ensures Acceptable(formData) && outcome.None? ==> navigatedTo == Some("/locations")
      ensures outcome.Some? ==> navigatedTo == old(navigatedTo)
    {
      var ok := ValidateForm();
      if !ok {
        return;
      }
      loading := true;
      sent := sent + [formData];
      if outcome.None? {
        navigatedTo := Some("/locations");
      }
      loading := false;
    }
  }
}
