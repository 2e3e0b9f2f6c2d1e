/** The customer form page (create and edit): every field is a text input
    stored as typed, five fields are required, the email must match the
    unanchored pattern `\S+@\S+\.\S+`, and a failed save is mapped to a
    field error or a banner from the status and text of the server's reply. */
module CustomerForm {
  import opened Base
  import opened Text
  import opened FormKit
  import Api

  datatype Field = FirstName | LastName | Email | Phone | Address | DriverLicense | DateOfBirth

  /** Every field starts as the empty string. */
  function InitialForm(): (f: FormData<Field>)
    ensures WellTyped(f)
  {
    map[FirstName := JsStr(""), LastName := JsStr(""), Email := JsStr(""), Phone := JsStr(""),
        Address := JsStr(""), DriverLicense := JsStr(""), DateOfBirth := JsStr("")]
  }

  /** Every field holds a string, as the text inputs store them. */
  predicate WellTyped(f: FormData<Field>)
  {
    && HoldsText(f, FirstName) && HoldsText(f, LastName) && HoldsText(f, Email)
    && HoldsText(f, Phone) && HoldsText(f, Address) && HoldsText(f, DriverLicense)
    && HoldsText(f, DateOfBirth)
  }

  /** The message validateForm records for field k, if any: the rule for
      each field on its own. */
  function FieldError(f: FormData<Field>, k: Field): Option<string>
    requires WellTyped(f)
  {
    match k
    case FirstName => if BlankField(f, FirstName) then Some("First name is required") else None
    case LastName => if BlankField(f, LastName) then Some("Last name is required") else None
    case Email =>
      if BlankField(f, Email) then Some("Email is required")
      else if !EmailPatternTest(f[Email].str) then Some("Email is invalid")
      else None
    case Phone => if BlankField(f, Phone) then Some("Phone is required") else None
    case DriverLicense => if BlankField(f, DriverLicense) then Some("Driver license is required") else None
    case _ => None
  }

  /** The errors validateForm records, check by check in its order. */
  function FormErrors(f: FormData<Field>): Errors<Field>
    requires WellTyped(f)
  {
    var e0: Errors<Field> := map[];
    var e1 := Flag(e0, BlankField(f, FirstName), FirstName, "First name is required");
    var e2 := Flag(e1, BlankField(f, LastName), LastName, "Last name is required");
    var e3 := Flag(e2, BlankField(f, Email), Email, "Email is required");
    var e4 := Flag(e3, !BlankField(f, Email) && !EmailPatternTest(f[Email].str), Email, "Email is invalid");
    var e5 := Flag(e4, BlankField(f, Phone), Phone, "Phone is required");
    Flag(e5, BlankField(f, DriverLicense), DriverLicense, "Driver license is required")
  }

  /** The recorded errors are exactly the fields whose rule fails, each with
      its rule's message. */
  lemma FormErrorsByField(f: FormData<Field>, k: Field)
    requires WellTyped(f)
    ensures Lookup(FormErrors(f), k) == FieldError(f, k)
  {
  }

  /** The form is valid exactly when the four required fields and the email
      are filled in and the email matches the pattern. */
  predicate Acceptable(f: FormData<Field>)
    requires WellTyped(f)
  {
    && !BlankField(f, FirstName) && !BlankField(f, LastName) && !BlankField(f, Phone)
    && !BlankField(f, DriverLicense) && !BlankField(f, Email) && EmailPatternTest(f[Email].str)
  }

  lemma ValidIffAcceptable(f: FormData<Field>)
    requires WellTyped(f)
    ensures FormErrors(f) == map[] <==> Acceptable(f)
  {
    var e := FormErrors(f);
    if Acceptable(f) {
      forall k ensures k !in e {
        FormErrorsByField(f, k);
      }
      assert e.Keys == {};
    } else {
      FormErrorsByField(f, FirstName);
      FormErrorsByField(f, LastName);
      FormErrorsByField(f, Email);
      FormErrorsByField(f, Phone);
      FormErrorsByField(f, DriverLicense);
    }
  }

  /** address and date_of_birth are never validated: whatever they hold, the
      recorded errors are the same. */
  lemma UnvalidatedFieldsIgnored(f: FormData<Field>, address: string, birth: string)
    requires WellTyped(f)
    ensures WellTyped(f[Address := JsStr(address)][DateOfBirth := JsStr(birth)])
    ensures FormErrors(f[Address := JsStr(address)][DateOfBirth := JsStr(birth)]) == FormErrors(f)
  {
    var g := f[Address := JsStr(address)][DateOfBirth := JsStr(birth)];
    assert g[FirstName] == f[FirstName] && g[LastName] == f[LastName] && g[Email] == f[Email];
    assert g[Phone] == f[Phone] && g[DriverLicense] == f[DriverLicense];
  }

  /** The error a failed save leaves on the page. */
  function SubmitFailure(failure: ApiFailure): (eff: SubmitEffect<Field>)
    ensures failure.status != 400 ==> eff == ShowBanner("Failed to save customer. Please try again.")
    ensures failure.status == 400 && Contains(failure.message, "Email already registered")
            ==> eff == ReplaceErrors(map[Email := "Email already registered"])
    ensures failure.status == 400 && !Contains(failure.message, "Email already registered")
            && Contains(failure.message, "Driver license already registered")
            ==> eff == ReplaceErrors(map[DriverLicense := "Driver license already registered"])
    ensures failure.status == 400 && !Contains(failure.message, "Email already registered")
            && !Contains(failure.message, "Driver license already registered")
            ==> eff == ShowBanner("Validation error. Please check your input.")
  {
    if failure.status == 400 then
      if Contains(failure.message, "Email already registered") then
        ReplaceErrors(map[Email := "Email already registered"])
      else if Contains(failure.message, "Driver license already registered") then
        ReplaceErrors(map[DriverLicense := "Driver license already registered"])
      else
        ShowBanner("Validation error. Please check your input.")
    else
      ShowBanner("Failed to save customer. Please try again.")
  }

  /** The server's duplicate-email rejection lands on the email field. */
  lemma EmailTakenMapped()
    ensures SubmitFailure(ApiFailure(Api.EmailTaken.status, ErrorBody(Api.EmailTaken.detail)))
            == ReplaceErrors(map[Email := "Email already registered"])
  {
  }

  /** The server's duplicate-licence rejection lands on the licence field:
      its body does not also mention the email. */
  lemma LicenseTakenMapped()
    ensures SubmitFailure(ApiFailure(Api.LicenseTaken.status, ErrorBody(Api.LicenseTaken.detail)))
            == ReplaceErrors(map[DriverLicense := "Driver license already registered"])
  {
    var licence := ErrorBody(Api.LicenseTaken.detail);
    ErrorBodyChars(Api.LicenseTaken.detail, 'E');
    MissingCharRulesOut(licence, "Email already registered", 0);
  }

  /** A schema rejection (422) shows the save banner, not the validation one. */
  lemma UnprocessableMapped(body: string)
    ensures SubmitFailure(ApiFailure(Api.Unprocessable.status, body))
            == ShowBanner("Failed to save customer. Please try again.")
  {
  }

  /** What the save call was asked to do: create, or update the customer
      with the id in the route. */
  datatype Request = Request(customerId: Option<int>, form: FormData<Field>)

  class Page {
    /** The id in the route when the page edits an existing customer. */
    const editing: Option<int>
    var formData: FormData<Field>
    var errors: Errors<Field>
    var submitError: Option<string>
    var loading: bool
    var navigatedTo: Option<string>
    /** The save requests the page has sent, in order. */
    var sent: seq<Request>

    predicate Valid()
      reads this
    {
      WellTyped(formData)
    }

    constructor(editing: Option<int>)
      ensures Valid()
      ensures this.editing == editing && formData == InitialForm() && errors == map[]
      ensures submitError.None? && !loading && navigatedTo.None? && sent == []
    {
      this.editing := editing;
      formData := InitialForm();
      errors := map[];
      submitError := None;
      loading := false;
      navigatedTo := None;
      sent := [];
    }

    /** handleInputChange: store the value under the input's name, clear that
        field's error. */
    method HandleInputChange(e: ChangeEvent<Field>)
      requires Valid()
      modifies this`formData, this`errors
      ensures Valid()
      ensures formData == old(formData)[e.name := Coerce(StoreValue, TextInput, e)]
      ensures errors == ClearError(old(errors), e.name)
    {
      formData := formData[e.name := Coerce(StoreValue, TextInput, e)];
      errors := ClearError(errors, e.name);
    }

    /** validateForm: record the errors and report whether there were none. */
    method ValidateForm() returns (ok: bool)
      requires Valid()
      modifies this`errors
      ensures errors == FormErrors(formData)
      ensures ok <==> Acceptable(formData)
    {
      var f := formData;
      var newErrors: Errors<Field> := map[];
      newErrors := Flag(newErrors, BlankField(f, FirstName), FirstName, "First name is required");
      newErrors := Flag(newErrors, BlankField(f, LastName), LastName, "Last name is required");
      newErrors := Flag(newErrors, BlankField(f, Email), Email, "Email is required");
      newErrors := Flag(newErrors, !BlankField(f, Email) && !EmailPatternTest(f[Email].str), Email, "Email is invalid");
      newErrors := Flag(newErrors, BlankField(f, Phone), Phone, "Phone is required");
      newErrors := Flag(newErrors, BlankField(f, DriverLicense), DriverLicense, "Driver license is required");
      errors := newErrors;
      ValidIffAcceptable(formData);
      ok := newErrors == map[];
    }

    /** handleSubmit, with the outcome of the save call as a parameter (None
        when it succeeded).  An invalid form sends nothing. */
    method HandleSubmit(outcome: Option<ApiFailure>)
      requires Valid()
      modifies this`errors, this`submitError, this`loading, this`navigatedTo, this`sent
      ensures Valid() && formData == old(formData)
      ensures !Acceptable(formData) ==>
        && errors == FormErrors(formData) && sent == old(sent)
        && submitError == old(submitError) && loading == old(loading) && navigatedTo == old(navigatedTo)
      ensures Acceptable(formData) ==> sent == old(sent) + [Request(editing, formData)] && !loading
      ensures Acceptable(formData) && outcome.None? ==>
        navigatedTo == Some("/customers") && submitError.None? && errors == map[]
      ensures Acceptable(formData) && outcome.Some? ==>
        && navigatedTo == old(navigatedTo)
        && var eff := SubmitFailure(outcome.value);
           (eff.ReplaceErrors? ==> errors == eff.errors && submitError.None?)
           && (eff.ShowBanner? ==> errors == map[] && submitError == Some(eff.message))
    {
      var ok := ValidateForm();
      if !ok {
        return;
      }
      ValidIffAcceptable(formData);
      loading := true;
      submitError := None;
      sent := sent + [Request(editing, formData)];
      match outcome {
        case None =>
          navigatedTo := Some("/customers");
        case Some(failure) =>
          match SubmitFailure(failure) {
            case ReplaceErrors(m) => errors := m;
            case ShowBanner(msg) => submitError := Some(msg);
            case OnlyLog =>
          }
      }
      loading := false;
    }
  }
}
