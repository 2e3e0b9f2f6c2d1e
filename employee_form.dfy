/** The employee form page: number inputs become numbers (an empty box
    becomes undefined), the active checkbox becomes its checked flag, five
    text fields and the hire date are required, the email must match the
    unanchored pattern `\S+@\S+\.\S+`, and only a duplicate-email rejection
    is shown on a field. */
module EmployeeForm {
  import opened Base
  import opened Text
  import opened FormKit
  import Api

  datatype Field = FirstName | LastName | Email | Phone | Role | HireDate
                 | Salary | LocationId | ManagerId | IsActive

  /** The element each field is edited with; manager_id has none. */
  function InputOf(k: Field): Option<InputType>
  {
    match k
    case Role => Some(SelectInput)
    case LocationId => Some(SelectInput)
    case Salary => Some(NumberInput)
    case IsActive => Some(CheckboxInput)
    case ManagerId => None
    case _ => Some(TextInput)
  }

  /** handleInputChange's coercion: an empty number box becomes undefined and
      a checkbox stores its checked flag. */
  const Policy: Coercion := ParseNumbers(JsUndefined, true)

  function InitialForm(): (f: FormData<Field>)
    ensures WellTyped(f)
  {
    map[FirstName := JsStr(""), LastName := JsStr(""), Email := JsStr(""), Phone := JsStr(""),
        Role := JsStr(""), HireDate := JsStr(""), Salary := JsUndefined, LocationId := JsUndefined,
        ManagerId := JsUndefined, IsActive := JsBool(true)]
  }

  /** The validated fields hold strings. */
  predicate WellTyped(f: FormData<Field>)
  {
    && HoldsText(f, FirstName) && HoldsText(f, LastName) && HoldsText(f, Email)
    && HoldsText(f, Phone) && HoldsText(f, Role) && HoldsText(f, HireDate)
  }

  /** The message validateForm records for field k, if any: the rule for
      each field on its own. */
  function FieldError(f: FormData<Field>, k: Field): Option<string>
    requires WellTyped(f)
  {
    match k
    case FirstName => if BlankField(f, FirstName) then Some("First name is required") else None
    case LastName => if BlankField(f, LastName) then Some("Last name is required") else None
    case Email =>
      if BlankField(f, Email) then Some("Email is required")
      else if !EmailPatternTest(f[Email].str) then Some("Email is invalid")
      else None
    case Phone => if BlankField(f, Phone) then Some("Phone is required") else None
    case Role => if BlankField(f, Role) then Some("Role is required") else None
    case HireDate => if Missing(f, HireDate) then Some("Hire date is required") else None
    case _ => None
  }

  /** The errors validateForm records, check by check in its order. */
  function FormErrors(f: FormData<Field>): Errors<Field>
    requires WellTyped(f)
  {
    var e0: Errors<Field> := map[];
    var e1 := Flag(e0, BlankField(f, FirstName), FirstName, "First name is required");
    var e2 := Flag(e1, BlankField(f, LastName), LastName, "Last name is required");
    var e3 := Flag(e2, BlankField(f, Email), Email, "Email is required");
    var e4 := Flag(e3, !BlankField(f, Email) && !EmailPatternTest(f[Email].str), Email, "Email is invalid");
    var e5 := Flag(e4, BlankField(f, Phone), Phone, "Phone is required");
    var e6 := Flag(e5, BlankField(f, Role), Role, "Role is required");
    Flag(e6, Missing(f, HireDate), HireDate, "Hire date is required")
  }

  /** The recorded errors are exactly the fields whose rule fails, each with
      its rule's message. */
  lemma FormErrorsByField(f: FormData<Field>, k: Field)
    requires WellTyped(f)
    ensures Lookup(FormErrors(f), k) == FieldError(f, k)
  {
  }

  /** Names, phone and role filled in, a valid email, and a hire date. */
  predicate Acceptable(f: FormData<Field>)
    requires WellTyped(f)
  {
    && !BlankField(f, FirstName) && !BlankField(f, LastName) && !BlankField(f, Phone)
    && !BlankField(f, Role) && !Missing(f, HireDate)
    && !BlankField(f, Email) && EmailPatternTest(f[Email].str)
  }

  lemma ValidIffAcceptable(f: FormData<Field>)
    requires WellTyped(f)
    ensures FormErrors(f) == map[] <==> Acceptable(f)
  {
    var e := FormErrors(f);
    if Acceptable(f) {
      forall k ensures k !in e {
        FormErrorsByField(f, k);
      }
      assert e.Keys == {};
    } else {
      assert FieldError(f, FirstName).Some? || FieldError(f, LastName).Some? || FieldError(f, Email).Some?
          || FieldError(f, Phone).Some? || FieldError(f, Role).Some? || FieldError(f, HireDate).Some?;
      FormErrorsByField(f, FirstName);
      FormErrorsByField(f, LastName);
      FormErrorsByField(f, Email);
      FormErrorsByField(f, Phone);
      FormErrorsByField(f, Role);
      FormErrorsByField(f, HireDate);
    }
  }

  /** The error a failed save leaves on the page. */
  function SubmitFailure(failure: ApiFailure): (eff: SubmitEffect<Field>)
    ensures failure.status == 400 && Contains(failure.message, "Email already registered")
            ==> eff == ReplaceErrors(map[Email := "Email already registered"])
    ensures !(failure.status == 400 && Contains(failure.message, "Email already registered"))
            ==> eff == ShowBanner("Failed to create employee. Please try again.")
  {
    if failure.status == 400 && Contains(failure.message, "Email already registered") then
      ReplaceErrors(map[Email := "Email already registered"])
    else
      ShowBanner("Failed to create employee. Please try again.")
  }

  /** The server's duplicate-email rejection lands on the email field. */
  lemma EmailTakenMapped()
    ensures SubmitFailure(ApiFailure(Api.EmailTaken.status, ErrorBody(Api.EmailTaken.detail)))
            == ReplaceErrors(map[Email := "Email already registered"])
  {
  }

  class Page {
    var formData: FormData<Field>
    var errors: Errors<Field>
    var submitError: Option<string>
    var loading: bool
    var navigatedTo: Option<string>
    /** The forms the page has sent to be saved, in order. */
    var sent: seq<FormData<Field>>

    predicate Valid()
      reads this
    {
      WellTyped(formData)
    }

    constructor()
      ensures Valid()
      ensures formData == InitialForm() && errors == map[]
      ensures submitError.None? && !loading && navigatedTo.None? && sent == []
    {
      formData := InitialForm();
      errors := map[];
      submitError := None;
      loading := false;
      navigatedTo := None;
      sent := [];
    }

    /** handleInputChange: store the coerced value under the input's name,
        clear that field's error. */
    method HandleInputChange(e: ChangeEvent<Field>)
      requires Valid() && InputOf(e.name).Some?
      modifies this`formData, this`errors
      ensures Valid()
      ensures formData == old(formData)[e.name := Coerce(Policy, InputOf(e.name).value, e)]
      ensures errors == ClearError(old(errors), e.name)
    {
      formData := formData[e.name := Coerce(Policy, InputOf(e.name).value, e)];
      errors := ClearError(errors, e.name);
    }

    /** validateForm: record the errors and report whether there were none. */
    method ValidateForm() returns (ok: bool)
      requires Valid()
      modifies this`errors
      ensures errors == FormErrors(formData)
      ensures ok <==> Acceptable(formData)
    {
      var f := formData;
      var newErrors: Errors<Field> := map[];
      newErrors := Flag(newErrors, BlankField(f, FirstName), FirstName, "First name is required");
      newErrors := Flag(newErrors, BlankField(f, LastName), LastName, "Last name is required");
      newErrors := Flag(newErrors, BlankField(f, Email), Email, "Email is required");
      newErrors := Flag(newErrors, !BlankField(f, Email) && !EmailPatternTest(f[Email].str), Email, "Email is invalid");
      newErrors := Flag(newErrors, BlankField(f, Phone), Phone, "Phone is required");
      newErrors := Flag(newErrors, BlankField(f, Role), Role, "Role is required");
      newErrors := Flag(newErrors, Missing(f, HireDate), HireDate, "Hire date is required");
      errors := newErrors;
      ValidIffAcceptable(formData);
      ok := newErrors == map[];
    }

    /** handleSubmit, with the outcome of the save call as a parameter (None
        when it succeeded).  An invalid form sends nothing. */
    method HandleSubmit(outcome: Option<ApiFailure>)
      requires Valid()
      modifies this`errors, this`submitError, this`loading, this`navigatedTo, this`sent
      ensures Valid() && formData == old(formData)
      ensures !Acceptable(formData) ==>
        && errors == FormErrors(formData) && sent == old(sent)
        && submitError == old(submitError) && loading == old(loading) && navigatedTo == old(navigatedTo)
      ensures Acceptable(formData) ==> sent == old(sent) + [formData] && !loading
      ensures Acceptable(formData) && outcome.None? ==>
        navigatedTo == Some("/employees") && submitError.None? && errors == map[]
      ensures Acceptable(formData) && outcome.Some? ==>
        && navigatedTo == old(navigatedTo)
        && var eff := SubmitFailure(outcome.value);
           (eff.ReplaceErrors? ==> errors == eff.errors && submitError.None?)
           && (eff.ShowBanner? ==> errors == map[] && submitError == Some(eff.message))
    {
      var ok := ValidateForm();
      if !ok {
        return;
      }
      ValidIffAcceptable(formData);
      loading := true;
      submitError := None;
      sent := sent + [formData];
      match outcome {
        case None =>
          navigatedTo := Some("/employees");
        case Some(failure) =>
          match SubmitFailure(failure) {
            case ReplaceErrors(m) => errors := m;
            case ShowBanner(msg) => submitError := Some(msg);
            case OnlyLog =>
          }
      }
      loading := false;
    }
  }
}
