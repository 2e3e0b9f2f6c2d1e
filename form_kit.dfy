/** What the form pages share: the JavaScript values a form field can hold,
    the coercion each page's handleInputChange applies to an input's value,
    the "clear this field's error" step, the id read from a query string,
    the date comparison of the validators, and the shape of a failed API
    call as the pages see it.

    A page's form state is a map from its field names to JavaScript values.
    The values are dynamically typed on purpose: a select element reports
    its value as a string even where the initial state held a number, and
    the validators compare with `===`. */
module FormKit {
  import opened Base
  import opened Text

  /** A JavaScript value as a form field holds it.  NaN is not modelled:
      number inputs only ever report '' or a valid number. */
  datatype JsValue = JsStr(str: string) | JsNum(num: real) | JsBool(flag: bool) | JsUndefined

  type FormData<F> = map<F, JsValue>

  /** Field errors by field name; an entry set to '' is the cleared state. */
  type Errors<F> = map<F, string>

  /** `formData[name]`: a field that was never set reads as undefined. */
  function Get<F>(f: FormData<F>, name: F): JsValue
  {
    if name in f then f[name] else JsUndefined
  }

  /** JavaScript truthiness. */
  predicate Truthy(v: JsValue)
  {
    match v
    case JsStr(s) => s != ""
    case JsNum(n) => n != 0.0
    case JsBool(b) => b
    case JsUndefined => false
  }

  /** `!formData[name]`: the date inputs' "required" test. */
  predicate Missing<F>(f: FormData<F>, name: F)
  {
    !Truthy(Get(f, name))
  }

  /** The field currently holds a string: what a text, date, textarea or
      select input always stores. */
  predicate HoldsText<F>(f: FormData<F>, name: F)
  {
    name in f && f[name].JsStr?
  }

  /** The field currently holds a number. */
  predicate HoldsNumber<F>(f: FormData<F>, name: F)
  {
    name in f && f[name].JsNum?
  }

  /** `!formData[name].trim()`. */
  predicate BlankField<F>(f: FormData<F>, name: F)
    requires HoldsText(f, name)
  {
    IsBlank(f[name].str)
  }

  /** `value || 0` on a numeric field. */
  function OrZero(v: JsValue): (r: real)
    ensures Truthy(v) && v.JsNum? ==> r == v.num
    ensures !v.JsNum? || !Truthy(v) ==> r == 0.0
  {
    if v.JsNum? then v.num else 0.0
  }

  /** A Numeric(10,2) amount in cents as the client receives it. */
  function CentsToNumber(cents: int): real
  {
    cents as real / 100.0
  }

  // ---------------------------------------------------------------------
  // Input events

  /** The `type` of the element an event comes from.  TextInput stands for
      text, email, tel, date, datetime-local and textarea elements, which
      all report a plain string; SelectInput for a select element, whose
      type is 'select-one'. */
  datatype InputType = TextInput | NumberInput | CheckboxInput | SelectInput

  /** A change event: the element's name, its value as a string, what
      parseFloat makes of that value, and its checked flag. */
  datatype ChangeEvent<F> = ChangeEvent(name: F, value: string, parsed: real, checked: bool)

  /** What a page's handleInputChange does with the element's type:
      StoreValue stores every value as the string it is; ParseNumbers turns a
      number input's value into a number (an empty box becoming emptyNumber)
      and, when readsChecked holds, a checkbox into its checked flag. */
  datatype Coercion = StoreValue | ParseNumbers(emptyNumber: JsValue, readsChecked: bool)

  /** The value the handler stores for an event on an element of type t. */
  function Coerce<F>(c: Coercion, t: InputType, e: ChangeEvent<F>): (v: JsValue)
    ensures t == TextInput || t == SelectInput || c.StoreValue? ==> v == JsStr(e.value)
    ensures c.ParseNumbers? && t == NumberInput && e.value == "" ==> v == c.emptyNumber
    ensures c.ParseNumbers? && t == NumberInput && e.value != "" ==> v == JsNum(e.parsed)
  {
    match c
    case StoreValue => JsStr(e.value)
    case ParseNumbers(emptyNumber, readsChecked) =>
      match t
      case NumberInput => if e.value == "" then emptyNumber else JsNum(e.parsed)
      case CheckboxInput => if readsChecked then JsBool(e.checked) else JsStr(e.value)
      case _ => JsStr(e.value)
  }

  /** A text or select input keeps its field a string, under every policy. */
  lemma CoerceKeepsText<F>(c: Coercion, t: InputType, e: ChangeEvent<F>)
    requires t == TextInput || t == SelectInput
    ensures Coerce(c, t, e).JsStr?
  {
  }

  /** A number input keeps its field a number when an empty box becomes 0. */
  lemma CoerceKeepsNumber<F>(t: InputType, e: ChangeEvent<F>)
    requires t == NumberInput
    ensures Coerce(ParseNumbers(JsNum(0.0), false), t, e).JsNum?
  {
  }

  /** A page that reads checked flags stores a checkbox as a boolean, one
      that does not stores the element's value string. */
  lemma CoerceCheckbox<F>(c: Coercion, e: ChangeEvent<F>)
    requires c.ParseNumbers?
    ensures c.readsChecked ==> Coerce(c, CheckboxInput, e) == JsBool(e.checked)
    ensures !c.readsChecked ==> Coerce(c, CheckboxInput, e) == JsStr(e.value)
  {
  }

  /** `if (errors[name]) setErrors({...prev, [name]: ''})`: the edited
      field's error ends up cleared, every other entry is untouched, and no
      entry appears or disappears. */
  function ClearError<F>(errors: Errors<F>, name: F): (r: Errors<F>)
    ensures r.Keys == errors.Keys
    ensures name in errors ==> r[name] == ""
    ensures forall k | k in errors && k != name :: r[k] == errors[k]
  {
    if name in errors && errors[name] != "" then errors[name := ""] else errors
  }

  /** The error recorded for field k, if any. */
  function Lookup<F>(e: Errors<F>, k: F): Option<string>
  {
    if k in e then Some(e[k]) else None
  }

  /** `if (fails) newErrors[k] = msg`: one step of a validator. */
  function Flag<F(!new)>(e: Errors<F>, fails: bool, k: F, msg: string): (r: Errors<F>)
    ensures forall j :: Lookup(r, j) == if j == k && fails then Some(msg) else Lookup(e, j)
  {
    if fails then e[k := msg] else e
  }

  /** An error that is already cleared is not written again. */
  lemma ClearErrorIdempotent<F>(errors: Errors<F>, name: F)
    ensures ClearError(ClearError(errors, name), name) == ClearError(errors, name)
  {
  }

  /** `parseInt(searchParams.get(key) || '0') || 0`: the id passed in the
      query string, or 0 when it is absent, empty or not a number. */
  function InitialIdFromQuery(q: Option<string>): (id: int)
    ensures q.None? ==> id == 0
    ensures q.Some? && ParseInt(q.value).None? ==> id == 0
    ensures q.Some? && ParseInt(q.value).Some? ==> id == ParseInt(q.value).value
  {
    // An absent or empty parameter falls back to '0', which parses as 0.
    if q.None? || q.value == "" then 0
    else
      match ParseInt(q.value)
      case None => 0
      case Some(v) => v
  }

  /** A link that carries an id written out in decimal preselects that id. */
  lemma InitialIdRoundTrip(n: nat)
    ensures InitialIdFromQuery(Some(DecimalString(n))) == n
  {
    ParseIntOfDecimal(n);
  }

  // ---------------------------------------------------------------------
  // "Please select ..." checks

  /** `formData[name] === 0`, the test the select validators apply. */
  predicate StrictZero(v: JsValue)
  {
    v == JsNum(0.0)
  }

  /** No option chosen: the field still holds its initial 0, or the
      placeholder option, whose value is the string "0", was chosen. */
  predicate IsUnselected(v: JsValue)
  {
    v == JsNum(0.0) || v == JsStr("0")
  }

  /** Which "nothing selected" test a validator applies: the pages' own
      `=== 0` (AsWritten), or the test that also catches the placeholder
      string (Corrected). */
  datatype SelectCheck = AsWritten | Corrected

  predicate Unselected(check: SelectCheck, v: JsValue)
  {
    match check
    case AsWritten => StrictZero(v)
    case Corrected => IsUnselected(v)
  }

  /** The two tests disagree on the placeholder string and on nothing else. */
  lemma ChecksDisagreeOnlyOnPlaceholder(v: JsValue)
    ensures Unselected(AsWritten, v) != Unselected(Corrected, v) <==> v == JsStr("0")
  {
  }

  /** Choosing the placeholder option stores the string "0", which `=== 0`
      does not catch. */
  lemma PlaceholderEscapesStrictZero<F>(c: Coercion, name: F)
    ensures var v := Coerce(c, SelectInput, ChangeEvent(name, "0", 0.0, false));
            !StrictZero(v) && IsUnselected(v)
  {
  }

  /** The intended check catches the placeholder, whatever parseFloat or the
      checked flag report, and agrees with `=== 0` on numbers. */
  lemma IsUnselectedCatchesPlaceholder<F>(c: Coercion, e: ChangeEvent<F>, n: real)
    requires e.value == "0"
    ensures IsUnselected(Coerce(c, SelectInput, e))
    ensures IsUnselected(JsNum(n)) <==> StrictZero(JsNum(n))
  {
  }

  /** Once a real option is chosen, its value is an id written in decimal,
      and that counts as selected exactly when the id is nonzero. */
  lemma ChosenOptionIsSelected(id: nat)
    ensures IsUnselected(JsStr(DecimalString(id))) <==> id == 0
  {
    var s := DecimalString(id);
    if id >= 10 {
      assert |s| >= 2 by { assert s == DecimalString(id / 10) + [('0' as int + id % 10) as char]; }
    } else if id > 0 {
      assert s[0] != '0';
    }
  }

  // ---------------------------------------------------------------------
  // Dates

  /** `new Date(end) <= new Date(start)` on two strings.  `parse` stands for
      Date parsing, giving the instant in milliseconds or None for an
      Invalid Date; a comparison with an Invalid Date is false. */
  predicate EndNotAfterStart(parse: string -> Option<int>, start: string, end: string)
  {
    parse(start).Some? && parse(end).Some? && parse(end).value <= parse(start).value
  }

  // ---------------------------------------------------------------------
  // API failures

  /** A failed request as the API client reports it: the HTTP status and,
      as the message, the response body text. */
  datatype ApiFailure = ApiFailure(status: int, message: string)

  /** The body FastAPI sends for an HTTPException: `{"detail":"..."}`. */
  function ErrorBody(detail: string): (body: string)
    ensures Contains(body, detail)
  {
    var prefix := "{\"detail\":\"";
    var body := prefix + detail + "\"}";
    assert body[|prefix|..|prefix| + |detail|] == detail;
    ContainsSlice(body, |prefix|, |prefix| + |detail|);
    body
  }

  /** The characters of an error body are those of its detail and of the
      JSON around it. */
  lemma ErrorBodyChars(detail: string, c: char)
    requires forall i | 0 <= i < |detail| :: detail[i] != c
    requires c !in {'{', '"', 'd', 'e', 't', 'a', 'i', 'l', ':', '}'}
    ensures c !in ErrorBody(detail)
  {
    var prefix := "{\"detail\":\"";
    var body := ErrorBody(detail);
    assert body == prefix + detail + "\"}";
    forall i | 0 <= i < |body| ensures body[i] != c {
      if i < |prefix| {
        assert body[i] == prefix[i];
      } else if i < |prefix| + |detail| {
        assert body[i] == detail[i - |prefix|];
      } else {
        assert body[i] == "\"}"[i - |prefix| - |detail|];
      }
    }
  }

  /** What a page does with a failed submit. */
  datatype SubmitEffect<F> = ReplaceErrors(errors: Errors<F>) | ShowBanner(message: string) | OnlyLog

  /** A string lacks t when some character of t does not occur in it. */
  lemma MissingCharRulesOut(s: string, t: string, k: int)
    requires 0 <= k < |t|
    requires t[k] !in s
    ensures !Contains(s, t)
  {
    forall i | 0 <= i <= |s|
      ensures !OccursAt(s, t, i)
    {
      if i <= |s| - |t| {
        assert s[i..i + |t|][k] == s[i + k];
      }
    }
  }
}
