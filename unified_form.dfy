/** The site's generic lead form (`UnifiedForm`) in its three variants: the
    modal form with a category, the contact form with a service, and the
    vacancy form with experience. Its state is the field map, the error map,
    and the loading, success and error texts; `change`, `validate` and
    `handleSubmit` update that state. The submission itself is split at its
    `await`: `Submit` validates and issues the request to `/api/submit`,
    `Settle` receives the answer. */
module UnifiedForm {
  import opened Web
  import Submit

  datatype FormType = Modal | ContactForm | Vacancy

  /** How the request to `/api/submit` ended: answered (with the HTTP status
      being OK or not, and `data.ok`), or thrown in `fetch` or `res.json()`. */
  datatype Outcome = Answered(httpOk: bool, dataOk: bool) | Threw

  /** The seven fields the form keeps. */
  const FieldKeys: set<string> := {"category", "name", "phone", "message", "service", "experience", "about"}

  const DefaultServiceOptions := ["Пассажирский трансфер", "Корпоративная аренда", "Другие услуги"]

  const NameError := "Укажите имя"
  const PhoneError := "Введите корректный телефон"
  const ExperienceError := "Укажите стаж"
  const SentText := "Заявка отправлена"
  const SendFailedText := "Ошибка отправки. Попробуйте позже"
  const NetworkErrorText := "Ошибка сети. Попробуйте позже"

  // ---------------------------------------------------------------------
  // Initial and reset state

  /** `serviceOptions[0]`; an empty option list gives undefined, written "". */
  function FirstOption(options: seq<string>): string
  {
    if |options| > 0 then options[0] else ""
  }

  /** `defaultValues.category ?? (type === 'modal' ? 'Заказать трансфер' : '')`. */
  function DefaultCategory(t: FormType, defaults: map<string, string>): (c: string)
    ensures "category" in defaults ==> c == defaults["category"]
    ensures "category" !in defaults && t == Modal ==> c == "Заказать трансфер"
    ensures "category" !in defaults && t != Modal ==> c == ""
  {
    if "category" in defaults then defaults["category"]
    else if t == Modal then "Заказать трансфер" else ""
  }

  /** `defaults[k] ?? fallback`. */
  function DefaultOr(defaults: map<string, string>, k: string, fallback: string): string
  {
    if k in defaults then defaults[k] else fallback
  }

  /** The fields as first rendered: each default value where one is given. */
  function InitialForm(t: FormType, defaults: map<string, string>, options: seq<string>): (f: map<string, string>)
    ensures f.Keys == FieldKeys
    ensures forall k :: k in FieldKeys && k in defaults ==> f[k] == defaults[k]
    ensures f["category"] == DefaultCategory(t, defaults)
    ensures "service" !in defaults ==> f["service"] == FirstOption(options)
    ensures forall k :: k in FieldKeys - {"category", "service"} && k !in defaults ==> f[k] == ""
  {
    map[
      "category" := DefaultCategory(t, defaults),
      "name" := DefaultOr(defaults, "name", ""),
      "phone" := DefaultOr(defaults, "phone", ""),
      "message" := DefaultOr(defaults, "message", ""),
      "service" := DefaultOr(defaults, "service", FirstOption(options)),
      "experience" := DefaultOr(defaults, "experience", ""),
      "about" := DefaultOr(defaults, "about", "")]
  }

  /** The fields after a successful send: only the category keeps its
      default; the service goes back to the first option even when a default
      service was given; everything else is emptied. */
  function ResetForm(t: FormType, defaults: map<string, string>, options: seq<string>): (f: map<string, string>)
    ensures f.Keys == FieldKeys
    ensures f["category"] == DefaultCategory(t, defaults)
    ensures f["service"] == FirstOption(options)
    ensures forall k :: k in FieldKeys - {"category", "service"} ==> f[k] == ""
  {
    map[
      "category" := DefaultCategory(t, defaults),
      "name" := "", "phone" := "", "message" := "",
      "service" := FirstOption(options),
      "experience" := "", "about" := ""]
  }

  // ---------------------------------------------------------------------
  // Validation

  /** A character of the class `[0-9\-\s()]`. */
  predicate PhoneChar(c: char)
  {
    ('0' <= c <= '9') || c == '-' || IsSpace(c) || c == '(' || c == ')'
  }

  predicate PhoneDigits(s: string)
  {
    |s| >= 6 && forall i :: 0 <= i < |s| ==> PhoneChar(s[i])
  }

  /** `/^\+?[0-9\-\s()]{6,}$/`: an optional plus sign, then six or more
      digits, dashes, white space characters or parentheses, and nothing else. */
  predicate PhonePattern(s: string)
  {
    PhoneDigits(s) || (|s| > 0 && s[0] == '+' && PhoneDigits(s[1..]))
  }

  /** The error map `validate` builds for the given field values. */
  function FieldErrors(t: FormType, name: string, phone: string, experience: string): (e: map<string, string>)
    ensures e.Keys <= {"name", "phone", "experience"}
    ensures "name" in e <==> Trim(name) == ""
    ensures "phone" in e <==> Trim(phone) == "" || !PhonePattern(phone)
    ensures "experience" in e <==> t == Vacancy && Trim(experience) == ""
    ensures "name" in e ==> e["name"] == NameError
    ensures "phone" in e ==> e["phone"] == PhoneError
    ensures "experience" in e ==> e["experience"] == ExperienceError
  {
    var e0: map<string, string> := map[];
    var e1 := if Trim(name) == "" then e0["name" := NameError] else e0;
    var e2 := if Trim(phone) == "" || !PhonePattern(phone) then e1["phone" := PhoneError] else e1;
    if t == Vacancy && Trim(experience) == "" then e2["experience" := ExperienceError] else e2
  }

  /** The phone is accepted exactly when it matches the pattern and holds at
      least one character that is not white space: a pattern match made only
      of spaces is still refused by the `trim` test. */
  lemma PhoneAccepted(t: FormType, name: string, phone: string, experience: string)
    ensures "phone" !in FieldErrors(t, name, phone, experience)
        <==> PhonePattern(phone) && exists i :: 0 <= i < |phone| && !IsSpace(phone[i])
  {
    TrimEmptyIffAllSpace(phone);
  }

  /** A Russian number in the usual layout matches the pattern. */
  lemma PhoneExampleAccepted()
    ensures PhonePattern("+7 (912) 345-67-89")
  {
    var d := "+7 (912) 345-67-89"[1..];
    assert d == "7 (912) 345-67-89";
    assert forall i :: 0 <= i < |d| ==> PhoneChar(d[i]);
  }

  /** Five digits are too few, and letters are not allowed. */
  lemma PhoneExamplesRefused()
    ensures !PhonePattern("12345")
    ensures !PhonePattern("+7 call me")
  {
    assert "+7 call me"[1..][2] == 'c';
  }

  // ---------------------------------------------------------------------
  // The payload

  /** `type` of the payload: the category (else 'Modal') for the modal form,
      and a fixed name for the other two. */
  function PayloadType(t: FormType, category: string): (s: string)
    ensures s != ""
    ensures t == Modal && category != "" ==> s == category
    ensures t == Modal && category == "" ==> s == "Modal"
    ensures t == ContactForm ==> s == "Contact"
    ensures t == Vacancy ==> s == "Vacancy"
  {
    match t
    case Modal => Or(category, "Modal")
    case ContactForm => "Contact"
    case Vacancy => "Vacancy"
  }

  /** `{ type, fields }` with all seven fields, whatever the variant shows. */
  function PayloadOf(t: FormType, form: map<string, string>): (p: Submit.Body)
    requires FieldKeys <= form.Keys
    ensures p.leadType == PayloadType(t, form["category"])
    ensures |p.fields| == 7
    ensures forall i :: 0 <= i < 7 ==> p.fields[i].0 in FieldKeys && p.fields[i].1 == form[p.fields[i].0]
  {
    Submit.Body(PayloadType(t, form["category"]),
      [("name", form["name"]), ("phone", form["phone"]), ("message", form["message"]),
       ("service", form["service"]), ("experience", form["experience"]), ("about", form["about"]),
       ("category", form["category"])])
  }

  /** None of the seven field names is a property every object inherits. */
  lemma PayloadKeysNotInherited(t: FormType, form: map<string, string>)
    requires FieldKeys <= form.Keys
    ensures var p := PayloadOf(t, form);
      forall i :: 0 <= i < |p.fields| ==> p.fields[i].0 !in Submit.ObjectPrototype
  {
    Submit.FieldNamesNotInherited();
  }

  /** What the CRM endpoint, as written, makes of a payload from this form:
      no field is named after an inherited property, so nothing extra is
      copied; the title names the form (it never falls back on 'Site'), the
      name and phone are the entered ones, and the comments are the message,
      else the text about the person, with the chosen service appended. */
  lemma LeadOfPayload(t: FormType, form: map<string, string>)
    requires FieldKeys <= form.Keys
    ensures var p := PayloadOf(t, form);
      var lead := Submit.LeadFor(p, Submit.CustomFieldMap, Submit.WithPrototype);
      var message := Or(form["message"], form["about"]);
      && lead.Keys == {"TITLE", "NAME", "PHONE", "COMMENTS"}
      && lead["TITLE"] == Submit.Text(Submit.TitlePrefix + PayloadType(t, form["category"]))
      && lead["NAME"] == Submit.Text(form["name"])
      && lead["PHONE"] == Submit.Values(if form["phone"] == "" then [] else [Work(form["phone"])])
      && lead["COMMENTS"] == Submit.Text(if form["service"] == "" then message
                                         else message + Submit.ServiceLine + form["service"])
  {
    var p := PayloadOf(t, form);
    assert p.fields[0] == ("name", form["name"]) && p.fields[1] == ("phone", form["phone"]);
    assert p.fields[2] == ("message", form["message"]) && p.fields[3] == ("service", form["service"]);
    assert p.fields[5] == ("about", form["about"]);
    PayloadKeysNotInherited(t, form);
    Submit.ShippedLeadAsWritten(p);
    Submit.ShippedLead(p);
  }

  // ---------------------------------------------------------------------
  // The component

  class Form {
    const formType: FormType
    const defaults: map<string, string>
    const serviceOptions: seq<string>

    var form: map<string, string>
    /** An error shown for a key; "" is a cleared error. */
    var errors: map<string, string>
    var loading: bool
    var success: Option<string>
    var errorText: Option<string>
    /** How many times `onSuccess` has been called. */
    var successCalls: nat

    ghost predicate Valid()
      reads this
    {
      FieldKeys <= form.Keys
    }

    constructor(t: FormType, defaults: map<string, string>, serviceOptions: seq<string>)
      ensures Valid()
      ensures formType == t && this.defaults == defaults && this.serviceOptions == serviceOptions
      ensures form == InitialForm(t, defaults, serviceOptions)
      ensures errors == map[] && !loading && success == None && errorText == None && successCalls == 0
    {
      formType := t;
      this.defaults := defaults;
      this.serviceOptions := serviceOptions;
      form := InitialForm(t, defaults, serviceOptions);
      errors := map[];
      loading := false;
      success := None;
      errorText := None;
      successCalls := 0;
    }

    /** `change(k, v)`: field `k` takes the value and its error is cleared;
      no other field or error changes. */
    method Change(k: string, v: string)
      requires Valid()
      modifies this
      ensures Valid()
      ensures form == old(form)[k := v] && errors == old(errors)[k := ""]
      ensures forall j :: j in old(form) && j != k ==> form[j] == old(form)[j]
      ensures forall j :: j in old(errors) && j != k ==> errors[j] == old(errors)[j]
      ensures loading == old(loading) && success == old(success) && errorText == old(errorText)
      ensures successCalls == old(successCalls)
    {
      form := form[k := v];
      errors := errors[k := ""];
    }

    /** `validate`: the error map is replaced by the one for the current
      fields, and the form is valid exactly when that map is empty. */
    method Validate() returns (ok: bool)
      requires Valid()
      modifies this
      ensures Valid()
      ensures errors == FieldErrors(formType, form["name"], form["phone"], form["experience"])
      ensures ok <==> errors == map[]
      ensures form == old(form) && loading == old(loading) && success == old(success)
      ensures errorText == old(errorText) && successCalls == old(successCalls)
    {
      var e: map<string, string> := map[];
      if Trim(form["name"]) == "" {
        e := e["name" := NameError];
      }
      if Trim(form["phone"]) == "" || !PhonePattern(form["phone"]) {
        e := e["phone" := PhoneError];
      }
      if formType == Vacancy && Trim(form["experience"]) == "" {
        e := e["experience" := ExperienceError];
      }
      errors := e;
      ok := |e| == 0;
    }

    /** `handleSubmit` up to its `await`: an invalid form only shows its
      errors; a valid one sets `loading`, clears the error text and issues
      the payload built from the current fields. */
    method Submit() returns (request: Option<Submit.Body>)
      requires Valid()
      modifies this
      ensures Valid()
      ensures errors == FieldErrors(formType, form["name"], form["phone"], form["experience"])
      ensures request.Some? <==> errors == map[]
      ensures request.Some? ==> request.value == PayloadOf(formType, old(form)) && loading && errorText == None
      ensures request.None? ==> loading == old(loading) && errorText == old(errorText)
      ensures form == old(form) && success == old(success) && successCalls == old(successCalls)
    {
      var ok := Validate();
      if !ok {
        return None;
      }
      loading := true;
      errorText := None;
      request := Some(PayloadOf(formType, form));
    }

    /** The submit button, `disabled={loading}`: pressed while a request is
      pending it does nothing; otherwise it runs `handleSubmit`. */
    method PressSubmit() returns (request: Option<Submit.Body>)
      requires Valid()
      modifies this
      ensures Valid()
      ensures old(loading) ==> request == None && loading && form == old(form) && errors == old(errors)
                               && errorText == old(errorText)
      ensures !old(loading) ==> errors == FieldErrors(formType, form["name"], form["phone"], form["experience"])
                                && (request.Some? <==> errors == map[])
      ensures request.Some? ==> request.value == PayloadOf(formType, old(form)) && loading && errorText == None
      ensures !old(loading) && request.None? ==> !loading && errorText == old(errorText)
      ensures form == old(form) && success == old(success) && successCalls == old(successCalls)
    {
      if loading {
        return None;
      }
      request := Submit();
    }

    /** The rest of `handleSubmit`, once the request has ended: on success
      the success text is set, `onSuccess` is called and the fields are
      reset; otherwise the fields are kept and an error text is set. Either
      way `loading` ends false. */
    method Settle(outcome: Outcome)
      requires Valid() && loading
      modifies this
      ensures Valid()
      ensures !loading && errors == old(errors)
      ensures outcome == Answered(true, true) ==>
                form == ResetForm(formType, defaults, serviceOptions) && success == Some(SentText)
                && errorText == old(errorText) && successCalls == old(successCalls) + 1
      ensures outcome.Answered? && !(outcome.httpOk && outcome.dataOk) ==>
                form == old(form) && success == old(success) && errorText == Some(SendFailedText)
                && successCalls == old(successCalls)
      ensures outcome == Threw ==>
                form == old(form) && success == old(success) && errorText == Some(NetworkErrorText)
                && successCalls == old(successCalls)
    {
      match outcome {
        case Threw =>
          errorText := Some(NetworkErrorText);
        case Answered(httpOk, dataOk) =>
          if !httpOk || !dataOk {
            errorText := Some(SendFailedText);
          } else {
            success := Some(SentText);
            successCalls := successCalls + 1;
            form := ResetForm(formType, defaults, serviceOptions);
          }
      }
      loading := false;
    }
  }

  /** A vacancy reply without experience is refused: nothing is sent and the
      experience error is shown. */
  method ScenarioExperienceRequired() returns (request: Option<Submit.Body>, shown: map<string, string>)
    ensures request == None && "experience" in shown && shown["experience"] == ExperienceError
  {
    var vacancy := new Form(Vacancy, map["name" := "Иван"], DefaultServiceOptions);
    assert vacancy.form["experience"] == "";
    request := vacancy.Submit();
    assert Trim("") == "";
    shown := vacancy.errors;
  }
}
