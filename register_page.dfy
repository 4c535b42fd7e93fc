/** The sign-up page (health-republic-frontend/src/pages/RegisterPage.tsx):
    the form is checked in a fixed order, then members and employers are
    sent to the member endpoint and providers and insurers to the supplier
    endpoint, each with its own subset of the fields. */
module RegisterPage {
  import opened Common

  datatype Category = Member | Employer | Provider | Insurer

  /** The form. `householdSize` is `None` while the field is empty. */
  datatype Form = Form(category: Category, email: string, fullName: string, password: string, password2: string,
                       state: string, ageRange: string, industry: string, householdSize: Option<Num>)

  const EmptyForm := Form(Member, "", "", "", "", "", "", "", None)

  /** A body sent; `None` fields are left out of the JSON. */
  datatype Request =
    | RegisterUser(email: string, password: string, fullName: Option<string>, ageRange: Option<string>,
                   industry: Option<string>, householdSize: Option<Num>, state: Option<string>)
    | RegisterSupplier(email: string, password: string, fullName: Option<string>, industry: Option<string>,
                       state: Option<string>)

  datatype Call = Send(request: Request) | Redirect(path: string)

  const EmailRequired := "Email is required."
  const PasswordRequired := "Password is required."
  const PasswordMismatch := "Passwords do not match."

  /** `validate`: the first failing check, in order blank email, blank
      password, different confirmation; `None` when the form passes. */
  function Validate(form: Form): (r: Option<string>)
    ensures r.None? <==> !AllSpace(form.email) && !AllSpace(form.password) && form.password == form.password2
    ensures AllSpace(form.email) ==> r == Some(EmailRequired)
    ensures !AllSpace(form.email) && AllSpace(form.password) ==> r == Some(PasswordRequired)
    ensures !AllSpace(form.email) && !AllSpace(form.password) && form.password != form.password2 ==>
              r == Some(PasswordMismatch)
  {
    if Trim(form.email) == "" then Some(EmailRequired)
    else if Trim(form.password) == "" then Some(PasswordRequired)
    else if form.password != form.password2 then Some(PasswordMismatch)
    else None
  }

  predicate IsSupplierCategory(c: Category) {
    c == Provider || c == Insurer
  }

  /** The request for a valid form: the supplier endpoint gets only email,
      password, name, industry and state; the member endpoint also gets age
      range and household size. Empty strings are left out. */
  function RequestOf(form: Form): (r: Request)
    ensures r.RegisterSupplier? <==> IsSupplierCategory(form.category)
    ensures r.email == form.email && r.password == form.password
    ensures r.fullName == NonEmpty(form.fullName) && r.industry == NonEmpty(form.industry)
    ensures r.state == NonEmpty(form.state)
    ensures r.RegisterUser? ==> r.ageRange == NonEmpty(form.ageRange) && r.householdSize == form.householdSize
  {
    if IsSupplierCategory(form.category) then
      RegisterSupplier(form.email, form.password, NonEmpty(form.fullName), NonEmpty(form.industry),
                       NonEmpty(form.state))
    else
      RegisterUser(form.email, form.password, NonEmpty(form.fullName), NonEmpty(form.ageRange),
                   NonEmpty(form.industry), form.householdSize, NonEmpty(form.state))
  }

  /** The supplier endpoint never sees the member-only fields: two forms
      that differ only in age range and household size send the same
      supplier request. */
  lemma SupplierIgnoresMemberFields(form: Form, ageRange: string, householdSize: Option<Num>)
    requires IsSupplierCategory(form.category)
    ensures RequestOf(form.(ageRange := ageRange, householdSize := householdSize)) == RequestOf(form)
  {
  }

  class Page {
    var form: Form
    var formError: Option<string>
    var submitting: bool
    var calls: seq<Call>

    constructor ()
      ensures form == EmptyForm && formError.None? && !submitting && calls == []
    {
      form := EmptyForm;
      formError := None;
      submitting := false;
      calls := [];
    }

    /** The state field's change handler: what is typed is kept
        upper-cased. */
    method SetState(v: string)
      modifies this
      ensures form == old(form).(state := ToUpper(v))
      ensures formError == old(formError) && submitting == old(submitting) && calls == old(calls)
    {
      form := form.(state := ToUpper(v));
    }

    /** The household-size change handler: an emptied field is empty again,
        anything else is converted with `Number`. */
    method SetHouseholdSize(v: string, parse: string -> Option<real>)
      modifies this
      ensures form == old(form).(householdSize := if v == "" then None else Some(JsNumber(v, parse)))
      ensures formError == old(formError) && submitting == old(submitting) && calls == old(calls)
    {
      form := form.(householdSize := if v == "" then None else Some(JsNumber(v, parse)));
    }

    /** `handleSubmit`, `result` being the endpoint's answer: an invalid
        form shows the first failure and sends nothing; a valid one is sent
        and success goes to /login. */
    method HandleSubmit(result: Outcome<()>)
      modifies this
      ensures form == old(form)
      ensures Validate(form).Some? ==>
                formError == Validate(form) && calls == old(calls) && submitting == old(submitting)
      ensures Validate(form).None? ==> !submitting
      ensures Validate(form).None? && result.Success? ==>
                formError.None? && calls == old(calls) + [Send(RequestOf(form)), Redirect("/login")]
      ensures Validate(form).None? && result.Failure? ==>
                && formError == Some(MessageOr(result.message, "Registration failed."))
                && calls == old(calls) + [Send(RequestOf(form))]
    {
      formError := None;
      var error := Validate(form);
      if error.Some? {
        formError := error;
        return;
      }
      submitting := true;
      calls := calls + [Send(RequestOf(form))];
      match result {
        case Success(_) =>
          calls := calls + [Redirect("/login")];
        case Failure(message) =>
          formError := Some(MessageOr(message, "Registration failed."));
      }
      submitting := false;
    }
  }
}
