/** The supplier sign-up page (health-republic-frontend/src/pages/SupplierRegisterPage.tsx):
    an ordered chain of checks, then a request to the supplier endpoint
    whose `industry` field carries the chosen supplier type. */
module SupplierRegister {
  import opened Common

  datatype Form = Form(email: string, fullName: string, password: string, password2: string, companyName: string,
                       supplierType: string, industry: string)

  /** The body sent; `None` fields are left out of the JSON. */
  datatype Request = Request(email: string, password: string, fullName: Option<string>, industry: Option<string>,
                             state: Option<string>, ageRange: Option<string>, householdSize: Option<int>)

  datatype Call = Send(request: Request) | Redirect(path: string)

  const DefaultSupplierType := "insurance_supplier"

  /** The `/\S+@\S+\.\S+/` test, which looks for the pattern anywhere in the
      string: a non-space character, an "@", a run of non-space characters,
      a ".", and a non-space character. */
  predicate LooksLikeEmail(s: string) {
    exists a, d | 0 <= a < |s| && 0 <= d < |s| :: EmailAt(s, a, d)
  }

  /** The pattern matches with its "@" at `a` and its "." at `d`. */
  predicate EmailAt(s: string, a: int, d: int) {
    && 0 < a && a + 1 < d && d + 1 < |s| && s[a] == '@' && s[d] == '.' && !IsSpace(s[a - 1])
    && !IsSpace(s[d + 1]) && NoSpaceBetween(s, a + 1, d)
  }

  predicate NoSpaceBetween(s: string, lo: int, hi: int)
    requires 0 <= lo <= hi <= |s|
  {
    forall k :: lo <= k < hi ==> !IsSpace(s[k])
  }

  /** `validateForm`: the first failing check, or `None`. */
  function ValidateForm(form: Form): (r: Option<string>)
    ensures r.None? <==>
              && !AllSpace(form.email) && LooksLikeEmail(form.email) && |form.password| >= 8
              && form.password == form.password2 && form.companyName != ""
    ensures AllSpace(form.email) ==> r == Some("Email is required")
    ensures !AllSpace(form.email) && !LooksLikeEmail(form.email) ==> r == Some("Enter a valid email address")
    ensures !AllSpace(form.email) && LooksLikeEmail(form.email) && form.password == "" ==>
              r == Some("Password is required")
    ensures !AllSpace(form.email) && LooksLikeEmail(form.email) && 0 < |form.password| < 8 ==>
              r == Some("Password must be at least 8 characters long")
    ensures (!AllSpace(form.email) && LooksLikeEmail(form.email) && |form.password| >= 8
             && form.password != form.password2) ==> r == Some("Passwords do not match")
    ensures (!AllSpace(form.email) && LooksLikeEmail(form.email) && |form.password| >= 8
             && form.password == form.password2 && form.companyName == "") ==> r == Some("Company name is required")
  {
    if Trim(form.email) == "" then Some("Email is required")
    else if !LooksLikeEmail(form.email) then Some("Enter a valid email address")
    else if form.password == "" then Some("Password is required")
    else if |form.password| < 8 then Some("Password must be at least 8 characters long")
    else if form.password != form.password2 then Some("Passwords do not match")
    else if form.companyName == "" then Some("Company name is required")
    else None
  }

  /** An address with no "@" is refused, and a plain "a@b.c" passes the
      pattern. */
  lemma EmailPattern(s: string)
    ensures '@' !in s ==> !LooksLikeEmail(s)
    ensures LooksLikeEmail("a@b.c")
  {
    assert EmailAt("a@b.c", 1, 3);
  }

  /** The body: the supplier type goes in `industry`; the company name and
      the industry field are never sent. */
  function RequestOf(form: Form): (r: Request)
    ensures r.email == form.email && r.password == form.password && r.fullName == NonEmpty(form.fullName)
    ensures r.industry == Some(form.supplierType)
    ensures r.state.None? && r.ageRange.None? && r.householdSize.None?
  {
    Request(form.email, form.password, NonEmpty(form.fullName), Some(form.supplierType), None, None, None)
  }

  /** The company name is checked but plays no part in the request. */
  lemma CompanyNameNotSent(form: Form, companyName: string, industry: string)
    ensures RequestOf(form.(companyName := companyName, industry := industry)) == RequestOf(form)
  {
  }

  class Page {
    var form: Form
    var error: Option<string>
    var submitting: bool
    var calls: seq<Call>

    constructor ()
      ensures form == Form("", "", "", "", "", DefaultSupplierType, "")
      ensures error.None? && !submitting && calls == []
    {
      form := Form("", "", "", "", "", DefaultSupplierType, "");
      error := None;
      submitting := false;
      calls := [];
    }

    /** `handleSubmit`, `result` being the endpoint's answer: an invalid
        form shows the first failure and sends nothing; a valid one is sent
        and success goes to /login. */
    method HandleSubmit(result: Outcome<()>)
      modifies this
      ensures form == old(form)
      ensures ValidateForm(form).Some? ==>
                error == ValidateForm(form) && calls == old(calls) && submitting == old(submitting)
      ensures ValidateForm(form).None? ==> !submitting
      ensures ValidateForm(form).None? && result.Success? ==>
                error.None? && calls == old(calls) + [Send(RequestOf(form)), Redirect("/login")]
      ensures ValidateForm(form).None? && result.Failure? ==>
                && error == Some(MessageOr(result.message, "Supplier registration failed"))
                && calls == old(calls) + [Send(RequestOf(form))]
    {
      error := None;
      var message := ValidateForm(form);
      if message.Some? {
        error := message;
        return;
      }
      submitting := true;
      calls := calls + [Send(RequestOf(form))];
      match result {
        case Success(_) =>
          calls := calls + [Redirect("/login")];
        case Failure(m) =>
          error := Some(MessageOr(m, "Supplier registration failed"));
      }
      submitting := false;
    }
  }
}
