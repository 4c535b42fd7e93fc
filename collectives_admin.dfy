/** The older collective form (health-republic-frontend/src/pages/CollectivesAdmin.tsx):
    a create-only form whose new collective goes to the front of the list. */
module CollectivesAdmin {
  import opened Common
  import opened ApiClient

  /** The body sent: the trimmed name; category and description as typed,
      left out when empty. */
  datatype Payload = Payload(name: string, category: Option<string>, description: Option<string>)

  datatype Form = Form(name: string, category: string, description: string)

  const EmptyForm := Form("", "", "")

  function PayloadOf(form: Form): (p: Payload)
    ensures p.name == Trim(form.name)
    ensures p.category == NonEmpty(form.category) && p.description == NonEmpty(form.description)
  {
    Payload(Trim(form.name), NonEmpty(form.category), NonEmpty(form.description))
  }

  /** Unlike the name, the category is sent untrimmed: a blank category is
      sent as typed. */
  lemma BlankCategorySent(form: Form)
    requires form.category == " "
    ensures PayloadOf(form).category == Some(" ")
  {
  }

  class Page {
    var collectives: seq<CollectiveSummary>
    var form: Form
    var creating: bool
    var createError: Option<string>
    /** The bodies sent, with the token, in order. */
    var sent: seq<(string, Payload)>

    constructor ()
      ensures collectives == [] && form == EmptyForm && !creating && createError.None? && sent == []
    {
      collectives := [];
      form := EmptyForm;
      creating := false;
      createError := None;
      sent := [];
    }

    /** `handleCreate`, `created` being the server's answer: a blank name
        is refused and nothing is sent; success prepends the collective and
        clears the form; failure keeps list and form and shows the
        message. */
    method HandleCreate(accessToken: Option<string>, created: Outcome<CollectiveSummary>)
      modifies this
      ensures !Truthy(accessToken) ==>
                collectives == old(collectives) && form == old(form) && createError == old(createError)
                && sent == old(sent) && creating == old(creating)
      ensures Truthy(accessToken) && AllSpace(old(form).name) ==>
                collectives == old(collectives) && form == old(form) && createError == Some("Name is required")
                && sent == old(sent) && creating == old(creating)
      ensures Truthy(accessToken) && !AllSpace(old(form).name) ==>
                && !creating
                && sent == old(sent) + [(accessToken.value, PayloadOf(old(form)))]
                && (created.Success? ==>
                      collectives == [created.value] + old(collectives) && form == EmptyForm && createError.None?)
                && (created.Failure? ==>
                      collectives == old(collectives) && form == old(form)
                      && createError == Some(MessageOr(created.message, "Failed to create collective")))
    {
      if !Truthy(accessToken) {
        return;
      }
      if Trim(form.name) == "" {
        createError := Some("Name is required");
        return;
      }
      creating := true;
      createError := None;
      sent := sent + [(accessToken.value, PayloadOf(form))];
      match created {
        case Success(c) =>
          collectives := [c] + collectives;
          form := EmptyForm;
        case Failure(message) =>
          createError := Some(MessageOr(message, "Failed to create collective"));
      }
      creating := false;
    }
  }
}
