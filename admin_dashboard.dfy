/** The admin's negotiation form (health-republic-frontend/src/pages/AdminDashboard.tsx):
    the form's strings become a `NegotiationCreatePayload`, the two ids must
    be numbers, and a created negotiation clears every field but the two
    ids. */
module AdminDashboard {
  import opened Common
  import opened ApiClient

  /** The form's fields, as typed. */
  datatype Form = Form(collectiveId: string, supplierId: string, targetPmpm: string, targetPopulationSize: string,
                       riskAppetite: string, targetStartDate: string, notes: string)

  const EmptyForm := Form("", "", "", "", "", "", "")

  /** The body sent (`NegotiationCreatePayload`); `None` is `null`. */
  datatype Payload = Payload(collectiveId: Num, supplierId: Num, targetPmpm: Option<Num>,
                             targetPopulationSize: Option<Num>, riskAppetite: Option<Num>,
                             targetStartDate: Option<string>, notes: Option<string>)

  const InvalidIds := "Collective ID and Supplier ID must be valid numbers."

  /** `s ? Number(s) : null`: an empty field is `null`, any other is
      converted. */
  function OptionalNumber(s: string, parse: string -> Option<real>): (r: Option<Num>)
    ensures r.None? <==> s == ""
    ensures r.Some? ==> r.value == JsNumber(s, parse)
  {
    if s != "" then Some(JsNumber(s, parse)) else None
  }

  /** The payload built from the form. */
  function PayloadOf(form: Form, parse: string -> Option<real>): (p: Payload)
    ensures p.collectiveId == JsNumber(form.collectiveId, parse) && p.supplierId == JsNumber(form.supplierId, parse)
    ensures p.targetPmpm.None? <==> form.targetPmpm == ""
    ensures p.targetPopulationSize.None? <==> form.targetPopulationSize == ""
    ensures p.riskAppetite.None? <==> form.riskAppetite == ""
    ensures p.targetStartDate == NonEmpty(form.targetStartDate) && p.notes == NonEmpty(form.notes)
    ensures p.targetPmpm.Some? ==> p.targetPmpm.value == JsNumber(form.targetPmpm, parse)
    ensures p.targetPopulationSize.Some? ==> p.targetPopulationSize.value == JsNumber(form.targetPopulationSize, parse)
    ensures p.riskAppetite.Some? ==> p.riskAppetite.value == JsNumber(form.riskAppetite, parse)
  {
    Payload(JsNumber(form.collectiveId, parse), JsNumber(form.supplierId, parse),
            OptionalNumber(form.targetPmpm, parse), OptionalNumber(form.targetPopulationSize, parse),
            OptionalNumber(form.riskAppetite, parse), NonEmpty(form.targetStartDate), NonEmpty(form.notes))
  }

  /** An empty id field is not caught: `Number("")` is 0, so the request
      goes out with id 0. */
  lemma EmptyIdIsZero(form: Form, parse: string -> Option<real>)
    requires form.collectiveId == ""
    ensures PayloadOf(form, parse).collectiveId == Finite(0.0)
  {
  }

  /** The form after a creation: the ids stay for the next negotiation. */
  function Cleared(form: Form): (r: Form)
    ensures r.collectiveId == form.collectiveId && r.supplierId == form.supplierId
    ensures r.(collectiveId := "", supplierId := "") == EmptyForm
  {
    EmptyForm.(collectiveId := form.collectiveId, supplierId := form.supplierId)
  }

  /** Neither id converted to NaN. */
  predicate ValidIds(p: Payload) {
    p.collectiveId.Finite? && p.supplierId.Finite?
  }

  class Page {
    var form: Form
    var creating: bool
    var createError: Option<string>
    var createdNegotiation: Option<Negotiation>
    /** The payloads sent, with the token, in order. */
    var sent: seq<(string, Payload)>

    constructor ()
      ensures form == EmptyForm && !creating && createError.None? && createdNegotiation.None? && sent == []
    {
      form := EmptyForm;
      creating := false;
      createError := None;
      createdNegotiation := None;
      sent := [];
    }

    /** The request part of `handleCreate`, once both ids are numbers. */
    method Create(token: string, payload: Payload, created: Outcome<Negotiation>)
      modifies this
      ensures !creating && sent == old(sent) + [(token, payload)]
      ensures created.Success? ==>
                createdNegotiation == Some(created.value) && createError == old(createError) && form == Cleared(old(form))
      ensures created.Failure? ==>
                && createdNegotiation == old(createdNegotiation) && form == old(form)
                && createError == Some(MessageOr(created.message, "Failed to create negotiation"))
    {
      sent := sent + [(token, payload)];
      match created {
        case Success(n) =>
          createdNegotiation := Some(n);
          form := Cleared(form);
        case Failure(message) =>
          createError := Some(MessageOr(message, "Failed to create negotiation"));
      }
      creating := false;
    }

    /** `handleCreate` once the token is known: the ids are checked
        before anything is sent. */
    method CreateWith(token: string, payload: Payload, created: Outcome<Negotiation>)
      modifies this
      ensures !creating
      ensures !ValidIds(payload) ==>
                createError == Some(InvalidIds) && sent == old(sent) && form == old(form) && createdNegotiation.None?
      ensures ValidIds(payload) ==>
                && sent == old(sent) + [(token, payload)]
                && (created.Success? ==>
                      createdNegotiation == Some(created.value) && createError.None? && form == Cleared(old(form)))
                && (created.Failure? ==>
                      && createdNegotiation.None? && form == old(form)
                      && createError == Some(MessageOr(created.message, "Failed to create negotiation")))
    {
      creating := true;
      createError := None;
      createdNegotiation := None;
      if !ValidIds(payload) {
        createError := Some(InvalidIds);
        creating := false;
        return;
      }
      Create(token, payload, created);
    }

    /** `handleCreate`, `created` being the answer to the request: without
        a token, or with an id that is not a number, an error is shown and
        nothing is sent; otherwise the payload built from the form is
        sent. */
    method HandleCreate(accessToken: Option<string>, parse: string -> Option<real>, created: Outcome<Negotiation>)
      modifies this
      ensures !Truthy(accessToken) ==>
                && createError == Some("Missing access token") && sent == old(sent)
                && form == old(form) && creating == old(creating) && createdNegotiation == old(createdNegotiation)
      ensures Truthy(accessToken) ==> !creating
      ensures var payload := PayloadOf(old(form), parse);
              Truthy(accessToken) && !ValidIds(payload) ==>
                && createError == Some(InvalidIds) && sent == old(sent)
                && form == old(form) && createdNegotiation.None?
      ensures var payload := PayloadOf(old(form), parse);
              Truthy(accessToken) && ValidIds(payload) ==>
                && sent == old(sent) + [(accessToken.value, payload)]
                && (created.Success? ==>
                      createdNegotiation == Some(created.value) && createError.None? && form == Cleared(old(form)))
                && (created.Failure? ==>
                      && createdNegotiation.None? && form == old(form)
                      && createError == Some(MessageOr(created.message, "Failed to create negotiation")))
    {
      if !Truthy(accessToken) {
        createError := Some("Missing access token");
        return;
      }
      CreateWith(accessToken.value, PayloadOf(form, parse), created);
    }
  }
}
