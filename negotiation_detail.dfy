/** The supplier's view of one negotiation
    (health-republic-frontend/src/pages/SupplierNegotiationDetail.tsx): it
    loads the negotiation, shows its rounds in round order and sends
    counter-offers from a three-field form. */
module NegotiationDetail {
  import opened Common
  import opened ApiClient

  /** The offer body sent; the client adds `accept: false` to every offer. */
  datatype OfferInput = OfferInput(proposedPmpm: Num, proposedMlr: Option<Num>, notes: Option<string>, accept: bool)

  datatype OfferResponse = OfferResponse(negotiationId: int, status: string, round: NegotiationRound,
                                         evaluation: OfferEvaluation)

  /** The requests the page sends, in order. */
  datatype Call = LoadDetail(token: string, negotiationId: real) | SubmitOffer(token: string, negotiationId: real,
                                                                                 body: OfferInput)

  const InvalidPmpm := "Please enter a valid PMPM amount."

  /** `!accessToken || !negotiationId`: the page has nothing to work on. */
  predicate Idle(accessToken: Option<string>, negotiationId: Num) {
    !Truthy(accessToken) || !NumTruthy(negotiationId)
  }

  /** The body built from the form: the PMPM converted with `Number`, the
      MLR only when not blank, the notes trimmed and only when not empty. */
  function OfferBody(proposedPmpm: string, proposedMlr: string, notes: string, parse: string -> Option<real>)
    : (b: OfferInput)
    ensures b.proposedPmpm == JsNumber(proposedPmpm, parse)
    ensures b.proposedMlr.None? <==> AllSpace(proposedMlr)
    ensures b.proposedMlr.Some? ==> b.proposedMlr.value == JsNumber(proposedMlr, parse)
    ensures b.notes == NonEmpty(Trim(notes)) && !b.accept
  {
    var mlr := if Trim(proposedMlr) != "" then Some(JsNumber(proposedMlr, parse)) else None;
    OfferInput(JsNumber(proposedPmpm, parse), mlr, NonEmpty(Trim(notes)), false)
  }

  /** An empty PMPM field is not rejected: it converts to 0. */
  lemma BlankPmpmIsZero(proposedMlr: string, notes: string, parse: string -> Option<real>)
    ensures OfferBody("", proposedMlr, notes, parse).proposedPmpm == Finite(0.0)
  {
  }

  function RoundNumber(r: NegotiationRound): real {
    r.roundNumber as real
  }

  /** The rounds shown: a copy of the loaded rounds (none when absent)
      sorted by round number. */
  function DisplayedRounds(n: Option<Negotiation>): seq<NegotiationRound> {
    SortByKey(if n.Some? && n.value.rounds.Some? then n.value.rounds.value else [], RoundNumber)
  }

  /** The shown rounds are exactly the loaded ones, in ascending round
      order. */
  lemma {:induction false} DisplayedRoundsOrdered(n: Negotiation)
    requires n.rounds.Some?
    ensures var r := DisplayedRounds(Some(n));
            && multiset(r) == multiset(n.rounds.value)
            && forall i, j :: 0 <= i < j < |r| ==> r[i].roundNumber <= r[j].roundNumber
  {
    var r := DisplayedRounds(Some(n));
    SortByKeyCorrect(n.rounds.value, RoundNumber);
    forall i, j | 0 <= i < j < |r| ensures r[i].roundNumber <= r[j].roundNumber {
      assert RoundNumber(r[i]) <= RoundNumber(r[j]);
    }
  }

  /** The three fields of the offer form. */
  datatype Form = Form(proposedPmpm: string, proposedMlr: string, notes: string)

  const EmptyForm := Form("", "", "")

  /** One run of the load-and-poll effect: the token and id it loads with. */
  datatype Effect = Effect(token: string, negotiationId: real)

  class Page {
    var negotiation: Option<Negotiation>
    var loading: bool
    var error: Option<string>
    var form: Form
    var submitting: bool
    var lastEvaluation: Option<OfferEvaluation>
    /** The effect runs started, in order. */
    var effects: seq<Effect>
    /** The runs whose effect was cleaned up; each run has its own flag. */
    var cancelledRuns: set<nat>
    var calls: seq<Call>

    /** Only runs that were started can have been cleaned up. */
    ghost predicate Valid()
      reads this
    {
      forall run :: run in cancelledRuns ==> run < |effects|
    }

    constructor ()
      ensures negotiation.None? && loading && error.None? && form == EmptyForm
      ensures !submitting && lastEvaluation.None? && calls == []
      ensures effects == [] && cancelledRuns == {}
      ensures Valid()
    {
      negotiation := None;
      loading := true;
      error := None;
      form := EmptyForm;
      submitting := false;
      lastEvaluation := None;
      effects := [];
      cancelledRuns := {};
      calls := [];
    }

    /** The effect for a token and an id: with no token or no id it does
        nothing; otherwise a fresh run, not yet cleaned up, starts loading
        and polling with them, and its number is returned. */
    method Start(accessToken: Option<string>, negotiationId: Num) returns (run: Option<nat>)
      requires Valid()
      modifies this
      ensures Valid()
      ensures negotiation == old(negotiation) && loading == old(loading) && error == old(error)
      ensures form == old(form) && submitting == old(submitting) && lastEvaluation == old(lastEvaluation)
      ensures calls == old(calls) && cancelledRuns == old(cancelledRuns)
      ensures Idle(accessToken, negotiationId) ==> run.None? && effects == old(effects)
      ensures !Idle(accessToken, negotiationId) ==>
                && run == Some(|old(effects)|) && run.value !in cancelledRuns
                && effects == old(effects) + [Effect(accessToken.value, negotiationId.v)]
    {
      if Idle(accessToken, negotiationId) {
        return None;
      }
      run := Some(|effects|);
      effects := effects + [Effect(accessToken.value, negotiationId.v)];
    }

    /** The cleanup of one run: it marks that run, and only that run, as
        cancelled (and stops its polling). */
    method Cleanup(run: nat)
      requires Valid() && run < |effects|
      modifies this
      ensures Valid()
      ensures cancelledRuns == old(cancelledRuns) + {run}
      ensures negotiation == old(negotiation) && loading == old(loading) && error == old(error)
      ensures form == old(form) && submitting == old(submitting) && lastEvaluation == old(lastEvaluation)
      ensures calls == old(calls) && effects == old(effects)
    {
      cancelledRuns := cancelledRuns + {run};
    }

    /** One `load` of run `run` (the first one or a poll), `result` being the
        answer: the negotiation is requested with the run's token and id.
        When the answer arrives after that run was cleaned up it is
        ignored. */
    method Load(run: nat, result: Outcome<Negotiation>)
      requires Valid() && run < |effects|
      modifies this
      ensures Valid()
      ensures form == old(form) && submitting == old(submitting) && lastEvaluation == old(lastEvaluation)
      ensures effects == old(effects) && cancelledRuns == old(cancelledRuns)
      ensures calls == old(calls) + [LoadDetail(effects[run].token, effects[run].negotiationId)]
      ensures run in cancelledRuns ==>
                negotiation == old(negotiation) && loading == old(loading) && error == old(error)
      ensures run !in cancelledRuns ==>
                && !loading
                && (result.Success? ==> negotiation == Some(result.value) && error.None?)
                && (result.Failure? ==>
                      negotiation == old(negotiation)
                      && error == Some(MessageOr(result.message, "Failed to load negotiation")))
    {
      calls := calls + [LoadDetail(effects[run].token, effects[run].negotiationId)];
      if run in cancelledRuns {
        return;
      }
      match result {
        case Success(data) =>
          negotiation := Some(data);
          error := None;
        case Failure(message) =>
          error := Some(MessageOr(message, "Failed to load negotiation"));
      }
      loading := false;
    }

    /** The request part of `handleSubmitOffer`, once the PMPM is a number:
        the offer is sent, then the negotiation reloaded. */
    method Submit(token: string, negotiationId: real, body: OfferInput,
                  offer: Outcome<OfferResponse>, refreshed: Outcome<Negotiation>)
      modifies this
      ensures loading == old(loading) && effects == old(effects) && cancelledRuns == old(cancelledRuns) && !submitting
      ensures offer.Failure? ==>
                && calls == old(calls) + [SubmitOffer(token, negotiationId, body)]
                && error == Some(MessageOr(offer.message, "Failed to submit offer"))
                && negotiation == old(negotiation) && lastEvaluation == old(lastEvaluation) && form == old(form)
      ensures offer.Success? ==>
                && calls == old(calls) + [SubmitOffer(token, negotiationId, body), LoadDetail(token, negotiationId)]
                && lastEvaluation == Some(offer.value.evaluation)
      ensures offer.Success? && refreshed.Failure? ==>
                && error == Some(MessageOr(refreshed.message, "Failed to submit offer"))
                && negotiation == old(negotiation) && form == old(form)
      ensures offer.Success? && refreshed.Success? ==>
                error.None? && negotiation == Some(refreshed.value) && form == EmptyForm
    {
      submitting := true;
      error := None;
      calls := calls + [SubmitOffer(token, negotiationId, body)];
      if offer.Failure? {
        error := Some(MessageOr(offer.message, "Failed to submit offer"));
        submitting := false;
        return;
      }
      lastEvaluation := Some(offer.value.evaluation);
      calls := calls + [LoadDetail(token, negotiationId)];
      match refreshed {
        case Success(updated) =>
          negotiation := Some(updated);
          form := EmptyForm;
        case Failure(message) =>
          error := Some(MessageOr(message, "Failed to submit offer"));
      }
      submitting := false;
    }

    /** `handleSubmitOffer`: `offer` is the answer to the offer and
        `refreshed` the answer to the reload that follows it. With no token
        or id nothing happens; a NaN PMPM sets an error and sends nothing;
        otherwise the body built from the form is sent. */
    method HandleSubmitOffer(accessToken: Option<string>, negotiationId: Num, parse: string -> Option<real>,
                             offer: Outcome<OfferResponse>, refreshed: Outcome<Negotiation>)
      modifies this
      ensures loading == old(loading) && effects == old(effects) && cancelledRuns == old(cancelledRuns)
      ensures Idle(accessToken, negotiationId) ==>
                && negotiation == old(negotiation) && error == old(error) && lastEvaluation == old(lastEvaluation)
                && form == old(form) && calls == old(calls) && submitting == old(submitting)
      ensures !Idle(accessToken, negotiationId) && JsNumber(old(form).proposedPmpm, parse).NaN? ==>
                && error == Some(InvalidPmpm) && calls == old(calls)
                && negotiation == old(negotiation) && lastEvaluation == old(lastEvaluation)
                && form == old(form) && submitting == old(submitting)
      ensures !Idle(accessToken, negotiationId) && JsNumber(old(form).proposedPmpm, parse).Finite? ==>
                && !submitting
                && |calls| > |old(calls)|
                && calls[|old(calls)|] == SubmitOffer(accessToken.value, negotiationId.v,
                                                     OfferBody(old(form).proposedPmpm, old(form).proposedMlr,
                                                               old(form).notes, parse))
                && (offer.Success? && refreshed.Success? <==> form == EmptyForm && error.None?)
    {
      if Idle(accessToken, negotiationId) {
        return;
      }
      var body := OfferBody(form.proposedPmpm, form.proposedMlr, form.notes, parse);
      if body.proposedPmpm.NaN? {
        error := Some(InvalidPmpm);
        return;
      }
      Submit(accessToken.value, negotiationId.v, body, offer, refreshed);
    }
  }
}
