/** The negotiation endpoints (src/negotiations/router.py): a store of
    negotiations, each a small state machine `open` → `in_progress` → `agreed`
    with an append-only list of numbered rounds. */
module NegotiationRouter {
  import opened Common
  import Strategy

  /** `NegotiationRound` (its database id is not modelled). */
  datatype Round = Round(
    negotiationId: int,
    roundNumber: int,
    actor: string,
    proposedPmpm: real,
    proposedMlr: Option<real>,
    notes: Option<string>,
    createdAt: int)

  /** `Negotiation` (its message thread is not modelled). */
  datatype Negotiation = Negotiation(
    id: int,
    collectiveId: int,
    supplierId: int,
    targetPmpm: Option<real>,
    targetPopulationSize: Option<int>,
    riskAppetite: Option<string>,
    targetStartDate: Option<string>,
    notes: Option<string>,
    status: string,
    finalAgreedPmpm: Option<real>,
    finalExpectedMlr: Option<real>,
    rounds: seq<Round>,
    createdAt: int,
    updatedAt: int)

  /** `NegotiationCreate`. */
  datatype NegotiationCreate = NegotiationCreate(
    collectiveId: int,
    supplierId: int,
    targetPmpm: Option<real>,
    targetPopulationSize: Option<int>,
    riskAppetite: Option<string>,
    targetStartDate: Option<string>,
    notes: Option<string>)

  /** `OfferIn`; `accept` defaults to false in the API. */
  datatype OfferIn = OfferIn(
    proposedPmpm: real,
    proposedMlr: Option<real>,
    notes: Option<string>,
    accept: bool)

  datatype OfferResponse = OfferResponse(
    negotiationId: int,
    status: string,
    round: Round,
    evaluation: Strategy.Evaluation)

  /** Who proposes a round: the supplier (`supplier-offer`) or the
      collective (`collective-counter`). */
  datatype Actor = Supplier | Collective

  function ActorName(a: Actor): string {
    match a
    case Supplier => "supplier"
    case Collective => "collective"
  }

  const NotFound := HttpError(404, "Negotiation not found")
  const Forbidden := HttpError(403, "Insufficient permissions")
  const NoRounds := HttpError(400, "No rounds exist to accept.")

  function NotOpen(status: string): HttpError {
    HttpError(400, "Negotiation is not open (status=" + status + ")")
  }

  predicate IsOpenStatus(status: string) {
    status == "open" || status == "in_progress"
  }

  // ---------------------------------------------------------------------------
  // MLR normalisation
  // ---------------------------------------------------------------------------

  /** `_normalize_mlr`: an MLR may be given as a fraction (0–1) or as a
      percentage (0–100); values above 1 are divided by 100. */
  function NormalizeMlr(raw: Option<real>): (r: Option<real>)
    ensures r.None? <==> raw.None?
    ensures raw.Some? && raw.value <= 1.0 ==> r == raw
    ensures raw.Some? && raw.value > 1.0 ==> r.value * 100.0 == raw.value
  {
    match raw
    case None => None
    case Some(v) => if v > 1.0 then Some(v / 100.0) else Some(v)
  }

  /** Every MLR up to 100 ends up as a fraction of at most 1, and normalising
      it again changes nothing; a percentage above 1 maps to a fraction above
      0.01. */
  lemma {:induction false} NormalizeMlrFraction(raw: real)
    requires raw <= 100.0
    ensures NormalizeMlr(Some(raw)).value <= 1.0
    ensures NormalizeMlr(NormalizeMlr(Some(raw))) == NormalizeMlr(Some(raw))
    ensures raw > 1.0 ==> 0.01 < NormalizeMlr(Some(raw)).value
  {
    if raw > 1.0 {
      var f := raw / 100.0;
      assert f * 100.0 == raw;
      assert f <= 1.0;
    }
  }

  // ---------------------------------------------------------------------------
  // Rounds
  // ---------------------------------------------------------------------------

  /** Index of `sorted(rounds, key=round_number)[-1]`: the round with the
      largest number and, among equal numbers, the one listed last (the sort
      is stable). The ensures clauses determine the index uniquely. */
  function LatestIndex(rounds: seq<Round>): (i: nat)
    requires rounds != []
    ensures i < |rounds|
    ensures forall j :: 0 <= j < |rounds| ==> rounds[j].roundNumber <= rounds[i].roundNumber
    ensures forall j :: i < j < |rounds| ==> rounds[j].roundNumber < rounds[i].roundNumber
  {
    if |rounds| == 1 then 0
    else
      var k := LatestIndex(rounds[1..]) + 1;
      if rounds[k].roundNumber >= rounds[0].roundNumber then k else 0
  }

  /** Rounds numbered 1, 2, 3, … in list order. */
  predicate NumberedInOrder(rounds: seq<Round>) {
    forall k :: 0 <= k < |rounds| ==> rounds[k].roundNumber == k + 1
  }

  /** In consecutively numbered rounds the latest round is the last one. */
  lemma {:induction false} LatestIsLast(rounds: seq<Round>)
    requires rounds != [] && NumberedInOrder(rounds)
    ensures LatestIndex(rounds) == |rounds| - 1
  {
    var i := LatestIndex(rounds);
    assert rounds[|rounds| - 1].roundNumber <= rounds[i].roundNumber;
  }

  /** The lifecycle invariant every negotiation created and advanced by these
      endpoints keeps: rounds are numbered 1..n; the status is one of the three
      states; "open" means no round has been made yet; and an agreed deal
      carries a final PMPM that some round proposed. */
  predicate WellFormed(n: Negotiation) {
    && NumberedInOrder(n.rounds)
    && (n.status == "open" || n.status == "in_progress" || n.status == "agreed")
    && (n.status == "open" <==> n.rounds == [])
    && (n.status == "agreed" ==>
          n.finalAgreedPmpm.Some? &&
          exists k :: 0 <= k < |n.rounds| && n.rounds[k].proposedPmpm == n.finalAgreedPmpm.value)
  }

  predicate AllWellFormed(ns: seq<Negotiation>) {
    forall i :: 0 <= i < |ns| ==> WellFormed(ns[i])
  }

  // ---------------------------------------------------------------------------
  // Transitions on one negotiation
  // ---------------------------------------------------------------------------

  /** The negotiation `start_negotiation` creates. */
  function Started(id: int, p: NegotiationCreate, now: int): (n: Negotiation)
    ensures n.id == id && n.status == "open" && n.rounds == []
    ensures n.finalAgreedPmpm.None? && n.finalExpectedMlr.None?
    ensures WellFormed(n)
  {
    Negotiation(id, p.collectiveId, p.supplierId, p.targetPmpm, p.targetPopulationSize,
                p.riskAppetite, p.targetStartDate, p.notes, "open", None, None, [], now, now)
  }

  /** The round an offer appends. */
  function NewRound(n: Negotiation, actor: Actor, offer: OfferIn, now: int): (r: Round)
    ensures r.roundNumber == |n.rounds| + 1
    ensures r.actor == ActorName(actor) && r.negotiationId == n.id
    ensures r.proposedPmpm == offer.proposedPmpm && r.proposedMlr == NormalizeMlr(offer.proposedMlr)
  {
    Round(n.id, |n.rounds| + 1, ActorName(actor), offer.proposedPmpm,
          NormalizeMlr(offer.proposedMlr), offer.notes, now)
  }

  /** The evaluation of an offer against the negotiation's target. */
  function EvaluateOffer(n: Negotiation, offer: OfferIn): Strategy.Evaluation {
    Strategy.Evaluate(n.targetPmpm, offer.proposedPmpm, n.riskAppetite)
  }

  /** The state of a negotiation after an offer on an open negotiation: one
      round is appended; an `accept` offer the strategy finds acceptable closes
      the deal at the offered PMPM and MLR; otherwise "open" becomes
      "in_progress" and nothing else changes. */
  function ApplyOffer(n: Negotiation, actor: Actor, offer: OfferIn, now: int): (m: Negotiation)
    ensures m.rounds == n.rounds + [NewRound(n, actor, offer, now)]
    ensures offer.accept && EvaluateOffer(n, offer).isAcceptable ==>
              m.status == "agreed" && m.finalAgreedPmpm == Some(offer.proposedPmpm)
              && m.finalExpectedMlr == NormalizeMlr(offer.proposedMlr)
    ensures !(offer.accept && EvaluateOffer(n, offer).isAcceptable) ==>
              m.status == (if n.status == "open" then "in_progress" else n.status)
              && m.finalAgreedPmpm == n.finalAgreedPmpm && m.finalExpectedMlr == n.finalExpectedMlr
    ensures m.id == n.id && m.collectiveId == n.collectiveId && m.supplierId == n.supplierId
    ensures m.targetPmpm == n.targetPmpm && m.riskAppetite == n.riskAppetite
    ensures m.updatedAt == now && m.createdAt == n.createdAt
  {
    var rounds := n.rounds + [NewRound(n, actor, offer, now)];
    if offer.accept && EvaluateOffer(n, offer).isAcceptable then
      n.(rounds := rounds, status := "agreed", finalAgreedPmpm := Some(offer.proposedPmpm),
         finalExpectedMlr := NormalizeMlr(offer.proposedMlr), updatedAt := now)
    else
      n.(rounds := rounds, status := if n.status == "open" then "in_progress" else n.status,
         updatedAt := now)
  }

  /** An offer on an open or in-progress negotiation keeps the lifecycle
      invariant: the new round is numbered next, the status moves forward,
      and an agreed price is the price of the round just added. */
  lemma {:induction false} ApplyOfferWellFormed(n: Negotiation, actor: Actor, offer: OfferIn, now: int)
    requires WellFormed(n) && IsOpenStatus(n.status)
    ensures WellFormed(ApplyOffer(n, actor, offer, now))
    ensures ApplyOffer(n, actor, offer, now).status != "open"
  {
    var m := ApplyOffer(n, actor, offer, now);
    assert m.rounds[|n.rounds|].proposedPmpm == offer.proposedPmpm;
    forall k | 0 <= k < |m.rounds| ensures m.rounds[k].roundNumber == k + 1 {
      if k < |n.rounds| { assert m.rounds[k] == n.rounds[k]; }
    }
  }

  /** The state after `accept_latest_offer` on a negotiation with rounds:
      agreed, with the final values of the latest round, whatever the prior
      status. */
  function AcceptLatest(n: Negotiation, now: int): (m: Negotiation)
    requires n.rounds != []
    ensures m.status == "agreed"
    ensures m.finalAgreedPmpm == Some(n.rounds[LatestIndex(n.rounds)].proposedPmpm)
    ensures m.finalExpectedMlr == n.rounds[LatestIndex(n.rounds)].proposedMlr
    ensures m.rounds == n.rounds && m.id == n.id && m.updatedAt == now
  {
    var latest := n.rounds[LatestIndex(n.rounds)];
    n.(status := "agreed", finalAgreedPmpm := Some(latest.proposedPmpm),
       finalExpectedMlr := latest.proposedMlr, updatedAt := now)
  }

  /** Accepting keeps the lifecycle invariant, and on a well-formed
      negotiation the accepted price is the price of the last round. */
  lemma {:induction false} AcceptLatestWellFormed(n: Negotiation, now: int)
    requires WellFormed(n) && n.rounds != []
    ensures WellFormed(AcceptLatest(n, now))
    ensures AcceptLatest(n, now).finalAgreedPmpm == Some(n.rounds[|n.rounds| - 1].proposedPmpm)
  {
    LatestIsLast(n.rounds);
    var m := AcceptLatest(n, now);
    assert m.rounds[|n.rounds| - 1].proposedPmpm == m.finalAgreedPmpm.value;
  }

  // ---------------------------------------------------------------------------
  // Queries
  // ---------------------------------------------------------------------------

  /** Position of the negotiation with a given id (`filter_by(id=...).first()`). */
  function IndexOf(ns: seq<Negotiation>, id: int): (r: Option<nat>)
    ensures r.Some? ==> r.value < |ns| && ns[r.value].id == id
    ensures r.Some? ==> forall k :: 0 <= k < r.value ==> ns[k].id != id
    ensures r.None? ==> forall k :: 0 <= k < |ns| ==> ns[k].id != id
  {
    if ns == [] then None
    else if ns[0].id == id then Some(0)
    else match IndexOf(ns[1..], id)
      case None => None
      case Some(k) => Some(k + 1)
  }

  /** Ids strictly increasing: the list is in `order_by(Negotiation.id)` order. */
  predicate IdsIncreasing(ns: seq<Negotiation>) {
    forall i, j :: 0 <= i < j < |ns| ==> ns[i].id < ns[j].id
  }

  /** Every id is positive and below `next`. */
  predicate IdsInRange(ns: seq<Negotiation>, next: int) {
    forall i :: 0 <= i < |ns| ==> 1 <= ns[i].id < next
  }

  /** The collective of the user's first membership row, if any. `memberships`
      holds the (user_id, collective_id) rows in query order. */
  function FirstCollectiveOf(memberships: seq<(int, int)>, userId: int): (r: Option<int>)
    ensures r.Some? ==> (userId, r.value) in memberships
    ensures r.None? ==> forall c :: (userId, c) !in memberships
  {
    if memberships == [] then None
    else if memberships[0].0 == userId then Some(memberships[0].1)
    else FirstCollectiveOf(memberships[1..], userId)
  }

  /** Negotiations of one collective, in store order. */
  function OfCollective(ns: seq<Negotiation>, collectiveId: int): (r: seq<Negotiation>)
    ensures forall n :: n in r <==> n in ns && n.collectiveId == collectiveId
    ensures IdsIncreasing(ns) ==> IdsIncreasing(r)
  {
    if ns == [] then []
    else
      var rest := OfCollective(ns[1..], collectiveId);
      assert forall n :: n in rest ==> n in ns[1..];
      if ns[0].collectiveId == collectiveId then [ns[0]] + rest else rest
  }

  /** Writing a row back under its own id keeps the ids in order and below
      `nextId`, and a well-formed row keeps the table well formed. */
  lemma ReplaceSameId(ns: seq<Negotiation>, i: nat, m: Negotiation, nextId: int)
    requires i < |ns| && m.id == ns[i].id
    requires IdsIncreasing(ns) && IdsInRange(ns, nextId)
    ensures IdsIncreasing(ns[i := m]) && IdsInRange(ns[i := m], nextId)
    ensures AllWellFormed(ns) && WellFormed(m) ==> AllWellFormed(ns[i := m])
  {
  }

  // ---------------------------------------------------------------------------
  // The store
  // ---------------------------------------------------------------------------

  /** The negotiations table: rows in id order and the next id to assign. */
  class NegotiationStore {
    var negotiations: seq<Negotiation>
    var nextId: int

    ghost predicate Valid()
      reads this
    {
      && nextId >= 1
      && IdsIncreasing(negotiations)
      && IdsInRange(negotiations, nextId)
    }

    constructor ()
      ensures Valid() && negotiations == [] && nextId == 1
    {
      negotiations := [];
      nextId := 1;
    }

    /** `start_negotiation`: a new negotiation is appended with the next id,
        status "open" and no rounds. */
    method Start(payload: NegotiationCreate, now: int) returns (n: Negotiation)
      requires Valid()
      modifies this
      ensures Valid()
      ensures n == Started(old(nextId), payload, now)
      ensures negotiations == old(negotiations) + [n]
      ensures nextId == old(nextId) + 1
      ensures AllWellFormed(old(negotiations)) ==> AllWellFormed(negotiations)
    {
      n := Started(nextId, payload, now);
      negotiations := negotiations + [n];
      nextId := nextId + 1;
    }

    /** `list_negotiations`: every negotiation, in id order, for the roles
        member, supplier and admin (case-insensitive); 403 otherwise. */
    function ListNegotiations(role: Option<string>): (r: Result<seq<Negotiation>>)
      reads this
      requires Valid()
      ensures r.Ok? <==> ToLower(OrElse(role, "")) in {"member", "supplier", "admin"}
      ensures r.Ok? ==> r.value == negotiations && IdsIncreasing(r.value)
      ensures r.Err? ==> r.error == Forbidden
    {
      var lowered := ToLower(OrElse(role, ""));
      if lowered in {"member", "supplier", "admin"} then Ok(negotiations) else Err(Forbidden)
    }

    /** `list_my_negotiations`: 403 for a user in no collective; otherwise the
        negotiations of the collective of the user's first membership, in id
        order. */
    function ListMyNegotiations(userId: int, memberships: seq<(int, int)>): (r: Result<seq<Negotiation>>)
      reads this
      requires Valid()
      ensures r.Err? <==> forall c :: (userId, c) !in memberships
      ensures r.Err? ==> r.error == Forbidden
      ensures r.Ok? ==>
                var c := FirstCollectiveOf(memberships, userId).value;
                && (userId, c) in memberships
                && (forall n :: n in r.value <==> n in negotiations && n.collectiveId == c)
                && IdsIncreasing(r.value)
    {
      match FirstCollectiveOf(memberships, userId)
      case None => Err(Forbidden)
      case Some(c) => Ok(OfCollective(negotiations, c))
    }

    /** `get_negotiation`. */
    function Get(id: int): (r: Result<Negotiation>)
      reads this
      ensures r.Ok? <==> exists i :: 0 <= i < |negotiations| && negotiations[i].id == id
      ensures r.Ok? ==> r.value in negotiations && r.value.id == id
      ensures r.Err? ==> r.error == NotFound
    {
      match IndexOf(negotiations, id)
      case None => Err(NotFound)
      case Some(i) => Ok(negotiations[i])
    }

    /** Body shared by `supplier_offer` and `collective_counter`: 404 for an
        unknown id; 400, with nothing added, unless the status is "open" or
        "in_progress"; otherwise the offer is applied to that negotiation
        alone. */
    method MakeOffer(id: int, actor: Actor, offer: OfferIn, now: int) returns (r: Result<OfferResponse>)
      requires Valid()
      modifies this
      ensures Valid() && nextId == old(nextId)
      ensures IndexOf(old(negotiations), id).None? ==>
                r == Err(NotFound) && negotiations == old(negotiations)
      ensures IndexOf(old(negotiations), id).Some? ==>
                var i := IndexOf(old(negotiations), id).value;
                var n := old(negotiations)[i];
                && (!IsOpenStatus(n.status) ==> r == Err(NotOpen(n.status)) && negotiations == old(negotiations))
                && (IsOpenStatus(n.status) ==>
                      && negotiations == old(negotiations)[i := ApplyOffer(n, actor, offer, now)]
                      && r == Ok(OfferResponse(id, negotiations[i].status, NewRound(n, actor, offer, now),
                                               EvaluateOffer(n, offer))))
      ensures AllWellFormed(old(negotiations)) ==> AllWellFormed(negotiations)
    {
      var found := IndexOf(negotiations, id);
      if found.None? {
        return Err(NotFound);
      }
      var i := found.value;
      var n := negotiations[i];
      if !IsOpenStatus(n.status) {
        return Err(NotOpen(n.status));
      }
      var m := ApplyOffer(n, actor, offer, now);
      if WellFormed(n) {
        ApplyOfferWellFormed(n, actor, offer, now);
      }
      ReplaceSameId(negotiations, i, m, nextId);
      negotiations := negotiations[i := m];
      r := Ok(OfferResponse(id, m.status, NewRound(n, actor, offer, now), EvaluateOffer(n, offer)));
    }

    /** `supplier_offer`: a round by "supplier". */
    method SupplierOffer(id: int, offer: OfferIn, now: int) returns (r: Result<OfferResponse>)
      requires Valid()
      modifies this
      ensures Valid()
      ensures IndexOf(old(negotiations), id).Some? && IsOpenStatus(old(negotiations)[IndexOf(old(negotiations), id).value].status) ==>
                r.Ok? && r.value.round.actor == "supplier"
                && r.value.round.roundNumber == |old(negotiations)[IndexOf(old(negotiations), id).value].rounds| + 1
      ensures r.Err? ==> negotiations == old(negotiations)
      ensures AllWellFormed(old(negotiations)) ==> AllWellFormed(negotiations)
    {
      r := MakeOffer(id, Supplier, offer, now);
    }

    /** `collective_counter`: a round by "collective". */
    method CollectiveCounter(id: int, offer: OfferIn, now: int) returns (r: Result<OfferResponse>)
      requires Valid()
      modifies this
      ensures Valid()
      ensures IndexOf(old(negotiations), id).Some? && IsOpenStatus(old(negotiations)[IndexOf(old(negotiations), id).value].status) ==>
                r.Ok? && r.value.round.actor == "collective"
                && r.value.round.roundNumber == |old(negotiations)[IndexOf(old(negotiations), id).value].rounds| + 1
      ensures r.Err? ==> negotiations == old(negotiations)
      ensures AllWellFormed(old(negotiations)) ==> AllWellFormed(negotiations)
    {
      r := MakeOffer(id, Collective, offer, now);
    }

    /** `accept_latest_offer`: 404 for an unknown id, 400 when there are no
        rounds, otherwise the negotiation is agreed at the latest round. */
    method AcceptLatestOffer(id: int, now: int) returns (r: Result<Negotiation>)
      requires Valid()
      modifies this
      ensures Valid() && nextId == old(nextId)
      ensures IndexOf(old(negotiations), id).None? ==>
                r == Err(NotFound) && negotiations == old(negotiations)
      ensures IndexOf(old(negotiations), id).Some? ==>
                var i := IndexOf(old(negotiations), id).value;
                var n := old(negotiations)[i];
                && (n.rounds == [] ==> r == Err(NoRounds) && negotiations == old(negotiations))
                && (n.rounds != [] ==>
                      negotiations == old(negotiations)[i := AcceptLatest(n, now)]
                      && r == Ok(AcceptLatest(n, now)))
      ensures AllWellFormed(old(negotiations)) ==> AllWellFormed(negotiations)
    {
      var found := IndexOf(negotiations, id);
      if found.None? {
        return Err(NotFound);
      }
      var i := found.value;
      var n := negotiations[i];
      if n.rounds == [] {
        return Err(NoRounds);
      }
      var m := AcceptLatest(n, now);
      if WellFormed(n) {
        AcceptLatestWellFormed(n, now);
      }
      ReplaceSameId(negotiations, i, m, nextId);
      negotiations := negotiations[i := m];
      r := Ok(m);
    }
  }
}
