/** Collective matching and membership (src/collectives/services.py): an
    integer score of how well a collective fits a user, the recommendations
    built from it, and joining and leaving a collective. */
module CollectiveMatching {
  import opened Common
  import opened Models

  const IndustryMatchPoints := 40
  const StateMatchPoints := 25
  const AgeRangeMatchPoints := 20
  const HouseholdInRangePoints := 10
  const HouseholdTooSmallPenalty := -5
  const HouseholdTooLargePenalty := -5

  // ---------------------------------------------------------------------------
  // Scoring
  // ---------------------------------------------------------------------------

  /** Industry: case-insensitive match, only when both sides are non-empty. */
  function IndustryPoints(user: User, c: Collective): (p: int)
    ensures p == IndustryMatchPoints <==>
              Truthy(c.targetIndustry) && Truthy(user.industry)
              && ToLower(c.targetIndustry.value) == ToLower(user.industry.value)
    ensures p != IndustryMatchPoints ==> p == 0
  {
    if Truthy(c.targetIndustry) && Truthy(user.industry)
       && ToLower(c.targetIndustry.value) == ToLower(user.industry.value)
    then IndustryMatchPoints else 0
  }

  /** State: case-insensitive match, only when both sides are non-empty. */
  function StatePoints(user: User, c: Collective): (p: int)
    ensures p == StateMatchPoints <==>
              Truthy(c.targetState) && Truthy(user.state)
              && ToUpper(c.targetState.value) == ToUpper(user.state.value)
    ensures p != StateMatchPoints ==> p == 0
  {
    if Truthy(c.targetState) && Truthy(user.state)
       && ToUpper(c.targetState.value) == ToUpper(user.state.value)
    then StateMatchPoints else 0
  }

  /** Age range: exact match only. */
  function AgeRangePoints(user: User, c: Collective): (p: int)
    ensures p == AgeRangeMatchPoints <==>
              Truthy(c.targetAgeRange) && Truthy(user.ageRange) && c.targetAgeRange.value == user.ageRange.value
    ensures p != AgeRangeMatchPoints ==> p == 0
  {
    if Truthy(c.targetAgeRange) && Truthy(user.ageRange) && c.targetAgeRange.value == user.ageRange.value
    then AgeRangeMatchPoints else 0
  }

  /** Household size: a penalty for each bound it breaks, a bonus when it is
      within every bound and at least one bound is set, nothing when the
      user's size is unknown. */
  function HouseholdPoints(user: User, c: Collective): (p: int)
    ensures -10 <= p <= HouseholdInRangePoints
    ensures user.householdSize.None? ==> p == 0
    ensures p == HouseholdInRangePoints <==>
              && user.householdSize.Some?
              && (c.minHouseholdSize.Some? || c.maxHouseholdSize.Some?)
              && (c.minHouseholdSize.Some? ==> user.householdSize.value >= c.minHouseholdSize.value)
              && (c.maxHouseholdSize.Some? ==> user.householdSize.value <= c.maxHouseholdSize.value)
    ensures p < 0 <==>
              user.householdSize.Some? &&
              ((c.minHouseholdSize.Some? && user.householdSize.value < c.minHouseholdSize.value) ||
               (c.maxHouseholdSize.Some? && user.householdSize.value > c.maxHouseholdSize.value))
  {
    match user.householdSize
    case None => 0
    case Some(size) =>
      var tooSmall := c.minHouseholdSize.Some? && size < c.minHouseholdSize.value;
      var tooLarge := c.maxHouseholdSize.Some? && size > c.maxHouseholdSize.value;
      var inRange := !tooSmall && !tooLarge;
      (if tooSmall then HouseholdTooSmallPenalty else 0)
      + (if tooLarge then HouseholdTooLargePenalty else 0)
      + (if inRange && (c.minHouseholdSize.Some? || c.maxHouseholdSize.Some?) then HouseholdInRangePoints else 0)
  }

  /** `score_collective_for_user`. */
  function Score(user: User, c: Collective): (s: int)
    ensures -10 <= s <= IndustryMatchPoints + StateMatchPoints + AgeRangeMatchPoints + HouseholdInRangePoints
    ensures s == 95 <==>
              IndustryPoints(user, c) == IndustryMatchPoints && StatePoints(user, c) == StateMatchPoints
              && AgeRangePoints(user, c) == AgeRangeMatchPoints && HouseholdPoints(user, c) == HouseholdInRangePoints
  {
    IndustryPoints(user, c) + StatePoints(user, c) + AgeRangePoints(user, c) + HouseholdPoints(user, c)
  }

  /** A collective that sets no target and no household bound scores 0 for
      every user. */
  lemma {:induction false} UntargetedScoresZero(user: User, c: Collective)
    requires c.targetIndustry.None? && c.targetState.None? && c.targetAgeRange.None?
    requires c.minHouseholdSize.None? && c.maxHouseholdSize.None?
    ensures Score(user, c) == 0
  {
  }

  // ---------------------------------------------------------------------------
  // Recommendations
  // ---------------------------------------------------------------------------

  datatype Recommendation = Recommendation(collective: Collective, score: int)

  /** Sort key of `sort(key=score, reverse=True)`: ascending in the negated
      score, stable among equal scores like Python's reverse sort. */
  function NegScore(r: Recommendation): real {
    -(r.score as real)
  }

  /** The recommendations that pass the threshold, in table order. */
  function Qualifying(user: User, cs: seq<Collective>, minScore: int): (r: seq<Recommendation>)
    ensures |r| <= |cs|
    ensures forall x :: x in r ==> x.collective in cs && x.score == Score(user, x.collective) && x.score >= minScore
    ensures forall c :: c in cs && Score(user, c) >= minScore ==> Recommendation(c, Score(user, c)) in r
    decreases |cs|
  {
    if cs == [] then []
    else
      var front := cs[..|cs| - 1];
      var c := cs[|cs| - 1];
      assert forall x :: x in cs ==> x in front || x == c;
      assert forall x :: x in front ==> x in cs;
      var s := Score(user, c);
      Qualifying(user, front, minScore) + (if s >= minScore then [Recommendation(c, s)] else [])
  }

  /** `recommend_collectives_for_user`: `collectives` is the table in query
      order; `limit` defaults to 5 and `minScore` to 10 in the source. */
  method Recommend(user: User, collectives: seq<Collective>, limit: int, minScore: int) returns (r: seq<Recommendation>)
    ensures r == PyPrefix(SortByKey(Qualifying(user, collectives, minScore), NegScore), limit)
  {
    var scored: seq<Recommendation> := [];
    var i := 0;
    while i < |collectives|
      invariant 0 <= i <= |collectives|
      invariant scored == Qualifying(user, collectives[..i], minScore)
    {
      var c := collectives[i];
      var s := Score(user, c);
      assert collectives[..i + 1][..i] == collectives[..i];
      if s >= minScore {
        scored := scored + [Recommendation(c, s)];
      }
      i := i + 1;
    }
    assert collectives[..i] == collectives;
    scored := SortByKey(scored, NegScore);
    r := PyPrefix(scored, limit);
  }

  /** The recommendations are scored table collectives at or above the
      threshold, best first, at most `limit` of them; and when `limit` leaves
      room, every qualifying collective is recommended. */
  lemma {:induction false} RecommendCorrect(user: User, collectives: seq<Collective>, limit: int, minScore: int)
    ensures var r := PyPrefix(SortByKey(Qualifying(user, collectives, minScore), NegScore), limit);
            && (forall x :: x in r ==> x.collective in collectives && x.score == Score(user, x.collective) && x.score >= minScore)
            && (forall i, j :: 0 <= i < j < |r| ==> r[i].score >= r[j].score)
            && (limit >= 0 ==> |r| <= limit)
            && (limit >= |Qualifying(user, collectives, minScore)| ==>
                  forall c :: c in collectives && Score(user, c) >= minScore ==> Recommendation(c, Score(user, c)) in r)
  {
    var q := Qualifying(user, collectives, minScore);
    var sorted := SortByKey(q, NegScore);
    SortByKeyCorrect(q, NegScore);
    var r := PyPrefix(sorted, limit);
    forall x | x in r ensures x in q {
      assert x in multiset(sorted);
    }
    forall i, j | 0 <= i < j < |r| ensures r[i].score >= r[j].score {
      assert NegScore(sorted[i]) <= NegScore(sorted[j]);
    }
    if limit >= |q| {
      assert r == sorted;
      forall c | c in collectives && Score(user, c) >= minScore
        ensures Recommendation(c, Score(user, c)) in r
      {
        assert Recommendation(c, Score(user, c)) in multiset(q);
      }
    }
  }

  // ---------------------------------------------------------------------------
  // Membership
  // ---------------------------------------------------------------------------

  const CollectiveNotFound := HttpError(404, "Collective not found")

  predicate CollectiveExists(collectives: seq<Collective>, id: int) {
    exists c :: c in collectives && c.id == id
  }

  /** The membership set after a join: the pair is added when the collective
      exists; a repeated join adds nothing. */
  function Joined(ms: set<Membership>, collectives: seq<Collective>, userId: int, collectiveId: int): (r: set<Membership>)
    ensures CollectiveExists(collectives, collectiveId) ==> (userId, collectiveId) in r
    ensures r - {(userId, collectiveId)} == ms - {(userId, collectiveId)}
  {
    if CollectiveExists(collectives, collectiveId) then ms + {(userId, collectiveId)} else ms
  }

  /** The membership set after a leave: the pair is gone, nothing else moves. */
  function Left(ms: set<Membership>, userId: int, collectiveId: int): (r: set<Membership>)
    ensures (userId, collectiveId) !in r
    ensures r + (ms * {(userId, collectiveId)}) == ms
  {
    ms - {(userId, collectiveId)}
  }

  /** Joining twice is the same as joining once. */
  lemma {:induction false} JoinIdempotent(ms: set<Membership>, collectives: seq<Collective>, userId: int, collectiveId: int)
    ensures Joined(Joined(ms, collectives, userId, collectiveId), collectives, userId, collectiveId)
         == Joined(ms, collectives, userId, collectiveId)
  {
  }

  /** Leaving undoes a join that added the pair. */
  lemma {:induction false} LeaveUndoesJoin(ms: set<Membership>, collectives: seq<Collective>, userId: int, collectiveId: int)
    requires (userId, collectiveId) !in ms
    ensures Left(Joined(ms, collectives, userId, collectiveId), userId, collectiveId) == ms
  {
  }

  /** The `collective_memberships` table, one row per (user_id, collective_id)
      pair (the table's unique constraint). */
  class MembershipTable {
    var memberships: set<Membership>

    constructor ()
      ensures memberships == {}
    {
      memberships := {};
    }

    /** `join_collective`: 404 for a missing collective; an existing
        membership is returned as it is. */
    method Join(collectives: seq<Collective>, userId: int, collectiveId: int) returns (r: Result<Membership>)
      modifies this
      ensures memberships == Joined(old(memberships), collectives, userId, collectiveId)
      ensures !CollectiveExists(collectives, collectiveId) <==> r == Err(CollectiveNotFound)
      ensures r.Ok? ==> r.value == (userId, collectiveId)
      ensures (userId, collectiveId) in old(memberships) ==> memberships == old(memberships)
    {
      if !CollectiveExists(collectives, collectiveId) {
        return Err(CollectiveNotFound);
      }
      var pair := (userId, collectiveId);
      if pair in memberships {
        return Ok(pair);
      }
      memberships := memberships + {pair};
      r := Ok(pair);
    }

    /** `leave_collective`: reports whether a membership was removed. */
    method Leave(userId: int, collectiveId: int) returns (removed: bool)
      modifies this
      ensures removed <==> (userId, collectiveId) in old(memberships)
      ensures memberships == Left(old(memberships), userId, collectiveId)
      ensures !removed ==> memberships == old(memberships)
    {
      var pair := (userId, collectiveId);
      if pair !in memberships {
        return false;
      }
      memberships := memberships - {pair};
      removed := true;
    }
  }
}
