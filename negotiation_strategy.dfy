/** The rule-based fair-value engine that judges a PMPM offer against a
    negotiation's target (src/negotiations/strategy.py). */
module Strategy {
  import opened Common

  datatype Action = Accept | Counter | WalkAway

  /** The `recommended_action` strings of the API. */
  function ActionName(a: Action): string {
    match a
    case Accept => "accept"
    case Counter => "counter"
    case WalkAway => "walk_away"
  }

  /** `FairValueEvaluation`. */
  datatype Evaluation = Evaluation(
    targetPmpm: Option<real>,
    offerPmpm: real,
    percentFromTarget: Option<real>,
    fairBandMin: Option<real>,
    fairBandMax: Option<real>,
    isAcceptable: bool,
    recommendedAction: Action,
    suggestedCounterPmpm: Option<real>)

  const LowBand: real := 0.03
  const MediumBand: real := 0.05
  const HighBand: real := 0.08
  /** Share of the counter-offer taken from the target. */
  const WeightTowardTarget: real := 0.6

  function Abs(x: real): real { if x < 0.0 then -x else x }
  function Min(a: real, b: real): real { if a <= b then a else b }

  /** Half-width of the fair band: `(risk_appetite or "medium").lower()`
      selects ±3% for "low", ±8% for "high" and ±5% for anything else. */
  function BandWidth(riskAppetite: Option<string>): (band: real)
    ensures riskAppetite.Some? && ToLower(riskAppetite.value) == "low" ==> band == LowBand
    ensures riskAppetite.Some? && ToLower(riskAppetite.value) == "high" ==> band == HighBand
    ensures (riskAppetite.None? || (ToLower(riskAppetite.value) != "low" && ToLower(riskAppetite.value) != "high"))
            ==> band == MediumBand
    ensures band in {LowBand, MediumBand, HighBand}
  {
    var ra := if Truthy(riskAppetite) then ToLower(riskAppetite.value) else "medium";
    if ra == "low" then LowBand
    else if ra == "high" then HighBand
    else MediumBand
  }

  /** `evaluate_offer_against_target`. */
  function Evaluate(targetPmpm: Option<real>, offerPmpm: real, riskAppetite: Option<string>): (e: Evaluation)
    ensures e.offerPmpm == offerPmpm
    ensures e.isAcceptable <==> e.recommendedAction == Accept
    ensures (targetPmpm.None? || targetPmpm.value <= 0.0) ==>
              e.isAcceptable && e.targetPmpm.None? && e.percentFromTarget.None?
              && e.fairBandMin.None? && e.fairBandMax.None? && e.suggestedCounterPmpm.None?
    ensures e.suggestedCounterPmpm.Some? <==> e.recommendedAction == Counter
    ensures targetPmpm.Some? && targetPmpm.value > 0.0 ==>
              e.percentFromTarget == Some((offerPmpm - targetPmpm.value) / targetPmpm.value)
    ensures targetPmpm.Some? && e.recommendedAction == Counter && offerPmpm >= targetPmpm.value ==>
              e.suggestedCounterPmpm == Some(0.6 * targetPmpm.value + 0.4 * offerPmpm)
  {
    if targetPmpm.None? || targetPmpm.value <= 0.0 then
      Evaluation(None, offerPmpm, None, None, None, true, Accept, None)
    else
      var target := targetPmpm.value;
      var band := BandWidth(riskAppetite);
      var bandMin := target * (1.0 - band);
      var bandMax := target * (1.0 + band);
      var percent := (offerPmpm - target) / target;
      if bandMin <= offerPmpm <= bandMax then
        Evaluation(Some(target), offerPmpm, Some(percent), Some(bandMin), Some(bandMax), true, Accept, None)
      else if Abs(percent) <= band * 2.0 then
        var counter := target * WeightTowardTarget + offerPmpm * (1.0 - WeightTowardTarget);
        var counter' := if offerPmpm < target then Min(counter, offerPmpm) else counter;
        Evaluation(Some(target), offerPmpm, Some(percent), Some(bandMin), Some(bandMax), false, Counter, Some(counter'))
      else
        Evaluation(Some(target), offerPmpm, Some(percent), Some(bandMin), Some(bandMax), false, WalkAway, None)
  }

  /** For a positive target, |offer − target| ≤ k·target is the same as
      |offer − target| / target ≤ k. */
  lemma {:induction false} RelativeDistance(offer: real, target: real, k: real)
    requires target > 0.0
    ensures Abs((offer - target) / target) <= k <==> Abs(offer - target) <= k * target
  {
    var p := (offer - target) / target;
    assert p * target == offer - target;
    if offer - target >= 0.0 {
      assert p >= 0.0;
      if p <= k { assert p * target <= k * target; }
      if offer - target <= k * target {
        if p > k { assert p * target > k * target; }
      }
    } else {
      assert p < 0.0;
      assert -p * target == target - offer;
      if -p <= k { assert -p * target <= k * target; }
      if target - offer <= k * target {
        if -p > k { assert -p * target > k * target; }
      }
    }
  }

  /** With a positive target the three actions split the offers by their
      distance from the target: within one band width is "accept", within two
      is "counter", beyond that is "walk_away"; the reported band is
      [target·(1−band), target·(1+band)]. */
  lemma {:induction false} ActionByDistance(target: real, offer: real, riskAppetite: Option<string>)
    requires target > 0.0
    ensures var e := Evaluate(Some(target), offer, riskAppetite);
            var band := BandWidth(riskAppetite);
            && e.targetPmpm == Some(target)
            && e.fairBandMin == Some(target * (1.0 - band))
            && e.fairBandMax == Some(target * (1.0 + band))
            && (e.recommendedAction == Accept <==> target * (1.0 - band) <= offer <= target * (1.0 + band))
            && (e.recommendedAction == Accept <==> Abs(offer - target) <= band * target)
            && (e.recommendedAction == Counter <==> band * target < Abs(offer - target) <= 2.0 * band * target)
            && (e.recommendedAction == WalkAway <==> Abs(offer - target) > 2.0 * band * target)
  {
    var band := BandWidth(riskAppetite);
    RelativeDistance(offer, target, band * 2.0);
  }

  /** A counter-offer to an offer below target is the offer itself: the
      60/40 blend lies above the offer, so the `min` always picks the offer. */
  lemma {:induction false} CounterBelowTargetIsOffer(target: real, offer: real, riskAppetite: Option<string>)
    requires target > 0.0 && offer < target
    requires Evaluate(Some(target), offer, riskAppetite).recommendedAction == Counter
    ensures Evaluate(Some(target), offer, riskAppetite).suggestedCounterPmpm == Some(offer)
  {
    assert target * WeightTowardTarget + offer * (1.0 - WeightTowardTarget) > offer;
  }

  /** A counter-offer never exceeds the offer when the offer is below target,
      and lies strictly between target and offer when the offer is above it. */
  lemma {:induction false} CounterBetweenTargetAndOffer(target: real, offer: real, riskAppetite: Option<string>)
    requires target > 0.0
    requires Evaluate(Some(target), offer, riskAppetite).recommendedAction == Counter
    ensures var c := Evaluate(Some(target), offer, riskAppetite).suggestedCounterPmpm;
            && c.Some?
            && (offer < target ==> c.value <= offer)
            && (offer > target ==> target < c.value < offer)
  {
    if offer < target {
      CounterBelowTargetIsOffer(target, offer, riskAppetite);
    }
  }

  /** An offer equal to a positive target is always acceptable. */
  lemma {:induction false} TargetOfferAccepted(target: real, riskAppetite: Option<string>)
    requires target > 0.0
    ensures Evaluate(Some(target), target, riskAppetite).isAcceptable
  {
    ActionByDistance(target, target, riskAppetite);
  }
}
