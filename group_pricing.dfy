/** Group pricing (src/negotiations/services.py): the risk score of a
    collective's membership and the simulated insurer quotes built on it. */
module GroupPricing {
  import opened Common
  import opened Models

  // ---------------------------------------------------------------------------
  // Age factor
  // ---------------------------------------------------------------------------

  /** `_age_factor`: a missing or empty range is neutral (1.0); otherwise the
      stripped range is looked up in a table of six hyphenated ranges, and
      anything else is neutral as well. */
  function AgeFactor(ageRange: Option<string>): (f: real)
    ensures 0.8 <= f <= 1.6
    ensures !Truthy(ageRange) ==> f == 1.0
  {
    if !Truthy(ageRange) then 1.0
    else
      var ar := Trim(ageRange.value);
      if ar == "18-24" then 0.8
      else if ar == "25-34" then 0.9
      else if ar == "35-44" then 1.0
      else if ar == "45-54" then 1.1
      else if ar == "55-64" then 1.3
      else if ar == "65+" then 1.6
      else 1.0
  }

  /** An en-dashed range of the form "dd–dd" is not in the hyphenated table. */
  lemma {:induction false} EnDashRangeNeutral(s: string)
    requires |s| == 5 && s[2] == '\U{2013}' && !IsSpace(s[0]) && !IsSpace(s[4])
    ensures AgeFactor(Some(s)) == 1.0
  {
    TrimUntouched(s);
    assert s[2] != "18-24"[2];
    assert s != "18-24" && s != "25-34" && s != "35-44" && s != "45-54" && s != "55-64";
    assert |s| != |"65+"|;
  }

  /** "65+" is the one range spelled the same in the table and in the
      registration enumeration. */
  lemma {:induction false} SeniorRangeFactor(r: string)
    requires r == "65+"
    ensures AgeFactor(Some(r)) == 1.6
  {
    TrimUntouched(r);
    assert |r| == 3;
  }

  /** The first five ranges of the registration enumeration are en-dashed
      "dd–dd" strings (so `EnDashRangeNeutral` gives them the neutral
      factor); the sixth is "65+". */
  lemma {:induction false} EnumAgeRangeShapes(k: int)
    requires 0 <= k < |AgeRangeValues|
    ensures k < 5 ==> var r := AgeRangeValues[k];
                      |r| == 5 && r[2] == '\U{2013}' && !IsSpace(r[0]) && !IsSpace(r[4])
    ensures k == 5 ==> AgeRangeValues[k] == "65+"
  {
  }

  // ---------------------------------------------------------------------------
  // Chronic conditions: `[p.strip() for p in s.split(",")]`, non-empty parts
  // ---------------------------------------------------------------------------

  function Occurrences(s: string, c: char): nat {
    if s == [] then 0 else (if s[0] == c then 1 else 0) + Occurrences(s[1..], c)
  }

  /** `str.split(sep)`: the pieces between separators, always at least one. */
  function SplitOn(s: string, sep: char): (parts: seq<string>)
    ensures |parts| == Occurrences(s, sep) + 1
    ensures forall i :: 0 <= i < |parts| ==> sep !in parts[i]
  {
    if s == [] then [""]
    else
      var rest := SplitOn(s[1..], sep);
      if s[0] == sep then [""] + rest
      else [[s[0]] + rest[0]] + rest[1..]
  }

  /** `sep.join(parts)`. */
  function JoinWith(parts: seq<string>, sep: char): string
    requires parts != []
  {
    if |parts| == 1 then parts[0] else parts[0] + [sep] + JoinWith(parts[1..], sep)
  }

  /** Splitting loses nothing: joining the pieces back gives the input. */
  lemma {:induction false} SplitJoin(s: string, sep: char)
    ensures JoinWith(SplitOn(s, sep), sep) == s
  {
    if s != [] {
      var rest := SplitOn(s[1..], sep);
      SplitJoin(s[1..], sep);
      if s[0] == sep {
        assert SplitOn(s, sep)[1..] == rest;
        assert s == [sep] + s[1..];
      } else {
        var parts := SplitOn(s, sep);
        assert parts[1..] == rest[1..];
        if |rest| == 1 {
          assert s == [s[0]] + rest[0];
        } else {
          assert JoinWith(rest, sep) == rest[0] + [sep] + JoinWith(rest[1..], sep);
          assert s == [s[0]] + s[1..];
        }
      }
    }
  }

  function NonBlankCount(parts: seq<string>): (n: nat)
    ensures n <= |parts|
  {
    if parts == [] then 0
    else (if Trim(parts[0]) != "" then 1 else 0) + NonBlankCount(parts[1..])
  }

  /** Number of chronic conditions listed for one member: the non-blank
      comma-separated entries; nothing for a missing or empty column. */
  function ConditionCount(conditions: Option<string>): (n: nat)
    ensures Truthy(conditions) ==> n <= Occurrences(conditions.value, ',') + 1
    ensures !Truthy(conditions) ==> n == 0
  {
    if Truthy(conditions) then NonBlankCount(SplitOn(conditions.value, ',')) else 0
  }

  lemma {:induction false} NonBlankCountOne(p: string)
    ensures NonBlankCount([p]) == (if Trim(p) != "" then 1 else 0)
  {
    assert [p][1..] == [];
  }

  /** A comma-free entry counts as one condition unless it is blank. */
  lemma {:induction false} SingleConditionCount(c: string)
    requires ',' !in c
    ensures ConditionCount(Some(c)) == (if AllSpace(c) then 0 else 1)
  {
    if c != [] {
      SingleSplit(c);
      NonBlankCountOne(c);
    }
  }

  lemma {:induction false} SingleSplit(s: string)
    requires ',' !in s
    ensures SplitOn(s, ',') == [s]
  {
    if s != [] {
      SingleSplit(s[1..]);
      assert [s[0]] + s[1..] == s;
    }
  }

  // ---------------------------------------------------------------------------
  // Collective risk
  // ---------------------------------------------------------------------------

  /** `(member_count, risk_score, avg_monthly_rx_spend, avg_chronic_conditions_per_user)`. */
  datatype RiskSummary = RiskSummary(
    memberCount: nat,
    riskScore: real,
    avgMonthlyRxSpend: Option<real>,
    avgChronicPerUser: real)

  function SumAgeFactors(members: seq<User>): (s: real)
    ensures 0.8 * |members| as real <= s <= 1.6 * |members| as real
  {
    if members == [] then 0.0
    else SumAgeFactors(members[..|members| - 1]) + AgeFactor(members[|members| - 1].ageRange)
  }

  function TotalConditions(members: seq<User>): nat {
    if members == [] then 0
    else TotalConditions(members[..|members| - 1]) + ConditionCount(members[|members| - 1].chronicConditions)
  }

  function Min(a: real, b: real): real { if a <= b then a else b }
  function Max(a: real, b: real): real { if a >= b then a else b }

  /** Rx contribution: average monthly Rx spend of 0..400 mapped onto 0..0.2. */
  function RxFactor(avgRx: real): (f: real)
    ensures f <= 0.2
    ensures avgRx >= 0.0 ==> 0.0 <= f
    ensures avgRx >= 400.0 ==> f == 0.2
  {
    Min(avgRx / 400.0, 1.0) * 0.2
  }

  /** The risk rule of `compute_collective_risk`: the average age factor,
      plus 5% per average chronic condition, plus the Rx contribution when
      survey data exist, clamped into [0.5, 2.5]. `avgRx` is the database
      average of the members' reported monthly Rx spend. */
  function CollectiveRisk(members: seq<User>, avgRx: Option<real>): (r: RiskSummary)
    ensures r.memberCount == |members|
    ensures members == [] ==> r == RiskSummary(0, 1.0, None, 0.0)
    ensures members != [] ==> r.avgMonthlyRxSpend == avgRx
    ensures 0.5 <= r.riskScore <= 2.5
    ensures r.avgChronicPerUser >= 0.0
  {
    if members == [] then RiskSummary(0, 1.0, None, 0.0)
    else RiskFrom(|members|, SumAgeFactors(members), TotalConditions(members), avgRx)
  }

  /** The score of a non-empty membership from its age-factor sum and its
      condition total. */
  function RiskFrom(memberCount: nat, ageFactorSum: real, totalConditions: nat, avgRx: Option<real>): (r: RiskSummary)
    requires memberCount > 0
    ensures r.memberCount == memberCount && r.avgMonthlyRxSpend == avgRx
    ensures 0.5 <= r.riskScore <= 2.5
    ensures r.avgChronicPerUser >= 0.0
  {
    var n := memberCount as real;
    var avgAge := ageFactorSum / n;
    var avgChronic := totalConditions as real / n;
    var risk := avgAge + 0.05 * avgChronic + (if avgRx.Some? then RxFactor(avgRx.value) else 0.0);
    RiskSummary(memberCount, Max(0.5, Min(risk, 2.5)), avgRx, avgChronic)
  }

  /** The lower clamp only matters for negative Rx averages: with no Rx data
      or a non-negative average, the unclamped score is already at least 0.8. */
  lemma {:induction false} RiskFloorUnreached(members: seq<User>, avgRx: Option<real>)
    requires members != []
    requires avgRx.None? || avgRx.value >= 0.0
    ensures CollectiveRisk(members, avgRx).riskScore >= 0.8
  {
    var n := |members| as real;
    var ages := SumAgeFactors(members);
    var conditions := TotalConditions(members) as real;
    assert ages >= 0.8 * n;
    AverageAtLeastEightTenths(ages, n);
    AverageNonNegative(conditions, n);
  }

  lemma {:induction false} AverageAtLeastEightTenths(total: real, n: real)
    requires n > 0.0 && total >= 0.8 * n
    ensures total / n >= 0.8
  {
    var q := total / n;
    assert q * n == total;
  }

  lemma {:induction false} AverageNonNegative(total: real, n: real)
    requires n > 0.0 && total >= 0.0
    ensures total / n >= 0.0
  {
  }

  /** `compute_collective_risk`: the age factors are averaged and the
      condition counts totalled by a loop over the members. */
  method ComputeCollectiveRisk(members: seq<User>, avgRx: Option<real>) returns (r: RiskSummary)
    ensures r == CollectiveRisk(members, avgRx)
  {
    var memberCount := |members|;
    if memberCount == 0 {
      return RiskSummary(0, 1.0, None, 0.0);
    }
    var totalConditions := 0;
    var i := 0;
    while i < memberCount
      invariant 0 <= i <= memberCount
      invariant totalConditions == TotalConditions(members[..i])
    {
      totalConditions := totalConditions + ConditionCount(members[i].chronicConditions);
      assert members[..i + 1][..i] == members[..i];
      i := i + 1;
    }
    assert members[..memberCount] == members;
    r := RiskFrom(memberCount, SumAgeFactors(members), totalConditions, avgRx);
  }

  // ---------------------------------------------------------------------------
  // Insurer quotes
  // ---------------------------------------------------------------------------

  const BaselineIndividualPremium: real := 650.0
  const BasePremiumPerMember: real := 500.0
  const MaxDiscount: real := 0.25

  /** Size discount by membership tier. */
  function SizeDiscount(memberCount: int): (d: real)
    ensures memberCount >= 200 ==> d == 0.15
    ensures 50 <= memberCount < 200 ==> d == 0.10
    ensures 10 <= memberCount < 50 ==> d == 0.05
    ensures memberCount < 10 ==> d == 0.0
  {
    if memberCount >= 200 then 0.15
    else if memberCount >= 50 then 0.10
    else if memberCount >= 10 then 0.05
    else 0.0
  }

  /** A larger collective never gets a smaller size discount. */
  lemma {:induction false} SizeDiscountMonotone(a: int, b: int)
    requires a <= b
    ensures SizeDiscount(a) <= SizeDiscount(b)
  {
  }

  /** Deterministic per-supplier shift: (id mod 5 − 2) · 2%. Python's `%` by
      a positive number never returns a negative value, as Dafny's does. */
  function SupplierVariation(supplierId: int): (v: real)
    ensures -0.04 <= v <= 0.04
  {
    ((supplierId % 5) - 2) as real * 0.02
  }

  /** Size discount plus variation, clamped into [0, 0.25]. */
  function EffectiveDiscount(size: real, variation: real): (d: real)
    ensures 0.0 <= d <= MaxDiscount
    ensures 0.0 <= size + variation <= MaxDiscount ==> d == size + variation
  {
    Max(0.0, Min(size + variation, MaxDiscount))
  }

  /** The upper clamp never binds: the largest tier plus the largest shift is
      19%. */
  lemma {:induction false} DiscountBelowCap(memberCount: int, supplierId: int)
    ensures EffectiveDiscount(SizeDiscount(memberCount), SupplierVariation(supplierId)) <= 0.19
  {
  }

  /** `SupplierQuote` (values unrounded). */
  datatype SupplierQuote = SupplierQuote(
    supplierId: int,
    supplierName: string,
    supplierType: string,
    bidType: string,
    collectiveId: int,
    memberCount: nat,
    riskScore: real,
    basePremium: real,
    sizeDiscountFactor: real,
    supplierVariationFactor: real,
    finalPremium: real,
    estimatedSavingsPercent: real)

  /** `CollectiveQuoteResponse` (values unrounded). */
  datatype CollectiveQuoteResponse = CollectiveQuoteResponse(
    collectiveId: int,
    collectiveName: string,
    memberCount: nat,
    avgMonthlyRxSpend: Option<real>,
    avgChronicPerUser: real,
    riskScore: real,
    quotes: seq<SupplierQuote>)

  function Discount(s: Supplier, risk: RiskSummary): real {
    EffectiveDiscount(SizeDiscount(risk.memberCount), SupplierVariation(s.id))
  }

  /** The quote one insurer gets: 500 × risk per member, less the effective
      discount, with the saving measured against a 650 individual premium. */
  function QuoteFor(s: Supplier, collectiveId: int, risk: RiskSummary): (q: SupplierQuote)
    ensures q.supplierId == s.id && q.supplierType == s.supplierType && q.collectiveId == collectiveId
  {
    var base := BasePremiumPerMember * risk.riskScore;
    var finalPremium := base * (1.0 - Discount(s, risk));
    SupplierQuote(s.id, s.name, s.supplierType, "insurance_premium", collectiveId, risk.memberCount,
                  risk.riskScore, base, SizeDiscount(risk.memberCount), SupplierVariation(s.id),
                  finalPremium, (BaselineIndividualPremium - finalPremium) / BaselineIndividualPremium * 100.0)
  }

  /** A quote never charges more than the undiscounted base premium, and it
      reports a positive saving exactly when its premium is below the 650
      individual-market premium. */
  lemma {:induction false} QuotePricing(s: Supplier, collectiveId: int, risk: RiskSummary)
    requires risk.riskScore >= 0.0
    ensures var q := QuoteFor(s, collectiveId, risk);
            && q.basePremium == BasePremiumPerMember * risk.riskScore
            && q.finalPremium <= q.basePremium
            && (q.estimatedSavingsPercent > 0.0 <==> q.finalPremium < BaselineIndividualPremium)
  {
    var base := BasePremiumPerMember * risk.riskScore;
    var d := Discount(s, risk);
    MulNonNeg(base, d);
    assert base * (1.0 - d) == base - base * d;
    assert QuoteFor(s, collectiveId, risk).finalPremium == base * (1.0 - d);
  }

  /** For one insurer and one risk score, a collective with more members is
      never quoted a higher premium. */
  lemma {:induction false} LargerCollectiveNoDearer(s: Supplier, collectiveId: int, small: RiskSummary, large: RiskSummary)
    requires small.riskScore == large.riskScore >= 0.0
    requires small.memberCount <= large.memberCount
    ensures QuoteFor(s, collectiveId, large).finalPremium <= QuoteFor(s, collectiveId, small).finalPremium
  {
    SizeDiscountMonotone(small.memberCount, large.memberCount);
    var base := BasePremiumPerMember * small.riskScore;
    var d1, d2 := Discount(s, small), Discount(s, large);
    MulNonNeg(base, d2 - d1);
    assert base * (1.0 - d1) - base * (1.0 - d2) == base * (d2 - d1);
  }

  /** With a risk score inside the clamp (as `CollectiveRisk` guarantees),
      every quoted premium lies between 81% of 250 and 1250 per member. */
  lemma {:induction false} QuotePremiumBounds(s: Supplier, collectiveId: int, risk: RiskSummary)
    requires 0.5 <= risk.riskScore <= 2.5
    ensures 250.0 * 0.81 <= QuoteFor(s, collectiveId, risk).finalPremium <= 1250.0
  {
    DiscountBelowCap(risk.memberCount, s.id);
    var d := Discount(s, risk);
    var base := BasePremiumPerMember * risk.riskScore;
    ProductBounds(base, 1.0 - d);
    assert QuoteFor(s, collectiveId, risk).finalPremium == base * (1.0 - d);
  }

  lemma {:induction false} ProductBounds(x: real, y: real)
    requires 250.0 <= x <= 1250.0 && 0.81 <= y <= 1.0
    ensures 250.0 * 0.81 <= x * y <= 1250.0
  {
    MulNonNeg(x - 250.0, y);
    MulNonNeg(x, 1.0 - y);
    assert (x - 250.0) * y == x * y - 250.0 * y;
    assert x * (1.0 - y) == x - x * y;
    assert 250.0 * y >= 250.0 * 0.81;
    assert x * y >= 250.0 * y;
    assert x * y <= x;
  }

  lemma {:induction false} MulNonNeg(a: real, b: real)
    requires a >= 0.0 && b >= 0.0
    ensures a * b >= 0.0
  {
  }

  /** The analytics bid stored alongside each quote. */
  function BidFor(s: Supplier, collectiveId: int, risk: RiskSummary): (b: SupplierBid)
    ensures b.supplierId == s.id && b.collectiveId == Some(collectiveId)
    ensures b.monthlyPremium == Some(QuoteFor(s, collectiveId, risk).finalPremium)
    ensures b.discountPercent == Some(Discount(s, risk) * 100.0)
  {
    SupplierBid(s.id, Some(collectiveId), "insurance_premium",
                Some(QuoteFor(s, collectiveId, risk).finalPremium),
                Some(Discount(s, risk) * 100.0), Some("Simulated via quote-bidding engine"))
  }

  predicate IsInsurer(s: Supplier) {
    s.supplierType == "insurer"
  }

  function FinalPremium(q: SupplierQuote): real {
    q.finalPremium
  }

  /** One quote per insurer, in insurer order. */
  function QuotesFor(insurers: seq<Supplier>, collectiveId: int, risk: RiskSummary): (qs: seq<SupplierQuote>)
    ensures |qs| == |insurers|
    ensures forall k :: 0 <= k < |qs| ==> qs[k] == QuoteFor(insurers[k], collectiveId, risk)
  {
    if insurers == [] then []
    else QuotesFor(insurers[..|insurers| - 1], collectiveId, risk) + [QuoteFor(insurers[|insurers| - 1], collectiveId, risk)]
  }

  /** Every quote is for an insurer of the list, for the given collective. */
  lemma {:induction false} QuotesForInsurers(insurers: seq<Supplier>, collectiveId: int, risk: RiskSummary, q: SupplierQuote)
    requires forall s :: s in insurers ==> IsInsurer(s)
    requires q in multiset(QuotesFor(insurers, collectiveId, risk))
    ensures q.supplierType == "insurer" && q.collectiveId == collectiveId
  {
    var qs := QuotesFor(insurers, collectiveId, risk);
    var k :| 0 <= k < |qs| && qs[k] == q;
    assert insurers[k] in insurers;
  }

  /** The loop of `simulate_insurer_bids_for_collective`: a quote and a bid
      for each insurer, in order. */
  method QuoteInsurers(insurers: seq<Supplier>, collectiveId: int, risk: RiskSummary)
    returns (quotes: seq<SupplierQuote>, bids: seq<SupplierBid>)
    ensures quotes == QuotesFor(insurers, collectiveId, risk)
    ensures |bids| == |insurers|
    ensures forall k :: 0 <= k < |bids| ==> bids[k] == BidFor(insurers[k], collectiveId, risk)
  {
    quotes := [];
    bids := [];
    var i := 0;
    while i < |insurers|
      invariant 0 <= i <= |insurers|
      invariant |quotes| == i && forall k :: 0 <= k < i ==> quotes[k] == QuoteFor(insurers[k], collectiveId, risk)
      invariant |bids| == i && forall k :: 0 <= k < i ==> bids[k] == BidFor(insurers[k], collectiveId, risk)
    {
      quotes := quotes + [QuoteFor(insurers[i], collectiveId, risk)];
      bids := bids + [BidFor(insurers[i], collectiveId, risk)];
      i := i + 1;
    }
  }

  /** `simulate_insurer_bids_for_collective`: one quote and one stored bid
      per insurer, in supplier order; the quotes are returned sorted by final
      premium. `members` and `avgRx` are the results of the membership and
      survey queries; `suppliers` is the supplier table. */
  method SimulateInsurerBids(collective: Collective, members: seq<User>, avgRx: Option<real>, suppliers: seq<Supplier>)
    returns (response: CollectiveQuoteResponse, bids: seq<SupplierBid>)
    ensures var risk := CollectiveRisk(members, avgRx);
            && response.collectiveId == collective.id && response.collectiveName == collective.name
            && response.memberCount == |members| && response.riskScore == risk.riskScore
            && response.avgMonthlyRxSpend == risk.avgMonthlyRxSpend
            && response.avgChronicPerUser == risk.avgChronicPerUser
    ensures var insurers := Filter(suppliers, IsInsurer);
            var risk := CollectiveRisk(members, avgRx);
            && |bids| == |insurers|
            && (forall k :: 0 <= k < |bids| ==> bids[k] == BidFor(insurers[k], collective.id, risk))
            && multiset(response.quotes) == multiset(QuotesFor(insurers, collective.id, risk))
    ensures SortedBy(response.quotes, FinalPremium)
    ensures forall q :: q in response.quotes ==> q.supplierType == "insurer" && q.collectiveId == collective.id
  {
    var risk := ComputeCollectiveRisk(members, avgRx);
    var insurers := Filter(suppliers, IsInsurer);
    var quotes;
    quotes, bids := QuoteInsurers(insurers, collective.id, risk);
    var sorted := SortByKey(quotes, FinalPremium);
    SortByKeyCorrect(quotes, FinalPremium);
    forall q | q in sorted
      ensures q.supplierType == "insurer" && q.collectiveId == collective.id
    {
      assert q in multiset(sorted);
      QuotesForInsurers(insurers, collective.id, risk, q);
    }
    response := CollectiveQuoteResponse(collective.id, collective.name, risk.memberCount, risk.avgMonthlyRxSpend,
                                        risk.avgChronicPerUser, risk.riskScore, sorted);
  }
}
