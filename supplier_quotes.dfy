/** Supplier lookup and quote bidding (src/suppliers/router.py): a bid is
    always owned by the supplier named in the path, the quotes of a
    collective come cheapest first, and the comparison ranks them 1..n. */
module SupplierQuotes {
  import opened Common
  import opened Models

  /** A stored quote bid, in the shape the router returns (`QuoteBidOut`). */
  datatype QuoteBid = QuoteBid(id: int, supplierId: int, collectiveId: int, bundleId: Option<int>,
                               pmpm: real, expectedMlr: Option<real>, notes: Option<string>, createdAt: int)

  /** The body of `POST /{supplier_id}/quotes`. A `supplier_id` sent in the
      body plays no part: the path decides. */
  datatype QuoteBidCreate = QuoteBidCreate(collectiveId: int, bundleId: Option<int>, pmpm: real,
                                           expectedMlr: Option<real>, notes: Option<string>)

  const SupplierNotFound := HttpError(404, "Supplier not found")

  /** `get_supplier`: the first supplier with the id, or 404. */
  function GetSupplier(suppliers: seq<Supplier>, supplierId: int): (r: Result<Supplier>)
    ensures r.Err? <==> forall s :: s in suppliers ==> s.id != supplierId
    ensures r.Err? ==> r.error == SupplierNotFound
    ensures r.Ok? ==> r.value in suppliers && r.value.id == supplierId
    decreases |suppliers|
  {
    if suppliers == [] then Err(SupplierNotFound)
    else if suppliers[0].id == supplierId then Ok(suppliers[0])
    else
      assert forall s :: s in suppliers ==> s == suppliers[0] || s in suppliers[1..];
      GetSupplier(suppliers[1..], supplierId)
  }

  // ---------------------------------------------------------------------------
  // Quotes of a collective
  // ---------------------------------------------------------------------------

  function Pmpm(b: QuoteBid): real {
    b.pmpm
  }

  /** The bids for the collective, in table order. */
  function OfCollective(bids: seq<QuoteBid>, collectiveId: int): (r: seq<QuoteBid>)
    ensures |r| <= |bids|
    ensures forall b :: b in r <==> b in bids && b.collectiveId == collectiveId
    decreases |bids|
  {
    if bids == [] then []
    else (if bids[0].collectiveId == collectiveId then [bids[0]] else []) + OfCollective(bids[1..], collectiveId)
  }

  /** `list_collective_quotes`: the collective's bids by ascending PMPM. */
  function ListCollectiveQuotes(bids: seq<QuoteBid>, collectiveId: int): seq<QuoteBid> {
    SortByKey(OfCollective(bids, collectiveId), Pmpm)
  }

  /** The listing holds exactly the collective's bids, each as often as it
      is stored, cheapest first. */
  lemma {:induction false} ListCollectiveQuotesCorrect(bids: seq<QuoteBid>, collectiveId: int)
    ensures var r := ListCollectiveQuotes(bids, collectiveId);
            && multiset(r) == multiset(OfCollective(bids, collectiveId))
            && (forall b :: b in r <==> b in bids && b.collectiveId == collectiveId)
            && (forall i, j :: 0 <= i < j < |r| ==> r[i].pmpm <= r[j].pmpm)
  {
    var q := OfCollective(bids, collectiveId);
    SortByKeyCorrect(q, Pmpm);
    var r := ListCollectiveQuotes(bids, collectiveId);
    forall b ensures b in r <==> b in q {
      assert b in r <==> b in multiset(r);
      assert b in q <==> b in multiset(q);
    }
    forall i, j | 0 <= i < j < |r| ensures r[i].pmpm <= r[j].pmpm {
      assert Pmpm(r[i]) <= Pmpm(r[j]);
    }
  }

  /** One entry of the comparison payload. The bids carry no metal tier, so
      `getattr(bid, "metal_tier", None)` is always `None`. */
  datatype QuoteComparison = QuoteComparison(rank: nat, quoteId: int, supplierId: int, collectiveId: int,
                                             pmpm: real, metalTier: Option<string>, expectedMlr: Option<real>,
                                             notes: Option<string>, createdAt: int)

  /** The comparison payload: `message` only when there are no bids,
      `count` only when there are. */
  datatype Comparison = Comparison(collectiveId: int, results: seq<QuoteComparison>,
                                   message: Option<string>, count: Option<nat>)

  const NoBidsMessage := "No bids found for this collective."

  function Entry(rank: nat, b: QuoteBid): QuoteComparison {
    QuoteComparison(rank, b.id, b.supplierId, b.collectiveId, b.pmpm, None, b.expectedMlr, b.notes, b.createdAt)
  }

  /** `compare_collective_quotes`: the listing, numbered from 1 in order. */
  method CompareCollectiveQuotes(bids: seq<QuoteBid>, collectiveId: int) returns (r: Comparison)
    ensures r.collectiveId == collectiveId
    ensures ListCollectiveQuotes(bids, collectiveId) == [] <==> r.message == Some(NoBidsMessage)
    ensures r.message.Some? <==> r.count.None?
    ensures r.count.Some? ==> r.count.value == |r.results|
    ensures |r.results| == |ListCollectiveQuotes(bids, collectiveId)|
    ensures forall k :: 0 <= k < |r.results| ==> r.results[k] == Entry(k + 1, ListCollectiveQuotes(bids, collectiveId)[k])
  {
    var sorted := ListCollectiveQuotes(bids, collectiveId);
    if sorted == [] {
      return Comparison(collectiveId, [], Some(NoBidsMessage), None);
    }
    var comparisons: seq<QuoteComparison> := [];
    var idx := 1;
    while idx <= |sorted|
      invariant 1 <= idx <= |sorted| + 1
      invariant |comparisons| == idx - 1
      invariant forall k :: 0 <= k < idx - 1 ==> comparisons[k] == Entry(k + 1, sorted[k])
    {
      comparisons := comparisons + [Entry(idx, sorted[idx - 1])];
      idx := idx + 1;
    }
    r := Comparison(collectiveId, comparisons, None, Some(|comparisons|));
  }

  /** The ranks are 1..n in order, the PMPMs ascend with the rank, and every
      entry is one of the collective's bids. */
  lemma {:induction false} ComparisonRanked(bids: seq<QuoteBid>, collectiveId: int, results: seq<QuoteComparison>)
    requires |results| == |ListCollectiveQuotes(bids, collectiveId)|
    requires forall k :: 0 <= k < |results| ==> results[k] == Entry(k + 1, ListCollectiveQuotes(bids, collectiveId)[k])
    ensures forall k :: 0 <= k < |results| ==> results[k].rank == k + 1
    ensures forall i, j :: 0 <= i < j < |results| ==> results[i].pmpm <= results[j].pmpm
    ensures forall k :: 0 <= k < |results| ==> results[k].collectiveId == collectiveId
    ensures forall k :: 0 <= k < |results| ==>
              exists b :: b in bids && b.id == results[k].quoteId && b.pmpm == results[k].pmpm
  {
    var sorted := ListCollectiveQuotes(bids, collectiveId);
    ListCollectiveQuotesCorrect(bids, collectiveId);
    forall k | 0 <= k < |results| ensures results[k].collectiveId == collectiveId
      ensures exists b :: b in bids && b.id == results[k].quoteId && b.pmpm == results[k].pmpm
    {
      assert sorted[k] in sorted;
    }
  }

  // ---------------------------------------------------------------------------
  // Bidding
  // ---------------------------------------------------------------------------

  /** The `quote_bids` table. */
  class QuoteBook {
    var bids: seq<QuoteBid>
    var nextId: int

    /** Bid ids are assigned in increasing order and are below `nextId`. */
    ghost predicate Valid()
      reads this
    {
      && (forall i, j :: 0 <= i < j < |bids| ==> bids[i].id < bids[j].id)
      && (forall i :: 0 <= i < |bids| ==> bids[i].id < nextId)
    }

    constructor ()
      ensures bids == [] && nextId == 1
      ensures Valid()
    {
      bids := [];
      nextId := 1;
    }

    /** `create_quote_bid`: 404 for an unknown supplier; otherwise the bid is
        stored with the path's supplier id and the body's other fields.
        `now` is the database clock. */
    method CreateQuoteBid(suppliers: seq<Supplier>, supplierId: int, input: QuoteBidCreate, now: int)
      returns (r: Result<QuoteBid>)
      requires Valid()
      modifies this
      ensures Valid()
      ensures r.Err? <==> GetSupplier(suppliers, supplierId).Err?
      ensures r.Err? ==> r.error == SupplierNotFound && bids == old(bids) && nextId == old(nextId)
      ensures r.Ok? ==>
                && r.value == QuoteBid(old(nextId), supplierId, input.collectiveId, input.bundleId, input.pmpm,
                                       input.expectedMlr, input.notes, now)
                && bids == old(bids) + [r.value]
                && nextId == old(nextId) + 1
    {
      var supplier := GetSupplier(suppliers, supplierId);
      if supplier.Err? {
        return Err(supplier.error);
      }
      var bid := QuoteBid(nextId, supplierId, input.collectiveId, input.bundleId, input.pmpm,
                          input.expectedMlr, input.notes, now);
      bids := bids + [bid];
      nextId := nextId + 1;
      r := Ok(bid);
    }
  }

  /** After a successful bid, the collective's listing gains exactly that
      bid, owned by the path's supplier. */
  lemma {:induction false} NewBidListed(bids: seq<QuoteBid>, bid: QuoteBid)
    ensures multiset(ListCollectiveQuotes(bids + [bid], bid.collectiveId))
         == multiset(ListCollectiveQuotes(bids, bid.collectiveId)) + multiset{bid}
  {
    ListCollectiveQuotesCorrect(bids + [bid], bid.collectiveId);
    ListCollectiveQuotesCorrect(bids, bid.collectiveId);
    OfCollectiveAppend(bids, bid, bid.collectiveId);
  }

  lemma {:induction false} OfCollectiveAppend(bids: seq<QuoteBid>, bid: QuoteBid, collectiveId: int)
    ensures OfCollective(bids + [bid], collectiveId)
         == OfCollective(bids, collectiveId) + (if bid.collectiveId == collectiveId then [bid] else [])
    decreases |bids|
  {
    if bids == [] {
      assert [] + [bid] == [bid];
    } else {
      assert (bids + [bid])[1..] == bids[1..] + [bid];
      OfCollectiveAppend(bids[1..], bid, collectiveId);
    }
  }
}
