/** The procedure catalogue API (src/procedures/router.py): searching the
    catalogue, looking a code up, creating a bundle of procedures after
    validating its codes, and estimating a bundle's reference cost. */
module ProcedureRouter {
  import opened Common

  /** A row of the `procedures` table as the API returns it. */
  datatype ProcedureRow = ProcedureRow(id: int, code: string, description: string, codeSystem: string,
                                       referenceCost: Option<real>)

  // ---------------------------------------------------------------------------
  // Listing and lookup
  // ---------------------------------------------------------------------------

  /** Code order: the character-by-character order the `order_by(code)`
      query returns. */
  predicate CodeLe(a: string, b: string)
    decreases |a|
  {
    a == [] || (b != [] && (a[0] < b[0] || (a[0] == b[0] && CodeLe(a[1..], b[1..]))))
  }

  predicate SortedByCode(rows: seq<ProcedureRow>) {
    forall i, j :: 0 <= i < j < |rows| ==> CodeLe(rows[i].code, rows[j].code)
  }

  /** `code ILIKE %q% OR description ILIKE %q%`, without wildcards in `q`. */
  predicate Hit(row: ProcedureRow, q: string) {
    Contains(ToLower(row.code), ToLower(q)) || Contains(ToLower(row.description), ToLower(q))
  }

  /** The rows that match the search term, in table order. */
  function Matching(rows: seq<ProcedureRow>, q: string): (r: seq<ProcedureRow>)
    ensures |r| <= |rows|
    ensures forall x :: x in r ==> x in rows && Hit(x, q)
    ensures forall x :: x in rows && Hit(x, q) ==> x in r
    decreases |rows|
  {
    if rows == [] then []
    else
      var front := rows[..|rows| - 1];
      var last := rows[|rows| - 1];
      assert forall x :: x in rows ==> x in front || x == last;
      Matching(front, q) + (if Hit(last, q) then [last] else [])
  }

  /** Filtering keeps code order. */
  lemma {:induction false} MatchingSorted(rows: seq<ProcedureRow>, q: string)
    requires SortedByCode(rows)
    ensures SortedByCode(Matching(rows, q))
    decreases |rows|
  {
    if rows != [] {
      var front := rows[..|rows| - 1];
      var last := rows[|rows| - 1];
      assert SortedByCode(front) by {
        forall i, j | 0 <= i < j < |front| ensures CodeLe(front[i].code, front[j].code) {
          assert front[i] == rows[i] && front[j] == rows[j];
        }
      }
      MatchingSorted(front, q);
      var m := Matching(front, q);
      forall i | 0 <= i < |m| ensures CodeLe(m[i].code, last.code) {
        assert m[i] in front;
        var k :| 0 <= k < |front| && front[k] == m[i];
        assert rows[k] == m[i];
      }
    }
  }

  /** FastAPI's 422 for a `limit` outside `ge=1, le=200`. */
  const LimitOutOfRange := HttpError(422, "limit must be between 1 and 200")

  /** Default page size of the listing. */
  const DefaultLimit := 50

  /** `list_procedures`: `table` is the catalogue in code order; a truthy `q`
      filters it; at most `limit` rows are returned. */
  function ListProcedures(table: seq<ProcedureRow>, q: Option<string>, limit: int): (r: Result<seq<ProcedureRow>>)
    ensures r.Err? <==> limit < 1 || limit > 200
    ensures r.Err? ==> r.error == LimitOutOfRange
    ensures r.Ok? ==> |r.value| <= limit
  {
    if limit < 1 || limit > 200 then Err(LimitOutOfRange)
    else
      var hits := if Truthy(q) then Matching(table, q.value) else table;
      Ok(PyPrefix(hits, limit))
  }

  /** The listing returns catalogue rows that match the search, in code
      order: the first `limit` matches, and all of them when they fit. */
  lemma {:induction false} ListProceduresCorrect(table: seq<ProcedureRow>, q: Option<string>, limit: int)
    requires SortedByCode(table)
    requires 1 <= limit <= 200
    ensures var r := ListProcedures(table, q, limit).value;
            var hits := if Truthy(q) then Matching(table, q.value) else table;
            && (forall x :: x in r ==> x in table && (Truthy(q) ==> Hit(x, q.value)))
            && SortedByCode(r)
            && r == hits[..|r|]
            && |r| == (if |hits| < limit then |hits| else limit)
            && (|hits| <= limit ==> forall x :: x in table && (Truthy(q) ==> Hit(x, q.value)) ==> x in r)
  {
    var hits := if Truthy(q) then Matching(table, q.value) else table;
    if Truthy(q) {
      MatchingSorted(table, q.value);
    }
    var r := ListProcedures(table, q, limit).value;
    forall x | x in r ensures x in hits {
      var k :| 0 <= k < |r| && r[k] == x;
      assert hits[k] == x;
    }
    forall i, j | 0 <= i < j < |r| ensures CodeLe(r[i].code, r[j].code) {
      assert r[i] == hits[i] && r[j] == hits[j];
    }
  }

  const ProcedureNotFound := HttpError(404, "Procedure not found")

  /** `get_procedure_by_code`: the first row with the code, or 404. */
  function GetProcedure(table: seq<ProcedureRow>, code: string): (r: Result<ProcedureRow>)
    ensures r.Err? <==> forall x :: x in table ==> x.code != code
    ensures r.Err? ==> r.error == ProcedureNotFound
    ensures r.Ok? ==> r.value in table && r.value.code == code
    decreases |table|
  {
    if table == [] then Err(ProcedureNotFound)
    else if table[0].code == code then Ok(table[0])
    else
      assert forall x :: x in table ==> x == table[0] || x in table[1..];
      GetProcedure(table[1..], code)
  }

  // ---------------------------------------------------------------------------
  // Bundles
  // ---------------------------------------------------------------------------

  datatype BundleItemIn = BundleItemIn(procedureCode: string, quantity: int)

  datatype BundleCreate = BundleCreate(name: string, description: Option<string>, category: Option<string>,
                                       isActive: bool, items: seq<BundleItemIn>)

  datatype BundleItem = BundleItem(procedureId: int, quantity: int)

  datatype Bundle = Bundle(id: int, name: string, description: Option<string>, category: Option<string>,
                           isActive: bool, items: seq<BundleItem>)

  const EmptyBundle := HttpError(400, "Bundle must contain at least one procedure.")

  /** `item.quantity or 1`: a zero quantity becomes 1. */
  function QuantityOrOne(quantity: int): (q: int)
    ensures q != 0
    ensures quantity != 0 ==> q == quantity
  {
    if quantity != 0 then quantity else 1
  }

  /** The trimmed codes of the items, in item order. */
  function TrimmedCodes(items: seq<BundleItemIn>): (codes: seq<string>)
    ensures |codes| == |items|
    ensures forall k :: 0 <= k < |items| ==> codes[k] == Trim(items[k].procedureCode)
  {
    seq(|items|, k requires 0 <= k < |items| => Trim(items[k].procedureCode))
  }

  /** The codes that are not in the catalogue, in order, repeats included. */
  function Missing(codes: seq<string>, catalogue: map<string, ProcedureRow>): (m: seq<string>)
    ensures |m| <= |codes|
    ensures forall c :: c in m <==> c in codes && c !in catalogue
    decreases |codes|
  {
    if codes == [] then []
    else (if codes[0] in catalogue then [] else [codes[0]]) + Missing(codes[1..], catalogue)
  }

  /** Python's `str(list)` of a list of strings, for strings without quotes
      or backslashes. */
  function ListRepr(xs: seq<string>): string {
    "[" + JoinQuoted(xs) + "]"
  }

  function JoinQuoted(xs: seq<string>): string
    decreases |xs|
  {
    if xs == [] then ""
    else if |xs| == 1 then "'" + xs[0] + "'"
    else "'" + xs[0] + "', " + JoinQuoted(xs[1..])
  }

  function UnknownCodes(missing: seq<string>): HttpError {
    HttpError(400, "Unknown procedure codes in bundle: " + ListRepr(missing))
  }

  /** No code is missing exactly when every code is in the catalogue. */
  lemma {:induction false} NoneMissing(codes: seq<string>, catalogue: map<string, ProcedureRow>)
    ensures Missing(codes, catalogue) == [] <==> forall k :: 0 <= k < |codes| ==> codes[k] in catalogue
  {
    var m := Missing(codes, catalogue);
    if m != [] {
      assert m[0] in codes;
    } else {
      forall k | 0 <= k < |codes| ensures codes[k] in catalogue {
        assert codes[k] !in m;
      }
    }
  }

  /** The validation of `create_procedure_bundle`: an empty item list, then
      any code missing from the catalogue, is a 400; otherwise the trimmed
      codes. */
  function ValidateBundle(catalogue: map<string, ProcedureRow>, items: seq<BundleItemIn>): (r: Result<seq<string>>)
    ensures items == [] <==> r == Err(EmptyBundle)
    ensures r.Err? && items != [] ==> r.error == UnknownCodes(Missing(TrimmedCodes(items), catalogue))
    ensures r.Ok? <==> items != [] && Missing(TrimmedCodes(items), catalogue) == []
    ensures r.Ok? ==> r.value == TrimmedCodes(items)
  {
    var codes := TrimmedCodes(items);
    var missing := Missing(codes, catalogue);
    if codes == [] then Err(EmptyBundle)
    else if missing != [] then
      assert UnknownCodes(missing).detail[0] != EmptyBundle.detail[0];
      Err(UnknownCodes(missing))
    else Ok(codes)
  }

  /** A bundle passes validation exactly when it has items and every trimmed
      code is in the catalogue. */
  lemma {:induction false} ValidateBundleAccepts(catalogue: map<string, ProcedureRow>, items: seq<BundleItemIn>)
    ensures ValidateBundle(catalogue, items).Ok? <==>
              items != [] && forall k :: 0 <= k < |items| ==> Trim(items[k].procedureCode) in catalogue
  {
    NoneMissing(TrimmedCodes(items), catalogue);
  }

  /** A catalogue keyed by code, as `{p.code: p for p in procedures}` builds it. */
  predicate KeyedByCode(catalogue: map<string, ProcedureRow>) {
    forall c :: c in catalogue ==> catalogue[c].code == c
  }

  const BundleNotFound := HttpError(404, "Bundle not found")

  /** The first bundle with the id. */
  function FindBundle(bundles: seq<Bundle>, id: int): (r: Option<Bundle>)
    ensures r.None? <==> forall b :: b in bundles ==> b.id != id
    ensures r.Some? ==> r.value in bundles && r.value.id == id
    decreases |bundles|
  {
    if bundles == [] then None
    else if bundles[0].id == id then Some(bundles[0])
    else
      assert forall b :: b in bundles ==> b == bundles[0] || b in bundles[1..];
      FindBundle(bundles[1..], id)
  }

  /** One line of the estimate. */
  datatype ItemEstimate = ItemEstimate(code: string, description: string, quantity: int,
                                       referenceCost: Option<real>, lineTotal: Option<real>)

  datatype BundleEstimate = BundleEstimate(bundleId: int, bundleName: string, category: Option<string>,
                                           total: real, items: seq<ItemEstimate>)

  /** `ref * (item.quantity or 1)`. */
  function LineTotal(reference: real, quantity: int): real {
    reference * QuantityOrOne(quantity) as real
  }

  /** The estimate line of a bundle item: the cost times `quantity or 1`,
      absent exactly when the procedure has no reference cost. */
  function EstimateLine(p: ProcedureRow, quantity: int): (e: ItemEstimate)
    ensures e.lineTotal.None? <==> p.referenceCost.None?
    ensures e.lineTotal.Some? ==> e.lineTotal.value == LineTotal(p.referenceCost.value, quantity)
    ensures e.code == p.code && e.description == p.description && e.quantity == quantity
    ensures e.referenceCost == p.referenceCost
  {
    ItemEstimate(p.code, p.description, quantity, p.referenceCost,
                 if p.referenceCost.Some? then Some(LineTotal(p.referenceCost.value, quantity)) else None)
  }

  /** The sum of the line totals that are present. */
  function PricedTotal(lines: seq<ItemEstimate>): real
    decreases |lines|
  {
    if lines == [] then 0.0
    else PricedTotal(lines[..|lines| - 1])
         + (if lines[|lines| - 1].lineTotal.Some? then lines[|lines| - 1].lineTotal.value else 0.0)
  }

  /** With non-negative costs and quantities the total is non-negative, and
      it is the sum over the priced lines alone. */
  lemma {:induction false} PricedTotalNonNegative(lines: seq<ItemEstimate>)
    requires forall k :: 0 <= k < |lines| ==> lines[k].lineTotal.Some? ==> lines[k].lineTotal.value >= 0.0
    ensures PricedTotal(lines) >= 0.0
    decreases |lines|
  {
    if lines != [] {
      PricedTotalNonNegative(lines[..|lines| - 1]);
    }
  }

  /** Unpriced lines do not move the total. */
  lemma {:induction false} UnpricedLinesIgnored(lines: seq<ItemEstimate>)
    requires forall k :: 0 <= k < |lines| ==> lines[k].lineTotal.None?
    ensures PricedTotal(lines) == 0.0
    decreases |lines|
  {
    if lines != [] {
      UnpricedLinesIgnored(lines[..|lines| - 1]);
    }
  }

  /** A line of a procedure with a non-negative cost and a non-negative
      quantity is non-negative. */
  lemma EstimateLineNonNegative(p: ProcedureRow, quantity: int)
    requires p.referenceCost.Some? ==> p.referenceCost.value >= 0.0
    requires quantity >= 0
    ensures EstimateLine(p, quantity).lineTotal.Some? ==> EstimateLine(p, quantity).lineTotal.value >= 0.0
  {
    if p.referenceCost.Some? {
      assert QuantityOrOne(quantity) as real >= 1.0;
      MulNonNegative(p.referenceCost.value, QuantityOrOne(quantity) as real);
      assert LineTotal(p.referenceCost.value, quantity) >= 0.0;
    }
  }

  lemma MulNonNegative(a: real, b: real)
    requires a >= 0.0 && b >= 0.0
    ensures a * b >= 0.0
  {
  }

  /** The bundle items of `create_procedure_bundle`'s loop: one per input
      item, pointing at the catalogue row of its trimmed code, with the
      quantity `or 1`. */
  method ResolveItems(catalogue: map<string, ProcedureRow>, codes: seq<string>, inputs: seq<BundleItemIn>)
    returns (items: seq<BundleItem>)
    requires |codes| == |inputs|
    requires forall k :: 0 <= k < |codes| ==> codes[k] in catalogue
    ensures |items| == |inputs|
    ensures forall k :: 0 <= k < |inputs| ==>
              items[k] == BundleItem(catalogue[codes[k]].id, QuantityOrOne(inputs[k].quantity))
  {
    items := [];
    var k := 0;
    while k < |inputs|
      invariant 0 <= k <= |inputs|
      invariant |items| == k
      invariant forall m :: 0 <= m < k ==> items[m] == BundleItem(catalogue[codes[m]].id, QuantityOrOne(inputs[m].quantity))
    {
      var proc := catalogue[codes[k]];
      items := items + [BundleItem(proc.id, QuantityOrOne(inputs[k].quantity))];
      k := k + 1;
    }
  }

  /** The `procedure_bundles` table with its items. */
  class BundleStore {
    var bundles: seq<Bundle>
    var nextId: int

    /** Bundle ids are assigned in increasing order and are below `nextId`. */
    ghost predicate Valid()
      reads this
    {
      && (forall i, j :: 0 <= i < j < |bundles| ==> bundles[i].id < bundles[j].id)
      && (forall i :: 0 <= i < |bundles| ==> bundles[i].id < nextId)
    }

    constructor ()
      ensures bundles == [] && nextId == 1
      ensures Valid()
    {
      bundles := [];
      nextId := 1;
    }

    /** `create_procedure_bundle`: validates the codes, then stores the
        bundle under a fresh id with one item per input item, each pointing
        at the catalogue row of its trimmed code. Nothing is stored on a
        validation error. */
    method CreateBundle(catalogue: map<string, ProcedureRow>, input: BundleCreate) returns (r: Result<Bundle>)
      requires Valid()
      modifies this
      ensures Valid()
      ensures r.Err? <==> ValidateBundle(catalogue, input.items).Err?
      ensures r.Err? ==> r.error == ValidateBundle(catalogue, input.items).error
      ensures r.Err? ==> bundles == old(bundles) && nextId == old(nextId)
      ensures r.Ok? ==>
                && bundles == old(bundles) + [r.value]
                && nextId == old(nextId) + 1
                && r.value.id == old(nextId)
                && r.value.name == input.name && r.value.description == input.description
                && r.value.category == input.category && r.value.isActive == input.isActive
                && |r.value.items| == |input.items|
                && (forall k :: 0 <= k < |input.items| ==>
                      var code := Trim(input.items[k].procedureCode);
                      && code in catalogue
                      && r.value.items[k] == BundleItem(catalogue[code].id, QuantityOrOne(input.items[k].quantity)))
    {
      var checked := ValidateBundle(catalogue, input.items);
      if checked.Err? {
        return Err(checked.error);
      }
      ValidateBundleAccepts(catalogue, input.items);
      var items := ResolveItems(catalogue, checked.value, input.items);
      var bundle := Bundle(nextId, input.name, input.description, input.category, input.isActive, items);
      bundles := bundles + [bundle];
      nextId := nextId + 1;
      r := Ok(bundle);
    }

    /** `estimate_bundle_reference_cost`: 404 for an unknown bundle; one
        estimate line per item, and the total over the priced lines.
        `procedures` resolves an item's procedure id (a foreign key, so
        every item's procedure exists). */
    method EstimateBundle(procedures: map<int, ProcedureRow>, bundleId: int) returns (r: Result<BundleEstimate>)
      requires forall b, it :: b in bundles && it in b.items ==> it.procedureId in procedures
      ensures r.Err? <==> FindBundle(bundles, bundleId).None?
      ensures r.Err? ==> r.error == BundleNotFound
      ensures r.Ok? ==>
                var b := FindBundle(bundles, bundleId).value;
                && r.value.bundleId == bundleId && r.value.bundleName == b.name && r.value.category == b.category
                && |r.value.items| == |b.items|
                && (forall k :: 0 <= k < |b.items| ==>
                      r.value.items[k] == EstimateLine(procedures[b.items[k].procedureId], b.items[k].quantity))
                && r.value.total == PricedTotal(r.value.items)
    {
      var found := FindBundle(bundles, bundleId);
      if found.None? {
        return Err(BundleNotFound);
      }
      var b := found.value;
      var lines: seq<ItemEstimate> := [];
      var total := 0.0;
      var k := 0;
      while k < |b.items|
        invariant 0 <= k <= |b.items|
        invariant |lines| == k
        invariant forall m :: 0 <= m < k ==> lines[m] == EstimateLine(procedures[b.items[m].procedureId], b.items[m].quantity)
        invariant total == PricedTotal(lines)
      {
        var item := b.items[k];
        var proc := procedures[item.procedureId];
        var reference := if proc.referenceCost.Some? then proc.referenceCost.value else 0.0;
        var lineTotal := LineTotal(reference, item.quantity);
        if proc.referenceCost.Some? {
          total := total + lineTotal;
        }
        var line := ItemEstimate(proc.code, proc.description, item.quantity, proc.referenceCost,
                                 if proc.referenceCost.Some? then Some(lineTotal) else None);
        assert line == EstimateLine(proc, item.quantity);
        lines := lines + [line];
        k := k + 1;
      }
      r := Ok(BundleEstimate(bundleId, b.name, b.category, total, lines));
    }
  }
}
