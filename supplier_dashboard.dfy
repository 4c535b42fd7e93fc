/** The dashboard endpoints (src/dashboard/router.py): the generic dashboard
    of the logged-in user, the supplier portal that splits a supplier's
    negotiations into open and closed lists, and the public overview of the
    splash page. */
module Dashboard {
  import opened Common
  import opened Models
  import NegotiationRouter

  type Negotiation = NegotiationRouter.Negotiation

  // ---------------------------------------------------------------------------
  // GET /me
  // ---------------------------------------------------------------------------

  datatype UserData = UserData(id: int, email: string, fullName: Option<string>, role: string)

  /** The `collective` block; `collectives` has no `category` column. */
  datatype CollectiveData = CollectiveData(id: int, name: string, category: Option<string>)

  datatype MyDashboard = MyDashboard(
    user: UserData,
    headline: string,
    role: string,
    collective: Option<CollectiveData>)

  /** The first collective row with the given id, if any. */
  function FindCollective(collectives: seq<Collective>, id: int): (r: Option<Collective>)
    ensures r.Some? ==> r.value in collectives && r.value.id == id
    ensures r.None? ==> forall c :: c in collectives ==> c.id != id
  {
    if collectives == [] then None
    else if collectives[0].id == id then Some(collectives[0])
    else FindCollective(collectives[1..], id)
  }

  /** `my_dashboard`: `memberships` are the (user_id, collective_id) rows in
      query order and `collectives` the collective rows. */
  function MyDashboardOf(user: User, memberships: seq<Membership>, collectives: seq<Collective>): (d: MyDashboard)
    ensures d.user == UserData(user.id, user.email, user.fullName, user.role)
    ensures d.role == user.role
    ensures Truthy(user.fullName) ==> d.headline == "Welcome back, " + user.fullName.value
    ensures !Truthy(user.fullName) ==> d.headline == "Welcome back, " + user.email
    ensures d.collective.Some? ==>
              && (user.id, d.collective.value.id) in memberships
              && d.collective.value.category.None?
              && exists c :: c in collectives && c.id == d.collective.value.id && c.name == d.collective.value.name
    ensures (forall c :: (user.id, c) !in memberships) ==> d.collective.None?
  {
    var collective :=
      match NegotiationRouter.FirstCollectiveOf(memberships, user.id)
      case None => None
      case Some(cid) =>
        match FindCollective(collectives, cid)
        case None => None
        case Some(c) => Some(CollectiveData(c.id, c.name, None));
    MyDashboard(UserData(user.id, user.email, user.fullName, user.role),
                "Welcome back, " + OrElse(user.fullName, user.email),
                user.role,
                collective)
  }

  /** The collective shown is the one of the user's first membership row, and
      it is shown whenever that collective exists. */
  lemma {:induction false} MyDashboardFirstMembership(user: User, memberships: seq<Membership>, collectives: seq<Collective>, cid: int)
    requires NegotiationRouter.FirstCollectiveOf(memberships, user.id) == Some(cid)
    requires exists c :: c in collectives && c.id == cid
    ensures MyDashboardOf(user, memberships, collectives).collective.Some?
    ensures MyDashboardOf(user, memberships, collectives).collective.value.id == cid
  {
    var c :| c in collectives && c.id == cid;
    assert FindCollective(collectives, cid).Some?;
  }

  // ---------------------------------------------------------------------------
  // GET /supplier/negotiations
  // ---------------------------------------------------------------------------

  /** `SupplierNegotiationSummary`. */
  datatype NegotiationSummary = NegotiationSummary(
    id: int,
    collectiveId: int,
    supplierId: int,
    status: string,
    targetPmpm: Option<real>,
    finalAgreedPmpm: Option<real>,
    lastRoundActor: Option<string>,
    lastRoundPmpm: Option<real>,
    lastRoundMlr: Option<real>,
    lastRoundCreatedAt: Option<int>,
    updatedAt: int)

  datatype SupplierDashboard = SupplierDashboard(
    supplierId: int,
    email: string,
    openNegotiations: seq<NegotiationSummary>,
    closedNegotiations: seq<NegotiationSummary>)

  /** Most recently updated first. */
  predicate UpdatedDescending(ns: seq<Negotiation>) {
    forall i, j :: 0 <= i < j < |ns| ==> ns[i].updatedAt >= ns[j].updatedAt
  }

  predicate SummariesDescending(es: seq<NegotiationSummary>) {
    forall i, j :: 0 <= i < j < |es| ==> es[i].updatedAt >= es[j].updatedAt
  }

  /** The query `supplier_id == caller ORDER BY updated_at DESC`, applied to
      the table as given in that order. */
  function OfSupplier(ns: seq<Negotiation>, supplierId: int): (r: seq<Negotiation>)
    ensures forall n :: n in r <==> n in ns && n.supplierId == supplierId
    ensures UpdatedDescending(ns) ==> UpdatedDescending(r)
  {
    if ns == [] then []
    else
      var rest := OfSupplier(ns[1..], supplierId);
      assert forall n :: n in rest ==> n in ns[1..];
      if ns[0].supplierId == supplierId then [ns[0]] + rest else rest
  }

  /** One list entry: the negotiation's own fields and those of its latest
      round (`sorted(rounds, key=round_number)[-1]`), or no round fields when
      it has no rounds. */
  function Summarize(n: Negotiation): (s: NegotiationSummary)
    ensures s.id == n.id && s.collectiveId == n.collectiveId && s.supplierId == n.supplierId
    ensures s.status == n.status && s.updatedAt == n.updatedAt
    ensures s.targetPmpm == n.targetPmpm && s.finalAgreedPmpm == n.finalAgreedPmpm
    ensures n.rounds == [] <==> s.lastRoundActor.None?
    ensures n.rounds == [] ==> s.lastRoundPmpm.None? && s.lastRoundMlr.None? && s.lastRoundCreatedAt.None?
    ensures n.rounds != [] ==> s.lastRoundPmpm.Some? && s.lastRoundCreatedAt.Some?
  {
    var last :=
      if n.rounds != [] then
        var latest := n.rounds[NegotiationRouter.LatestIndex(n.rounds)];
        (Some(latest.actor), Some(latest.proposedPmpm), latest.proposedMlr, Some(latest.createdAt))
      else (None, None, None, None);
    NegotiationSummary(n.id, n.collectiveId, n.supplierId, n.status, n.targetPmpm, n.finalAgreedPmpm,
                       last.0, last.1, last.2, last.3, n.updatedAt)
  }

  /** The round fields of an entry come from a round with the largest
      round_number, the last listed among equals. */
  lemma {:induction false} SummaryFromLatestRound(n: Negotiation)
    requires n.rounds != []
    ensures var s := Summarize(n);
            exists k :: && 0 <= k < |n.rounds|
                        && (forall j :: 0 <= j < |n.rounds| ==> n.rounds[j].roundNumber <= n.rounds[k].roundNumber)
                        && (forall j :: k < j < |n.rounds| ==> n.rounds[j].roundNumber < n.rounds[k].roundNumber)
                        && s.lastRoundActor == Some(n.rounds[k].actor)
                        && s.lastRoundPmpm == Some(n.rounds[k].proposedPmpm)
                        && s.lastRoundMlr == n.rounds[k].proposedMlr
                        && s.lastRoundCreatedAt == Some(n.rounds[k].createdAt)
  {
    var k := NegotiationRouter.LatestIndex(n.rounds);
    assert Summarize(n).lastRoundPmpm == Some(n.rounds[k].proposedPmpm);
  }

  /** For a negotiation whose rounds are numbered 1..n (every negotiation the
      negotiation endpoints produce), the entry reports the last round. */
  lemma {:induction false} SummaryOfWellFormed(n: Negotiation)
    requires NegotiationRouter.WellFormed(n) && n.rounds != []
    ensures var last := n.rounds[|n.rounds| - 1];
            && Summarize(n).lastRoundActor == Some(last.actor)
            && Summarize(n).lastRoundPmpm == Some(last.proposedPmpm)
            && Summarize(n).lastRoundMlr == last.proposedMlr
  {
    NegotiationRouter.LatestIsLast(n.rounds);
  }

  /** The entries of the open list (`open`) or of the closed list (`!open`),
      in input order: "open" and "in_progress" are open, every other status
      is closed. */
  function Items(ns: seq<Negotiation>, open: bool): (r: seq<NegotiationSummary>)
    ensures |r| <= |ns|
    decreases |ns|
  {
    if ns == [] then []
    else
      var last := ns[|ns| - 1];
      Items(ns[..|ns| - 1], open) + (if NegotiationRouter.IsOpenStatus(last.status) == open then [Summarize(last)] else [])
  }

  /** Every entry of a list summarises one of the negotiations and has the
      list's kind of status. */
  lemma {:induction false} ItemsSound(ns: seq<Negotiation>, open: bool)
    ensures forall e :: e in Items(ns, open) ==>
              NegotiationRouter.IsOpenStatus(e.status) == open && exists n :: n in ns && e == Summarize(n)
    decreases |ns|
  {
    if ns != [] {
      var front := ns[..|ns| - 1];
      ItemsSound(front, open);
      assert forall n :: n in front ==> n in ns;
    }
  }

  /** Every negotiation with the list's kind of status is in that list. */
  lemma {:induction false} ItemsComplete(ns: seq<Negotiation>, open: bool)
    ensures forall n :: n in ns && NegotiationRouter.IsOpenStatus(n.status) == open ==> Summarize(n) in Items(ns, open)
    decreases |ns|
  {
    if ns != [] {
      var front := ns[..|ns| - 1];
      ItemsComplete(front, open);
      assert forall n :: n in ns ==> n in front || n == ns[|ns| - 1];
    }
  }

  /** An entry is never more recent than the most recent negotiation. */
  lemma {:induction false} ItemsBounded(ns: seq<Negotiation>, open: bool, bound: int)
    requires forall n :: n in ns ==> n.updatedAt >= bound
    ensures forall e :: e in Items(ns, open) ==> e.updatedAt >= bound
    decreases |ns|
  {
    if ns != [] {
      var front := ns[..|ns| - 1];
      assert forall n :: n in front ==> n in ns;
      ItemsBounded(front, open, bound);
    }
  }

  /** `supplier_negotiation_dashboard`: `table` is the negotiations table in
      `updated_at` descending order. */
  method SupplierNegotiationDashboard(table: seq<Negotiation>, user: User) returns (d: SupplierDashboard)
    ensures d.supplierId == user.id && d.email == user.email
    ensures d.openNegotiations == Items(OfSupplier(table, user.id), true)
    ensures d.closedNegotiations == Items(OfSupplier(table, user.id), false)
  {
    var supplierId := user.id;
    var negotiations := OfSupplier(table, supplierId);
    var openItems: seq<NegotiationSummary> := [];
    var closedItems: seq<NegotiationSummary> := [];
    var i := 0;
    while i < |negotiations|
      invariant 0 <= i <= |negotiations|
      invariant openItems == Items(negotiations[..i], true)
      invariant closedItems == Items(negotiations[..i], false)
    {
      var n := negotiations[i];
      var entry := Summarize(n);
      ItemsStep(negotiations, i, true);
      ItemsStep(negotiations, i, false);
      if NegotiationRouter.IsOpenStatus(n.status) {
        openItems := openItems + [entry];
      } else {
        closedItems := closedItems + [entry];
      }
      i := i + 1;
    }
    assert negotiations[..i] == negotiations;
    d := SupplierDashboard(supplierId, user.email, openItems, closedItems);
  }

  /** One more negotiation of the query adds its entry to its own list. */
  lemma ItemsStep(ns: seq<Negotiation>, i: nat, open: bool)
    requires i < |ns|
    ensures Items(ns[..i + 1], open)
         == Items(ns[..i], open) + (if NegotiationRouter.IsOpenStatus(ns[i].status) == open then [Summarize(ns[i])] else [])
  {
    assert ns[..i + 1][..i] == ns[..i];
  }

  /** Every negotiation lands in exactly one of the two lists. */
  lemma {:induction false} ItemsPartition(ns: seq<Negotiation>)
    ensures |Items(ns, true)| + |Items(ns, false)| == |ns|
    decreases |ns|
  {
    if ns != [] {
      ItemsPartition(ns[..|ns| - 1]);
    }
  }

  /** Both lists keep the most-recently-updated-first order of the query. */
  lemma {:induction false} ItemsKeepOrder(ns: seq<Negotiation>, open: bool)
    requires UpdatedDescending(ns)
    ensures SummariesDescending(Items(ns, open))
    decreases |ns|
  {
    if ns != [] {
      var front := ns[..|ns| - 1];
      var last := ns[|ns| - 1];
      assert UpdatedDescending(front);
      ItemsKeepOrder(front, open);
      forall n | n in front ensures n.updatedAt >= last.updatedAt {
        var k :| 0 <= k < |front| && front[k] == n;
        assert ns[k] == n;
      }
      ItemsBounded(front, open, last.updatedAt);
    }
  }

  /** The portal lists only the caller's negotiations, each list in the
      query's order, and together they hold every one of them. */
  lemma {:induction false} SupplierDashboardCorrect(table: seq<Negotiation>, user: User)
    requires UpdatedDescending(table)
    ensures var mine := OfSupplier(table, user.id);
            && (forall e :: e in Items(mine, true) ==> e.supplierId == user.id)
            && (forall e :: e in Items(mine, false) ==> e.supplierId == user.id)
            && SummariesDescending(Items(mine, true))
            && SummariesDescending(Items(mine, false))
            && |Items(mine, true)| + |Items(mine, false)| == |mine|
  {
    var mine := OfSupplier(table, user.id);
    ItemsKeepOrder(mine, true);
    ItemsKeepOrder(mine, false);
    ItemsPartition(mine);
    ItemsSound(mine, true);
    ItemsSound(mine, false);
  }

  // ---------------------------------------------------------------------------
  // GET /public/overview
  // ---------------------------------------------------------------------------

  datatype CollectiveSummary = CollectiveSummary(id: int, name: string, category: Option<string>, memberCount: int)

  datatype PublicOverview = PublicOverview(
    collectives: seq<CollectiveSummary>,
    totalMembers: nat,
    totalInsurers: nat,
    totalProviders: nat)

  /** Number of users whose role is exactly `role`. */
  function CountRole(users: seq<User>, role: string): (k: nat)
    ensures k <= |users|
  {
    if users == [] then 0
    else (if users[0].role == role then 1 else 0) + CountRole(users[1..], role)
  }

  /** Users are counted under at most one of the three totals. */
  lemma {:induction false} RoleTotalsBounded(users: seq<User>)
    ensures CountRole(users, RoleMember) + CountRole(users, RoleSupplier) + CountRole(users, RoleProvider) <= |users|
  {
    if users != [] {
      RoleTotalsBounded(users[1..]);
    }
  }

  /** `public_overview`. A collective row has neither a `members` nor a
      `users` attribute (its relationship is `memberships`), so every member
      count falls back to 0. */
  method PublicOverviewOf(collectives: seq<Collective>, users: seq<User>) returns (o: PublicOverview)
    ensures |o.collectives| == |collectives|
    ensures forall k :: 0 <= k < |collectives| ==>
              && o.collectives[k].id == collectives[k].id
              && o.collectives[k].name == collectives[k].name
              && o.collectives[k].category.None?
              && o.collectives[k].memberCount == 0
    ensures o.totalMembers == CountRole(users, RoleMember)
    ensures o.totalInsurers == CountRole(users, RoleSupplier)
    ensures o.totalProviders == CountRole(users, RoleProvider)
  {
    var summaries: seq<CollectiveSummary> := [];
    var i := 0;
    while i < |collectives|
      invariant 0 <= i <= |collectives|
      invariant |summaries| == i
      invariant forall k :: 0 <= k < i ==>
                  summaries[k] == CollectiveSummary(collectives[k].id, collectives[k].name, None, 0)
    {
      var c := collectives[i];
      summaries := summaries + [CollectiveSummary(c.id, c.name, None, 0)];
      i := i + 1;
    }
    o := PublicOverview(summaries, CountRole(users, RoleMember), CountRole(users, RoleSupplier),
                        CountRole(users, RoleProvider));
  }
}
