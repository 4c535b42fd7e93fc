/** The member dashboard (health-republic-frontend/src/pages/MemberDashboard.tsx):
    it loads the member's negotiations once a token is known and counts
    them by status. A request that settles after the effect was cleaned up
    changes nothing. */
module MemberDashboard {
  import opened Common
  import opened ApiClient

  datatype Stats = Stats(total: nat, open: nat, agreed: nat)

  predicate IsOpen(n: Negotiation) {
    n.status == "open" || n.status == "in_progress"
  }

  predicate IsAgreed(n: Negotiation) {
    n.status == "agreed"
  }

  /** The counts shown: every negotiation, the open or in-progress ones,
      the agreed ones. */
  function StatsOf(data: seq<Negotiation>): (s: Stats)
    ensures s.total == |data|
    ensures s.open <= |data| && s.agreed <= |data|
  {
    Stats(|data|, |Filter(data, IsOpen)|, |Filter(data, IsAgreed)|)
  }

  /** No negotiation is counted both open and agreed. */
  lemma {:induction false} StatsBounded(data: seq<Negotiation>)
    ensures StatsOf(data).open + StatsOf(data).agreed <= StatsOf(data).total
  {
    if data != [] {
      StatsBounded(data[1..]);
    }
  }

  /** The counts add up over a split of the list, and one negotiation
      counts as open exactly when its status is "open" or "in_progress" and
      as agreed exactly when it is "agreed": together these fix the counts
      of every list. */
  lemma {:induction false} StatsAdditive(a: seq<Negotiation>, b: seq<Negotiation>)
    ensures StatsOf(a + b) == Stats(StatsOf(a).total + StatsOf(b).total, StatsOf(a).open + StatsOf(b).open,
                                    StatsOf(a).agreed + StatsOf(b).agreed)
  {
    FilterAppend(a, b, IsOpen);
    FilterAppend(a, b, IsAgreed);
  }

  lemma StatsSingle(n: Negotiation)
    ensures StatsOf([n]) == Stats(1, if IsOpen(n) then 1 else 0, if IsAgreed(n) then 1 else 0)
  {
    assert [n][1..] == [];
  }

  class Page {
    var negotiations: seq<Negotiation>
    var stats: Stats
    var loading: bool
    var error: Option<string>
    /** The tokens the negotiations were requested with, in order: run `i`
        of the effect is the request `requests[i]`. */
    var requests: seq<string>
    /** The runs whose effect was cleaned up; each run has its own flag. */
    var cancelledRuns: set<nat>

    /** The counts always describe the list shown, and only runs that were
        started can have been cleaned up. */
    ghost predicate Valid()
      reads this
    {
      && stats == StatsOf(negotiations)
      && forall run :: run in cancelledRuns ==> run < |requests|
    }

    constructor ()
      ensures negotiations == [] && stats == Stats(0, 0, 0) && loading && error.None?
      ensures requests == [] && cancelledRuns == {}
      ensures Valid()
    {
      negotiations := [];
      stats := Stats(0, 0, 0);
      loading := true;
      error := None;
      requests := [];
      cancelledRuns := {};
    }

    /** The effect for a new token: without one it shows the missing-token
        error and starts nothing; otherwise it starts a fresh run, which no
        cleanup has touched yet, and returns its number. */
    method Start(accessToken: Option<string>) returns (run: Option<nat>)
      requires Valid()
      modifies this
      ensures Valid()
      ensures negotiations == old(negotiations) && stats == old(stats)
      ensures cancelledRuns == old(cancelledRuns)
      ensures !Truthy(accessToken) ==>
                && run.None? && !loading && error == Some("Missing access token")
                && requests == old(requests)
      ensures Truthy(accessToken) ==>
                && run == Some(|old(requests)|) && run.value !in cancelledRuns
                && loading && error.None?
                && requests == old(requests) + [accessToken.value]
    {
      if !Truthy(accessToken) {
        loading := false;
        error := Some("Missing access token");
        return None;
      }
      loading := true;
      error := None;
      run := Some(|requests|);
      requests := requests + [accessToken.value];
    }

    /** The cleanup of one run: it marks that run, and only that run, as
        cancelled. */
    method Cleanup(run: nat)
      requires Valid() && run < |requests|
      modifies this
      ensures Valid()
      ensures cancelledRuns == old(cancelledRuns) + {run}
      ensures negotiations == old(negotiations) && stats == old(stats) && loading == old(loading)
      ensures error == old(error) && requests == old(requests)
    {
      cancelledRuns := cancelledRuns + {run};
    }

    /** The request of `run` settles with `result`: the list and its counts
        on success, the message (or a default) on failure, and loading ends;
        once that run was cleaned up nothing changes, whatever later runs
        have started since. */
    method Settle(run: nat, result: Outcome<seq<Negotiation>>)
      requires Valid() && run < |requests|
      modifies this
      ensures Valid()
      ensures requests == old(requests) && cancelledRuns == old(cancelledRuns)
      ensures run in cancelledRuns ==>
                negotiations == old(negotiations) && stats == old(stats) && loading == old(loading)
                && error == old(error)
      ensures run !in cancelledRuns && result.Success? ==>
                negotiations == result.value && stats == StatsOf(result.value) && !loading
                && error == old(error)
      ensures run !in cancelledRuns && result.Failure? ==>
                negotiations == old(negotiations) && stats == old(stats) && !loading
                && error == Some(MessageOr(result.message, "Failed to load negotiations"))
    {
      if run in cancelledRuns {
        return;
      }
      match result {
        case Success(data) =>
          negotiations := data;
          stats := StatsOf(data);
        case Failure(message) =>
          error := Some(MessageOr(message, "Failed to load negotiations"));
      }
      loading := false;
    }
  }

  /** A token change while the first request is in flight: the first run is
      cleaned up, the second run's answer is shown, and the first run's late
      answer is ignored, so the page keeps showing the second list. */
  method StaleAnswerIgnored(first: string, second: string, stale: seq<Negotiation>, current: seq<Negotiation>)
    returns (shown: seq<Negotiation>, counts: Stats)
    requires first != "" && second != ""
    ensures shown == current && counts == StatsOf(current)
  {
    var page := new Page();
    var run1 := page.Start(Some(first));
    page.Cleanup(run1.value);
    var run2 := page.Start(Some(second));
    page.Settle(run2.value, Success(current));
    page.Settle(run1.value, Success(stale));
    shown, counts := page.negotiations, page.stats;
  }
}
