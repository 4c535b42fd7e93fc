/** Changing collective (health-republic-frontend/src/pages/MemberCollectivesPage.tsx):
    a member leaves the current collective when the target differs, joins
    the target unless already in it, and then reloads the dashboard. */
module MemberCollectives {
  import opened Common
  import opened ApiClient

  datatype Call = Leave(token: string, collectiveId: int) | Join(token: string, collectiveId: int)
                | Reload(path: string)

  const NotSignedIn := "You must be logged in to join a collective."

  /** `collective && collective.id`: a current collective with a non-zero id. */
  predicate HasCurrent(current: Option<int>) {
    current.Some? && current.value != 0
  }

  predicate Leaves(current: Option<int>, target: int) {
    HasCurrent(current) && current.value != target
  }

  predicate Joins(current: Option<int>, target: int) {
    !HasCurrent(current) || current.value != target
  }

  /** The requests of a change, in order: the leave (if any) before the
      join (if any). */
  function Plan(token: string, current: Option<int>, target: int): (r: seq<Call>)
    ensures Leave(token, if current.Some? then current.value else 0) in r <==> Leaves(current, target)
    ensures Join(token, target) in r <==> Joins(current, target)
    ensures forall c :: c in r ==> c.Leave? || c.Join?
    ensures Leaves(current, target) ==> r == [Leave(token, current.value), Join(token, target)]
  {
    (if Leaves(current, target) then [Leave(token, current.value)] else [])
    + (if Joins(current, target) then [Join(token, target)] else [])
  }

  /** A member who leaves always joins the target right after; only a
      member already in the target sends nothing. */
  lemma PlanCases(token: string, current: Option<int>, target: int)
    ensures Plan(token, current, target) == [] <==> HasCurrent(current) && current.value == target
    ensures !HasCurrent(current) ==> Plan(token, current, target) == [Join(token, target)]
  {
  }

  class Page {
    var error: Option<string>
    var joiningId: Option<int>
    var calls: seq<Call>

    constructor ()
      ensures error.None? && joiningId.None? && calls == []
    {
      error := None;
      joiningId := None;
      calls := [];
    }

    /** `handleChangeCollective`: `current` is the id of the member's
        collective, `leave` and `join` the answers to the two requests. A
        failed leave stops before the join. Either way the pending id is
        cleared. */
    method HandleChangeCollective(accessToken: Option<string>, current: Option<int>, target: int,
                                  leave: Outcome<()>, join: Outcome<()>)
      modifies this
      ensures !Truthy(accessToken) ==>
                error == Some(NotSignedIn) && calls == old(calls) && joiningId == old(joiningId)
      ensures Truthy(accessToken) ==> joiningId.None?
      ensures Truthy(accessToken) && Leaves(current, target) && leave.Failure? ==>
                && calls == old(calls) + [Leave(accessToken.value, current.value)]
                && error == Some(MessageOr(leave.message, "Failed to change collective"))
      ensures Truthy(accessToken) && (!Leaves(current, target) || leave.Success?) ==>
                var planned := old(calls) + Plan(accessToken.value, current, target);
                && (Joins(current, target) && join.Failure? ==>
                      calls == planned && error == Some(MessageOr(join.message, "Failed to change collective")))
                && (!Joins(current, target) || join.Success? ==>
                      calls == planned + [Reload("/dashboard")] && error.None?)
    {
      if !Truthy(accessToken) {
        error := Some(NotSignedIn);
        return;
      }
      var token := accessToken.value;
      joiningId := Some(target);
      error := None;
      if Leaves(current, target) {
        calls := calls + [Leave(token, current.value)];
        if leave.Failure? {
          error := Some(MessageOr(leave.message, "Failed to change collective"));
          joiningId := None;
          return;
        }
      }
      if Joins(current, target) {
        calls := calls + [Join(token, target)];
        if join.Failure? {
          error := Some(MessageOr(join.message, "Failed to change collective"));
          joiningId := None;
          return;
        }
      }
      calls := calls + [Reload("/dashboard")];
      joiningId := None;
    }
  }
}
