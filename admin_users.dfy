/** The admin's user list (health-republic-frontend/src/pages/AdminUsersPage.tsx):
    it loads every user, searches them by email, and deactivates or
    reactivates one user by id after the server has agreed. */
module AdminUsers {
  import opened Common
  import opened ApiClient

  /** `UserAdminSummary`. */
  datatype UserSummary = UserSummary(id: int, email: string, role: string, active: bool)

  /** `prev.map(u => u.id === id ? { ...u, active } : u)`. */
  function SetActive(users: seq<UserSummary>, id: int, active: bool): (r: seq<UserSummary>)
    ensures |r| == |users|
    ensures forall k :: 0 <= k < |users| && users[k].id == id ==> r[k] == users[k].(active := active)
    ensures forall k :: 0 <= k < |users| && users[k].id != id ==> r[k] == users[k]
  {
    seq(|users|, k requires 0 <= k < |users| => if users[k].id == id then users[k].(active := active) else users[k])
  }

  /** Of two switches of the same id the last one decides, so switching
      back to the flag the matching users had restores the list. */
  lemma SetActiveLastWins(users: seq<UserSummary>, id: int, a: bool, b: bool)
    ensures SetActive(SetActive(users, id, a), id, b) == SetActive(users, id, b)
    ensures (forall k :: 0 <= k < |users| && users[k].id == id ==> users[k].active == b)
            ==> SetActive(SetActive(users, id, a), id, b) == users
  {
    var once := SetActive(users, id, b);
    if forall k :: 0 <= k < |users| && users[k].id == id ==> users[k].active == b {
      assert forall k :: 0 <= k < |users| ==> once[k] == users[k];
    }
  }

  predicate Matches(search: string, u: UserSummary) {
    Contains(ToLower(u.email), ToLower(search))
  }

  /** `filteredUsers`: the users whose lower-cased email contains the
      lower-cased search, in list order. */
  function FilteredUsers(users: seq<UserSummary>, search: string): (r: seq<UserSummary>)
    ensures forall u :: u in r <==> u in users && Matches(search, u)
  {
    Filter(users, u => Matches(search, u))
  }

  /** The search keeps list order and repeats: the result for a
      concatenation is the concatenation of the results, and one user is
      kept exactly when the search matches it. */
  lemma {:induction false} FilteredUsersInOrder(a: seq<UserSummary>, b: seq<UserSummary>, u: UserSummary, search: string)
    ensures FilteredUsers(a + b, search) == FilteredUsers(a, search) + FilteredUsers(b, search)
    ensures FilteredUsers([u], search) == if Matches(search, u) then [u] else []
  {
    FilterAppend(a, b, u => Matches(search, u));
    FilterSingle(u, u => Matches(search, u));
  }

  /** An empty search shows every user. */
  lemma {:induction false} EmptySearchShowsAll(users: seq<UserSummary>)
    ensures FilteredUsers(users, "") == users
    decreases |users|
  {
    if users != [] {
      EmptyContained(ToLower(users[0].email));
      EmptySearchShowsAll(users[1..]);
      assert users == [users[0]] + users[1..];
    }
  }

  /** Only a signed-in user with the exact role "admin" sees the list. */
  predicate AccessDenied(user: Option<MeUser>) {
    user.None? || user.value.role != "admin"
  }

  class Page {
    var users: seq<UserSummary>
    var loading: bool
    var error: Option<string>
    var alerts: seq<string>
    /** The tokens the list was requested with, in order. */
    var requests: seq<string>

    constructor ()
      ensures users == [] && loading && error.None? && alerts == [] && requests == []
    {
      users := [];
      loading := true;
      error := None;
      alerts := [];
      requests := [];
    }

    /** The load effect, `result` being the answer: without a token the
        error is set and nothing is requested. */
    method Load(accessToken: Option<string>, result: Outcome<seq<UserSummary>>)
      modifies this
      ensures !loading && alerts == old(alerts)
      ensures !Truthy(accessToken) ==>
                error == Some("Missing access token") && requests == old(requests) && users == old(users)
      ensures Truthy(accessToken) ==> requests == old(requests) + [accessToken.value]
      ensures Truthy(accessToken) && result.Success? ==> users == result.value && error == old(error)
      ensures Truthy(accessToken) && result.Failure? ==>
                users == old(users) && error == Some(MessageOr(result.message, "Failed to load users"))
    {
      if !Truthy(accessToken) {
        error := Some("Missing access token");
        loading := false;
        return;
      }
      requests := requests + [accessToken.value];
      match result {
        case Success(data) =>
          users := data;
        case Failure(message) =>
          error := Some(MessageOr(message, "Failed to load users"));
      }
      loading := false;
    }

    /** `handleDeactivate` / `handleReactivate` (`active` false / true),
        `result` being the server's answer: a success switches the flag of
        the users with the id, a failure shows an alert and keeps the
        list. */
    method HandleSetActive(accessToken: Option<string>, id: int, active: bool, result: Outcome<()>)
      modifies this
      ensures loading == old(loading) && error == old(error) && requests == old(requests)
      ensures !Truthy(accessToken) ==> users == old(users) && alerts == old(alerts)
      ensures Truthy(accessToken) && result.Success? ==> users == SetActive(old(users), id, active) && alerts == old(alerts)
      ensures Truthy(accessToken) && result.Failure? ==>
                users == old(users)
                && alerts == old(alerts) + [(if active then "Failed to reactivate user: "
                                             else "Failed to deactivate user: ") + result.message]
    {
      if !Truthy(accessToken) {
        return;
      }
      match result {
        case Success(_) =>
          users := SetActive(users, id, active);
        case Failure(message) =>
          var prefix := if active then "Failed to reactivate user: " else "Failed to deactivate user: ";
          alerts := alerts + [prefix + message];
      }
    }
  }
}
