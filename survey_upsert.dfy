/** Survey responses (src/surveys/services.py): one response per user; an
    upsert overwrites the fields the request set and keeps the others, or
    creates the user's response from the set fields. */
module SurveyUpsert {

  /** A column value of `survey_responses`; `Null` is an explicit `None`. */
  datatype Value = Int(i: int) | Real(r: real) | Text(s: string) | Bool(b: bool) | Null

  /** A stored response: the columns that hold a value, by column name. */
  datatype SurveyResponse = SurveyResponse(id: int, userId: int, fields: map<string, Value>)

  /** The response after `setattr` of every field the request set. */
  function Overlay(base: map<string, Value>, data: map<string, Value>): (r: map<string, Value>)
    ensures r.Keys == base.Keys + data.Keys
    ensures forall k :: k in data ==> r[k] == data[k]
    ensures forall k :: k in base && k !in data ==> r[k] == base[k]
  {
    map k | k in base.Keys + data.Keys :: if k in data then data[k] else base[k]
  }

  /** Setting the same fields again changes nothing. */
  lemma OverlayIdempotent(base: map<string, Value>, data: map<string, Value>)
    ensures Overlay(Overlay(base, data), data) == Overlay(base, data)
  {
  }

  /** The table after an upsert, and the next id: an update keeps the id,
      an insert takes the next one. */
  function Upserted(byUser: map<int, SurveyResponse>, nextId: int, userId: int, data: map<string, Value>)
    : (r: (map<int, SurveyResponse>, int))
    ensures r.0.Keys == byUser.Keys + {userId}
    ensures forall u :: u in byUser && u != userId ==> r.0[u] == byUser[u]
    ensures userId in byUser ==>
              r.0[userId] == byUser[userId].(fields := Overlay(byUser[userId].fields, data)) && r.1 == nextId
    ensures userId !in byUser ==> r.0[userId] == SurveyResponse(nextId, userId, data) && r.1 == nextId + 1
  {
    if userId in byUser then
      (byUser[userId := byUser[userId].(fields := Overlay(byUser[userId].fields, data))], nextId)
    else
      (byUser[userId := SurveyResponse(nextId, userId, data)], nextId + 1)
  }

  /** Upserting the same data twice stores what upserting it once stores. */
  lemma {:induction false} UpsertIdempotent(byUser: map<int, SurveyResponse>, nextId: int, userId: int,
                                            data: map<string, Value>)
    ensures var once := Upserted(byUser, nextId, userId, data);
            Upserted(once.0, once.1, userId, data) == once
  {
    var once := Upserted(byUser, nextId, userId, data);
    var twice := Upserted(once.0, once.1, userId, data);
    OverlayIdempotent(if userId in byUser then byUser[userId].fields else map[], data);
    assert once.0[userId].fields == Overlay(if userId in byUser then byUser[userId].fields else map[], data) by {
      if userId !in byUser {
        assert Overlay(map[], data) == data;
      }
    }
    assert twice.0[userId] == once.0[userId];
    assert twice.0 == once.0;
  }

  /** Setting one more of the request's fields. */
  lemma OverlayStep(existing: map<string, Value>, data: map<string, Value>, todo: set<string>, field: string)
    requires field in todo && todo <= data.Keys
    ensures Overlay(existing, data - (todo - {field})) == Overlay(existing, data - todo)[field := data[field]]
  {
  }

  /** The `setattr` loop of an update: every field the request set is
      written, one after the other. */
  method SetFields(existing: map<string, Value>, data: map<string, Value>) returns (fields: map<string, Value>)
    ensures fields == Overlay(existing, data)
  {
    fields := existing;
    var todo := data.Keys;
    while todo != {}
      invariant todo <= data.Keys
      invariant fields == Overlay(existing, data - todo)
      decreases todo
    {
      var field :| field in todo;
      OverlayStep(existing, data, todo, field);
      fields := fields[field := data[field]];
      todo := todo - {field};
    }
    assert data - {} == data;
  }

  /** The `survey_responses` table, keyed by the unique `user_id`. */
  class SurveyTable {
    var byUser: map<int, SurveyResponse>
    var nextId: int

    /** Each response is stored under its own user and ids are below `nextId`. */
    ghost predicate Valid()
      reads this
    {
      forall u :: u in byUser ==> byUser[u].userId == u && byUser[u].id < nextId
    }

    constructor ()
      ensures byUser == map[] && nextId == 1
      ensures Valid()
    {
      byUser := map[];
      nextId := 1;
    }

    /** `upsert_survey_response`: `data` holds the fields the request set
        (`exclude_unset=True`). */
    method Upsert(userId: int, data: map<string, Value>) returns (r: SurveyResponse)
      requires Valid()
      modifies this
      ensures Valid()
      ensures (byUser, nextId) == Upserted(old(byUser), old(nextId), userId, data)
      ensures r == byUser[userId]
      ensures r.userId == userId
    {
      if userId in byUser {
        var existing := byUser[userId];
        var fields := SetFields(existing.fields, data);
        r := existing.(fields := fields);
        byUser := byUser[userId := r];
        return;
      }
      r := SurveyResponse(nextId, userId, data);
      byUser := byUser[userId := r];
      nextId := nextId + 1;
    }
  }
}
