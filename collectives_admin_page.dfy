/** The admin's collective editor
    (health-republic-frontend/src/pages/CollectivesAdminPage.tsx): one form
    that either creates a collective (prepended to the list) or edits the
    one picked (replaced in place), and a confirmed delete that drops the
    collective from the list. */
module CollectivesAdminPage {
  import opened Common
  import opened ApiClient

  datatype Mode = Create | Edit

  /** The body of a create or update: the trimmed name, and the trimmed
      category or `null`. */
  datatype Payload = Payload(name: string, category: Option<string>)

  datatype Call = CreateCollective(token: string, body: Payload)
                | UpdateCollective(token: string, id: int, body: Payload)
                | DeleteCollective(token: string, id: int)

  const NameRequired := "Name is required"

  function PayloadOf(name: string, category: string): (p: Payload)
    ensures p.name == Trim(name)
    ensures p.category.None? <==> AllSpace(category)
    ensures p.category.Some? ==> p.category.value == Trim(category)
  {
    Payload(Trim(name), NonEmpty(Trim(category)))
  }

  /** `prev.map(c => c.id === id ? updated : c)`. */
  function ReplaceById(list: seq<CollectiveSummary>, id: int, updated: CollectiveSummary)
    : (r: seq<CollectiveSummary>)
    ensures |r| == |list|
    ensures forall k :: 0 <= k < |list| ==> r[k] == if list[k].id == id then updated else list[k]
  {
    seq(|list|, k requires 0 <= k < |list| => if list[k].id == id then updated else list[k])
  }

  /** `prev.filter(c => c.id !== id)`. */
  function RemoveById(list: seq<CollectiveSummary>, id: int): (r: seq<CollectiveSummary>)
    ensures forall c :: c in r <==> c in list && c.id != id
  {
    Filter(list, (c: CollectiveSummary) => c.id != id)
  }

  /** Removal keeps list order and repeats: removing from a concatenation
      removes from each part, and one entry is kept exactly when its id
      differs. */
  lemma {:induction false} RemoveByIdInOrder(a: seq<CollectiveSummary>, b: seq<CollectiveSummary>, c: CollectiveSummary, id: int)
    ensures RemoveById(a + b, id) == RemoveById(a, id) + RemoveById(b, id)
    ensures RemoveById([c], id) == if c.id != id then [c] else []
  {
    FilterAppend(a, b, (c: CollectiveSummary) => c.id != id);
    FilterSingle(c, (c: CollectiveSummary) => c.id != id);
  }

  /** Removing an id removes every entry with it and shortens the list by
      exactly their number. */
  lemma {:induction false} RemoveByIdCount(list: seq<CollectiveSummary>, id: int)
    ensures |RemoveById(list, id)| + |Filter(list, (c: CollectiveSummary) => c.id == id)| == |list|
    decreases |list|
  {
    if list != [] {
      RemoveByIdCount(list[1..], id);
    }
  }

  /** The form: its mode, the collective being edited, and the two
      fields. */
  datatype Form = Form(mode: Mode, editingId: Option<int>, name: string, category: string)

  const EmptyForm := Form(Create, None, "", "")

  /** The request a submit sends: a create, or an update of the edited
      collective; an edit form that knows no id sends nothing. */
  function SaveCall(token: string, form: Form): (r: Option<Call>)
    ensures form.mode == Create ==> r == Some(CreateCollective(token, PayloadOf(form.name, form.category)))
    ensures form.mode == Edit && form.editingId.Some? ==>
              r == Some(UpdateCollective(token, form.editingId.value, PayloadOf(form.name, form.category)))
    ensures form.mode == Edit && form.editingId.None? ==> r.None?
  {
    var payload := PayloadOf(form.name, form.category);
    if form.mode == Create then Some(CreateCollective(token, payload))
    else if form.editingId.Some? then Some(UpdateCollective(token, form.editingId.value, payload))
    else None
  }

  /** The list after a saved submit: a created collective goes first, an
      updated one replaces every entry with the edited id. */
  function Saved(list: seq<CollectiveSummary>, form: Form, value: CollectiveSummary): (r: seq<CollectiveSummary>)
    ensures form.mode == Create ==> r == [value] + list
    ensures form.mode == Edit && form.editingId.Some? ==> r == ReplaceById(list, form.editingId.value, value)
    ensures form.mode == Edit && form.editingId.None? ==> r == list
  {
    if form.mode == Create then [value] + list
    else if form.editingId.Some? then ReplaceById(list, form.editingId.value, value)
    else list
  }

  function Sent(calls: seq<Call>, call: Option<Call>): seq<Call> {
    if call.Some? then calls + [call.value] else calls
  }

  /** A non-admin user sees the permission message; a missing user does
      not (unlike the user list). */
  predicate Forbidden(user: Option<MeUser>) {
    user.Some? && user.value.role != "admin"
  }

  class Page {
    var collectives: seq<CollectiveSummary>
    var error: Option<string>
    var form: Form
    var saving: bool
    var deleteError: Option<string>
    var calls: seq<Call>

    /** The form edits a collective exactly when it knows which. */
    ghost predicate Valid()
      reads this
    {
      form.mode == Edit <==> form.editingId.Some?
    }

    constructor ()
      ensures collectives == [] && error.None? && form == EmptyForm && !saving && deleteError.None? && calls == []
      ensures Valid()
    {
      collectives := [];
      error := None;
      form := EmptyForm;
      saving := false;
      deleteError := None;
      calls := [];
    }

    /** `resetForm`: back to an empty create form. */
    method ResetForm()
      modifies this
      ensures form == EmptyForm
      ensures collectives == old(collectives) && error == old(error) && saving == old(saving)
      ensures deleteError == old(deleteError) && calls == old(calls)
      ensures Valid()
    {
      form := EmptyForm;
    }

    /** `startEdit`: the form takes the collective's id, name and category,
        a missing category showing as empty. */
    method StartEdit(c: CollectiveSummary)
      modifies this
      ensures form == Form(Edit, Some(c.id), c.name, if c.category.Some? then c.category.value else "")
      ensures collectives == old(collectives) && error == old(error) && saving == old(saving)
      ensures deleteError == old(deleteError) && calls == old(calls)
      ensures Valid()
    {
      form := Form(Edit, Some(c.id), c.name, OrElse(c.category, ""));
    }

    /** `handleSubmit`, `saved` being the server's answer: a blank name is
        refused and nothing is sent; otherwise the save request goes out.
        Success puts the answer in the list and resets the form; failure
        shows its message and keeps list and form. */
    method HandleSubmit(accessToken: Option<string>, saved: Outcome<CollectiveSummary>)
      requires Valid()
      modifies this
      ensures Valid()
      ensures deleteError == old(deleteError)
      ensures !Truthy(accessToken) ==>
                collectives == old(collectives) && error == old(error) && calls == old(calls)
                && form == old(form) && saving == old(saving)
      ensures Truthy(accessToken) && AllSpace(old(form).name) ==>
                collectives == old(collectives) && error == Some(NameRequired) && calls == old(calls)
                && form == old(form) && saving == old(saving)
      ensures Truthy(accessToken) && !AllSpace(old(form).name) ==>
                && !saving
                && calls == Sent(old(calls), SaveCall(accessToken.value, old(form)))
                && (saved.Success? ==>
                      error.None? && form == EmptyForm && collectives == Saved(old(collectives), old(form), saved.value))
                && (saved.Failure? ==>
                      && error == Some(MessageOr(saved.message, "Failed to save collective"))
                      && collectives == old(collectives) && form == old(form))
    {
      if !Truthy(accessToken) {
        return;
      }
      if Trim(form.name) == "" {
        error := Some(NameRequired);
        return;
      }
      saving := true;
      error := None;
      calls := Sent(calls, SaveCall(accessToken.value, form));
      match saved {
        case Success(value) =>
          collectives := Saved(collectives, form, value);
          ResetForm();
        case Failure(message) =>
          error := Some(MessageOr(message, "Failed to save collective"));
      }
      saving := false;
    }

    /** `handleDelete`, `confirmed` being the answer to the confirmation
        and `result` the server's: a declined confirmation changes nothing;
        a deletion removes every entry with the id and resets the form if
        it was editing that id. */
    method HandleDelete(accessToken: Option<string>, id: int, confirmed: bool, result: Outcome<()>)
      requires Valid()
      modifies this
      ensures Valid()
      ensures error == old(error) && saving == old(saving)
      ensures !Truthy(accessToken) || !confirmed ==>
                collectives == old(collectives) && deleteError == old(deleteError) && calls == old(calls)
                && form == old(form)
      ensures Truthy(accessToken) && confirmed ==> calls == old(calls) + [DeleteCollective(accessToken.value, id)]
      ensures Truthy(accessToken) && confirmed && result.Success? ==>
                && collectives == RemoveById(old(collectives), id) && deleteError.None?
                && form == (if old(form).editingId == Some(id) then EmptyForm else old(form))
      ensures Truthy(accessToken) && confirmed && result.Failure? ==>
                && collectives == old(collectives) && form == old(form)
                && deleteError == Some(MessageOr(result.message, "Failed to delete collective"))
    {
      if !Truthy(accessToken) || !confirmed {
        return;
      }
      deleteError := None;
      calls := calls + [DeleteCollective(accessToken.value, id)];
      match result {
        case Success(_) =>
          collectives := RemoveById(collectives, id);
          if form.editingId == Some(id) {
            ResetForm();
          }
        case Failure(message) =>
          deleteError := Some(MessageOr(message, "Failed to delete collective"));
      }
    }
  }
}
