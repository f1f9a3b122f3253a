/** The users page (src/pages/UserPage.js): the fetched user list with a
    delete button per row. */
module Users {
  import opened Outcomes
  import opened JsValue
  import opened ListFilter

  /** The property the delete filter compares. */
  const FilterKey := "userId"
  /** The property the row's delete button passes (and the table shows). */
  const ButtonKey := "_id"

  /** The row button passes `_id` while the filter compares `userId`: the
      clicked user is removed exactly when those two properties are equal. */
  lemma DeleteKeepsClickedRow(xs: seq<Value>, user: Value)
    requires user in xs
    ensures user in Reject(xs, FilterKey, Prop(user, ButtonKey)) <==> Prop(user, FilterKey) != Prop(user, ButtonKey)
  {
    ClickedRowKept(xs, user, ButtonKey, FilterKey);
  }

  /** When no user's `userId` equals the id passed (as for records that carry
      only `_id`), a successful delete leaves the list exactly as it was. */
  lemma DeleteWithoutMatchKeepsList(xs: seq<Value>, id: Value)
    requires Readable(xs)
    requires forall i :: 0 <= i < |xs| ==> Prop(xs[i], FilterKey) != id
    ensures FilterOut(Arr(xs), FilterKey, id) == Some(Arr(xs))
  {
    RejectNoMatch(xs, FilterKey, id);
  }

  class UsersPage {
    var users: Value

    constructor ()
      ensures users == Arr([])
    {
      users := Arr([]);
    }

    /** The mount effect: the fetched list replaces the empty one; a failed
        fetch rejects the effect and changes nothing. */
    method LoadUsers(fetched: Outcome<Value>)
      modifies this
      ensures users == if fetched.Ok? then fetched.value else old(users)
    {
      if fetched.Ok? {
        users := fetched.value;
      }
    }

    /** handleDelete: delete on the backend first; then keep the users whose
        `userId` differs from the argument. A failed delete, or a list that
        cannot be filtered, throws before the list changes. */
    method HandleDelete(userId: Value, deleted: Outcome<Value>) returns (request: Value)
      modifies this
      ensures request == userId
      ensures var kept := FilterOut(old(users), FilterKey, userId);
              users == if deleted.Ok? && kept.Some? then kept.value else old(users)
    {
      request := userId;
      if deleted.Ok? {
        var kept := FilterOut(users, FilterKey, userId);
        if kept.Some? {
          users := kept.value;
        }
      }
    }
  }
}
