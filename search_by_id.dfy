/** The search-by-id page (src/pages/SerachbyId.js): an id box, an entity
    type select and a search button that fetches one record and shows its
    properties as a two-column table. */
module Search {
  import opened Outcomes
  import opened JsValue
  import opened JsString

  /** The select's options, in order; the first is the default. */
  const EntityTypes: seq<string> := ["users", "theatres", "movies", "bookings", "payments"]
  const DefaultEntityType := "users"

  /** The fixed prefix of every request, as written in the page (with its
      doubled `api/admin` segment). */
  const BaseUrl := "https://bmsbackend-u3gc.onrender.com/api/admin/api/admin/"

  const EmptyIdError := "Please enter an ID."
  const NotFoundError := "No data found or something went wrong!"

  lemma DefaultIsFirstOption()
    ensures |EntityTypes| == 5 && EntityTypes[0] == DefaultEntityType
    ensures forall i, j :: 0 <= i < j < |EntityTypes| ==> EntityTypes[i] != EntityTypes[j]
  {
  }

  /** The request URL: the base followed by `entityType/id`. */
  function RequestUrl(entityType: string, id: string): (url: string)
    ensures StartsWith(url, BaseUrl) && |url| == |BaseUrl| + |entityType| + 1 + |id|
    ensures url[|BaseUrl|..] == entityType + "/" + id
  {
    BaseUrl + entityType + "/" + id
  }

  /** Reads the entity type and the id back out of a request URL: the text
      after the base up to the first slash, and the rest. */
  function ParseRequestUrl(url: string): Option<(string, string)> {
    if !StartsWith(url, BaseUrl) then None
    else
      var rest := url[|BaseUrl|..];
      var k := IndexOf(rest, '/');
      if k < 0 then None else Some((rest[..k], rest[k + 1..]))
  }

  /** The URL determines the entity type and the id whenever the entity
      type has no slash, as none of the select's options has. */
  lemma {:induction false} ParseRequestUrlRoundTrip(entityType: string, id: string)
    requires '/' !in entityType
    ensures ParseRequestUrl(RequestUrl(entityType, id)) == Some((entityType, id))
  {
    var url := RequestUrl(entityType, id);
    var rest := url[|BaseUrl|..];
    assert url[..|BaseUrl|] == BaseUrl;
    assert rest == entityType + "/" + id;
    var k := IndexOf(rest, '/');
    assert rest[|entityType|] == '/';
    assert rest[..|entityType|] == entityType;
    assert k == |entityType|;
    assert rest[k + 1..] == id;
  }

  lemma EntityTypesHaveNoSlash()
    ensures forall i :: 0 <= i < |EntityTypes| ==> '/' !in EntityTypes[i]
  {
  }

  /** The first truthy candidate, or the last candidate when none is truthy
      (the value of `a || b || ...`). */
  function FirstTruthy(cs: seq<Value>): Value
    requires |cs| > 0
  {
    if |cs| == 1 || Truthy(cs[0]) then cs[0] else FirstTruthy(cs[1..])
  }

  /** `FirstTruthy` picks a truthy candidate with no truthy one before it,
      when there is one, and the last candidate otherwise. */
  lemma {:induction false} FirstTruthyPicks(cs: seq<Value>)
    requires |cs| > 0
    ensures (exists i :: 0 <= i < |cs| && Truthy(cs[i])) ==>
              exists i :: 0 <= i < |cs| && Truthy(cs[i]) && FirstTruthy(cs) == cs[i] && forall j :: 0 <= j < i ==> !Truthy(cs[j])
    ensures (forall i :: 0 <= i < |cs| ==> !Truthy(cs[i])) ==> FirstTruthy(cs) == cs[|cs| - 1]
  {
    if |cs| > 1 && !Truthy(cs[0]) {
      var tail := cs[1..];
      FirstTruthyPicks(tail);
      if exists i :: 0 <= i < |cs| && Truthy(cs[i]) {
        var i0 :| 0 <= i0 < |cs| && Truthy(cs[i0]);
        assert tail[i0 - 1] == cs[i0];
        var i :| 0 <= i < |tail| && Truthy(tail[i]) && FirstTruthy(tail) == tail[i] && forall j :: 0 <= j < i ==> !Truthy(tail[j]);
        forall j | 0 <= j < i + 1 ensures !Truthy(cs[j]) {
          if j > 0 {
            assert tail[j - 1] == cs[j];
          }
        }
        assert cs[i + 1] == tail[i];
      } else {
        assert cs[|cs| - 1] == tail[|tail| - 1];
        forall i | 0 <= i < |tail| ensures !Truthy(tail[i]) {
          assert tail[i] == cs[i + 1];
        }
      }
    }
  }

  /** `response.data[entityType] || response.data.user || response.data.movie`;
      a nullish body throws (None). */
  function Unwrap(body: Value, entityType: string): (r: Option<Value>)
    ensures r.Some? <==> !Nullish(body)
  {
    if Nullish(body) then None
    else Some(Or(Or(Prop(body, entityType), Prop(body, "user")), Prop(body, "movie")))
  }

  /** The unwrapped record is the first truthy value among the entity type's
      envelope key, `user` and `movie` (and `movie`'s value when none is). */
  lemma UnwrapFirstTruthy(body: Value, entityType: string)
    requires !Nullish(body)
    ensures Unwrap(body, entityType) == Some(FirstTruthy([Prop(body, entityType), Prop(body, "user"), Prop(body, "movie")]))
  {
    var cs := [Prop(body, entityType), Prop(body, "user"), Prop(body, "movie")];
    var tail := [Prop(body, "user"), Prop(body, "movie")];
    assert cs[1..] == tail && tail[1..] == [Prop(body, "movie")];
    assert FirstTruthy(tail) == Or(Prop(body, "user"), Prop(body, "movie"));
  }

  /** How a property's value is shown in the table's value column. */
  datatype Cell =
    | ListCell(items: seq<Value>)   // an array: one list item per element
    | JsonDump(obj: Value)          // another non-null object: its JSON text
    | RawCell(raw: Value)           // null and primitives: the value itself

  /** renderNestedData's choice of cell. Each list item is rendered as a
      React child (`<li>{item}</li>`), so an array holding an object makes
      rendering throw (None); every other value has a cell. */
  function Classify(v: Value): (c: Option<Cell>)
    ensures c.None? <==> v.Arr? && !ValidChild(v)
    ensures c.Some? ==> (c.value.ListCell? <==> v.Arr?)
    ensures c.Some? ==> (c.value.JsonDump? <==> v.Obj?)
    ensures c.Some? ==> (c.value.RawCell? <==> !(v.Arr? || v.Obj?))
    ensures c.Some? && c.value.ListCell? ==>
              |c.value.items| == |v.items| && forall i :: 0 <= i < |v.items| ==> c.value.items[i] == v.items[i]
    ensures c.Some? && c.value.JsonDump? ==> c.value.obj == v
    ensures c.Some? && c.value.RawCell? ==> c.value.raw == v
  {
    match v
    case Arr(items) => if ValidChild(v) then Some(ListCell(items)) else None
    case Obj(_) => Some(JsonDump(v))
    case _ => Some(RawCell(v))
  }

  /** A table row: the property name and its cell. */
  datatype Row = Row(key: string, cell: Cell)

  /** What renderTable returns: nothing, or a table of rows. */
  datatype Table = NoTable | Table(rows: seq<Row>)

  /** renderTable: no table for falsy data; otherwise one row per own key of
      the data, in key order. Rendering throws (None) exactly when one of the
      values cannot be shown. */
  function RenderTable(data: Value): (t: Option<Table>)
    ensures !Truthy(data) ==> t == Some(NoTable)
    ensures Truthy(data) ==>
              (t.Some? <==> forall i :: 0 <= i < |OwnEntries(data)| ==> Classify(OwnEntries(data)[i].1).Some?)
    ensures Truthy(data) && t.Some? ==>
              && t.value.Table?
              && |t.value.rows| == |OwnEntries(data)|
              && forall i :: 0 <= i < |t.value.rows| ==>
                   t.value.rows[i] == Row(OwnEntries(data)[i].0, Classify(OwnEntries(data)[i].1).value)
  {
    if !Truthy(data) then Some(NoTable)
    else
      var es := OwnEntries(data);
      if forall i :: 0 <= i < |es| ==> Classify(es[i].1).Some? then
        Some(Table(seq(|es|, i requires 0 <= i < |es| => Row(es[i].0, Classify(es[i].1).value))))
      else None
  }

  /** For a record, the table is shown exactly when every property's value
      can be shown, and then row i names the record's i-th property and
      shows `data[key]` for that name. */
  lemma TableReadsRecord(data: Value, i: nat)
    requires data.Obj? && UniqueKeys(data.fields) && i < |data.fields|
    ensures var t := RenderTable(data);
            && (t.Some? <==> forall j :: 0 <= j < |data.fields| ==> Classify(Prop(data, data.fields[j].0)).Some?)
            && (t.Some? ==> t.value.Table? && t.value.rows[i] == Row(data.fields[i].0, Classify(Prop(data, data.fields[i].0)).value))
  {
    LookupAll(data.fields);
  }

  /** For an array, the table is shown exactly when every element can be
      shown, and then row i is named by the decimal index and shows
      element i. */
  lemma TableReadsArray(data: Value, i: nat)
    requires data.Arr? && i < |data.items|
    ensures var t := RenderTable(data);
            && (t.Some? <==> forall j :: 0 <= j < |data.items| ==> Classify(data.items[j]).Some?)
            && (t.Some? ==> t.value.Table? && |t.value.rows| == |data.items| && t.value.rows[i] == Row(IndexKey(i), Classify(data.items[i]).value))
  {
    var es := OwnEntries(data);
    assert forall j :: 0 <= j < |es| ==> es[j].1 == data.items[j];
  }

  /** A record whose list property holds objects (a movie's actors, say)
      cannot be shown: the page throws while rendering. */
  lemma ListOfObjectsThrows()
    ensures RenderTable(Obj([("actors", Arr([Obj([("actor_name", Str("A"))])]))])).None?
  {
    var actors := Arr([Obj([("actor_name", Str("A"))])]);
    var data := Obj([("actors", actors)]);
    assert !ValidChild(actors) by {
      assert actors.items[0].Obj?;
    }
    assert OwnEntries(data)[0].1 == actors;
  }

  class SearchById {
    var id: string
    var entityType: string
    var loading: bool
    var data: Value
    var error: string

    constructor ()
      ensures id == "" && entityType == DefaultEntityType && !loading && data == Null && error == ""
    {
      id := "";
      entityType := DefaultEntityType;
      loading := false;
      data := Null;
      error := "";
    }

    /** The id box's change handler. */
    method SetId(text: string)
      modifies this
      ensures id == text
      ensures entityType == old(entityType) && loading == old(loading) && data == old(data) && error == old(error)
    {
      id := text;
    }

    /** The select's change handler. */
    method SetEntityType(value: string)
      modifies this
      ensures entityType == value
      ensures id == old(id) && loading == old(loading) && data == old(data) && error == old(error)
    {
      entityType := value;
    }

    /** handleSearch up to the request: an empty id only sets the guard
        error and makes no request; otherwise the error is cleared, loading
        starts and the request URL is returned. */
    method StartSearch() returns (request: Option<string>)
      modifies this
      ensures old(id) == "" ==> request == None && error == EmptyIdError && loading == old(loading)
      ensures old(id) != "" ==> request == Some(RequestUrl(old(entityType), old(id))) && error == "" && loading
      ensures id == old(id) && entityType == old(entityType) && data == old(data)
    {
      if id == "" {
        error := EmptyIdError;
        request := None;
        return;
      }
      error := "";
      loading := true;
      request := Some(RequestUrl(entityType, id));
    }

    /** handleSearch after the request: a response body that can be
        unwrapped becomes the shown data; a failed request, or a body that
        cannot be read, sets the error and keeps the data shown before.
        Loading stops in every case. */
    method FinishSearch(response: Outcome<Value>)
      modifies this
      ensures var u := if response.Ok? then Unwrap(response.value, old(entityType)) else None;
              && data == (if u.Some? then u.value else old(data))
              && error == (if u.Some? then old(error) else NotFoundError)
      ensures !loading
      ensures id == old(id) && entityType == old(entityType)
    {
      var u := if response.Ok? then Unwrap(response.value, entityType) else None;
      if u.Some? {
        data := u.value;
      } else {
        error := NotFoundError;
      }
      loading := false;
    }

    /** The whole click: the guard, then, for a non-empty id, the request's
        outcome. Either way the page ends up not loading unless it was
        loading and the id was empty. */
    method HandleSearch(response: Outcome<Value>) returns (request: Option<string>)
      modifies this
      ensures old(id) == "" ==>
                && request == None && error == EmptyIdError
                && loading == old(loading) && data == old(data)
      ensures old(id) != "" ==>
                var u := if response.Ok? then Unwrap(response.value, old(entityType)) else None;
                && request == Some(RequestUrl(old(entityType), old(id)))
                && data == (if u.Some? then u.value else old(data))
                && error == (if u.Some? then "" else NotFoundError)
                && !loading
      ensures id == old(id) && entityType == old(entityType)
    {
      request := StartSearch();
      if request.Some? {
        FinishSearch(response);
      }
    }
  }
}
