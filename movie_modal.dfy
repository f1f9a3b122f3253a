/** The add/edit movie dialog (src/components/AddEditMovieModel.js): a form
    record held in `formData`, edited field by field, with two growable lists
    (`actors` and `ticket_price.discounts`), saved through the movie service. */
module MovieModal {
  import opened Outcomes
  import opened JsValue
  import opened JsString

  const EmptyActor: Value := Obj([("actor_name", Str("")), ("role", Str(""))])
  const EmptyDiscount: Value := Obj([("type", Str("")), ("amount", Str(""))])
  const EmptyTicketPrice: Value := Obj([("base_price", Str("")), ("discounts", Arr([EmptyDiscount]))])

  /** The top-level properties of the form, in the order it builds them. */
  const FormKeys: seq<string> := ["title", "genre", "language", "duration", "release_date", "description",
                                  "rating", "image_url", "director", "actors", "trailer_url", "ticket_price"]

  /** The properties a movie being edited hands over unchanged. */
  predicate CopiesMovie(f: Fields, movie: Value) {
    && Lookup(f, "title") == Prop(movie, "title")
    && Lookup(f, "genre") == Prop(movie, "genre")
    && Lookup(f, "language") == Prop(movie, "language")
    && Lookup(f, "duration") == Prop(movie, "duration")
    && Lookup(f, "release_date") == Prop(movie, "release_date")
    && Lookup(f, "description") == Prop(movie, "description")
    && Lookup(f, "rating") == Prop(movie, "rating")
    && Lookup(f, "image_url") == Prop(movie, "image_url")
    && Lookup(f, "director") == Prop(movie, "director")
    && Lookup(f, "trailer_url") == Prop(movie, "trailer_url")
  }

  /** The text fields of a fresh form are empty. */
  predicate BlankTextFields(f: Fields) {
    && Lookup(f, "title") == Str("")
    && Lookup(f, "language") == Str("")
    && Lookup(f, "duration") == Str("")
    && Lookup(f, "release_date") == Str("")
    && Lookup(f, "description") == Str("")
    && Lookup(f, "rating") == Str("")
    && Lookup(f, "image_url") == Str("")
    && Lookup(f, "director") == Str("")
    && Lookup(f, "trailer_url") == Str("")
  }

  /** A fresh ticket price has an empty base price and one empty discount. */
  lemma EmptyTicketPriceFields()
    ensures Prop(EmptyTicketPrice, "base_price") == Str("")
    ensures Prop(EmptyTicketPrice, "discounts") == Arr([EmptyDiscount])
  {
    var fs := EmptyTicketPrice.fields;
    assert fs[0].0 == "base_price" && fs[1].0 == "discounts";
    LookupAt(fs, 1);
  }

  /** The twelve form properties are distinct names. */
  lemma FormKeysDistinct()
    ensures Distinct(FormKeys)
  {
  }

  /** The form a fresh dialog starts with: empty text fields, no genres, one
      empty actor and a ticket price with an empty base price and one empty
      discount. */
  function InitialForm(): (f: Fields)
    ensures Keys(f) == FormKeys && UniqueKeys(f)
    ensures BlankTextFields(f)
    ensures Lookup(f, "genre") == Arr([])
    ensures Lookup(f, "actors") == Arr([EmptyActor])
    ensures Lookup(f, "ticket_price") == EmptyTicketPrice
  {
    var vals := [Str(""), Arr([]), Str(""), Str(""), Str(""), Str(""), Str(""), Str(""), Str(""),
                 Arr([EmptyActor]), Str(""), EmptyTicketPrice];
    FormKeysDistinct();
    RecordLookup(FormKeys, vals);
    KeyNames();
    Record(FormKeys, vals)
  }

  /** The form the effect builds from a movie to edit: every field copied,
      with the one-empty-entry defaults only where `actors` or
      `ticket_price` is falsy. */
  function FormFromMovie(movie: Value): (f: Fields)
    ensures Keys(f) == FormKeys && UniqueKeys(f)
    ensures CopiesMovie(f, movie)
    ensures Truthy(Prop(movie, "actors")) ==> Lookup(f, "actors") == Prop(movie, "actors")
    ensures !Truthy(Prop(movie, "actors")) ==> Lookup(f, "actors") == Arr([EmptyActor])
    ensures Truthy(Prop(movie, "ticket_price")) ==> Lookup(f, "ticket_price") == Prop(movie, "ticket_price")
    ensures !Truthy(Prop(movie, "ticket_price")) ==> Lookup(f, "ticket_price") == EmptyTicketPrice
  {
    var vals := [Prop(movie, "title"), Prop(movie, "genre"), Prop(movie, "language"), Prop(movie, "duration"),
                 Prop(movie, "release_date"), Prop(movie, "description"), Prop(movie, "rating"),
                 Prop(movie, "image_url"), Prop(movie, "director"), Or(Prop(movie, "actors"), Arr([EmptyActor])),
                 Prop(movie, "trailer_url"), Or(Prop(movie, "ticket_price"), EmptyTicketPrice)];
    FormKeysDistinct();
    RecordLookup(FormKeys, vals);
    KeyNames();
    Record(FormKeys, vals)
  }

  lemma KeyNames()
    ensures FormKeys[0] == "title" && FormKeys[1] == "genre" && FormKeys[2] == "language"
    ensures FormKeys[3] == "duration" && FormKeys[4] == "release_date" && FormKeys[5] == "description"
    ensures FormKeys[6] == "rating" && FormKeys[7] == "image_url" && FormKeys[8] == "director"
    ensures FormKeys[9] == "actors" && FormKeys[10] == "trailer_url" && FormKeys[11] == "ticket_price"
  {
  }

  /** `name.split(".")[0]` */
  function HeadSegment(name: string): string {
    Split(name, '.')[0]
  }

  /** `name.split(".")[1]` used as a computed property name: the text
      "undefined" when the name has no dot. */
  function NestedSegment(name: string): string {
    var parts := Split(name, '.');
    if |parts| > 1 then parts[1] else "undefined"
  }

  /** The form inputs name the nested price field `ticket_price.<field>`. */
  lemma DottedName(nested: string)
    requires '.' !in nested
    ensures HeadSegment("ticket_price." + nested) == "ticket_price"
    ensures NestedSegment("ticket_price." + nested) == nested
  {
    assert "ticket_price." + nested == "ticket_price" + ['.'] + nested;
    SplitAtFirst("ticket_price", nested, '.');
    SplitNoSeparator(nested, '.');
  }

  /** handleInputChange: a name starting with "ticket_price" writes one
      property of the object under its first dotted segment; any other name
      writes that top-level property. */
  function InputChange(f: Fields, name: string, value: Value): (r: Fields)
    ensures !StartsWith(name, "ticket_price") ==>
              Lookup(r, name) == value && forall k :: k != name ==> Lookup(r, k) == Lookup(f, k)
    ensures StartsWith(name, "ticket_price") ==>
              var key, nested := HeadSegment(name), NestedSegment(name);
              && Lookup(r, key).Obj?
              && Lookup(Lookup(r, key).fields, nested) == value
              && (forall j :: j != nested ==> Lookup(Lookup(r, key).fields, j) == Lookup(OwnEntries(Lookup(f, key)), j))
              && (forall k :: k != key ==> Lookup(r, k) == Lookup(f, k))
    ensures UniqueKeys(f) ==> UniqueKeys(r)
  {
    if StartsWith(name, "ticket_price") then
      var key, nested := HeadSegment(name), NestedSegment(name);
      var inner := Obj(Put(OwnEntries(Lookup(f, key)), nested, value));
      if UniqueKeys(f) then PutKeepsUniqueKeys(f, key, inner); Put(f, key, inner)
      else Put(f, key, inner)
    else
      if UniqueKeys(f) then PutKeepsUniqueKeys(f, name, value); Put(f, name, value)
      else Put(f, name, value)
  }

  /** The base-price input: the ticket price gets the new field and keeps
      every other field, and no other top-level property changes. */
  lemma TicketPriceInput(f: Fields, nested: string, value: Value)
    requires '.' !in nested && Lookup(f, "ticket_price").Obj?
    ensures var r := InputChange(f, "ticket_price." + nested, value);
            && Prop(Lookup(r, "ticket_price"), nested) == value
            && (forall j :: j != nested ==> Prop(Lookup(r, "ticket_price"), j) == Prop(Lookup(f, "ticket_price"), j))
            && (forall k :: k != "ticket_price" ==> Lookup(r, k) == Lookup(f, k))
  {
    DottedName(nested);
    assert StartsWith("ticket_price." + nested, "ticket_price");
  }

  /** The genre input splits its text on commas and stores the pieces. */
  function GenreInput(f: Fields, text: string): (r: Fields)
    ensures Lookup(r, "genre") == Arr(Strs(Split(text, ',')))
    ensures forall k :: k != "genre" ==> Lookup(r, k) == Lookup(f, k)
    ensures UniqueKeys(f) ==> UniqueKeys(r)
  {
    InputChange(f, "genre", Arr(Strs(Split(text, ','))))
  }

  /** The genre input shows the list joined with ", " but splits what it
      reads back on ",": re-reading the shown text puts a space before every
      genre after the first. */
  lemma {:induction false} GenreTextRoundTrip(genres: seq<string>)
    requires |genres| > 0
    requires forall i :: 0 <= i < |genres| ==> ',' !in genres[i]
    ensures Split(Join(genres, ", "), ',') == [genres[0]] + seq(|genres| - 1, i requires 0 <= i < |genres| - 1 => " " + genres[i + 1])
  {
    var spaced := [genres[0]] + seq(|genres| - 1, i requires 0 <= i < |genres| - 1 => " " + genres[i + 1]);
    SpacedJoin(genres);
    forall i | 0 <= i < |spaced| ensures ',' !in spaced[i] {
      if i > 0 {
        assert spaced[i] == " " + genres[i];
      }
    }
    SplitJoin(spaced, ',');
  }

  lemma {:induction false} SpacedJoin(genres: seq<string>)
    requires |genres| > 0
    ensures Join(genres, ", ") == Join([genres[0]] + seq(|genres| - 1, i requires 0 <= i < |genres| - 1 => " " + genres[i + 1]), ",")
  {
    var spaced := [genres[0]] + seq(|genres| - 1, i requires 0 <= i < |genres| - 1 => " " + genres[i + 1]);
    if |genres| > 1 {
      var tail := genres[1..];
      SpacedJoin(tail);
      var spacedTail := [tail[0]] + seq(|tail| - 1, i requires 0 <= i < |tail| - 1 => " " + tail[i + 1]);
      assert Join(genres, ", ") == genres[0] + ", " + Join(tail, ", ");
      assert Join(spaced, ",") == genres[0] + "," + Join(spaced[1..], ",");
      assert spaced[1..] == [" " + tail[0]] + spacedTail[1..];
      JoinPrefix(spacedTail);
    }
  }

  /** Prefixing the first piece of a join prefixes the joined text. */
  lemma {:induction false} JoinPrefix(parts: seq<string>)
    requires |parts| > 0
    ensures Join([" " + parts[0]] + parts[1..], ",") == " " + Join(parts, ",")
  {
    var q := [" " + parts[0]] + parts[1..];
    if |parts| == 1 {
      assert q == [" " + parts[0]];
    } else {
      var rest := Join(parts[1..], ",");
      assert q[0] == " " + parts[0] && q[1..] == parts[1..];
      assert Join(q, ",") == q[0] + "," + rest;
      assert Join(parts, ",") == parts[0] + "," + rest;
      assert q[0] + "," + rest == " " + (parts[0] + "," + rest);
    }
  }

  /** Two genres shown as "Drama, Action" come back as "Drama" and " Action". */
  lemma GenreTextExample()
    ensures Split(Join(["Drama", "Action"], ", "), ',') == ["Drama", " Action"]
  {
    var genres := ["Drama", "Action"];
    GenreTextRoundTrip(genres);
    var tail := seq(|genres| - 1, i requires 0 <= i < |genres| - 1 => " " + genres[i + 1]);
    assert |tail| == 1 && tail[0] == " Action";
    assert tail == [" Action"];
  }

  /** `list.filter((_, i) => i !== index)`, with `from` the index of the first
      element of `xs`. */
  function KeepOtherIndices(xs: seq<Value>, index: int, from: int): seq<Value> {
    if xs == [] then []
    else (if from != index then [xs[0]] else []) + KeepOtherIndices(xs[1..], index, from + 1)
  }

  function WithoutIndex(xs: seq<Value>, index: int): seq<Value> {
    KeepOtherIndices(xs, index, 0)
  }

  lemma {:induction false} KeepOtherIndicesSlices(xs: seq<Value>, index: int, from: int)
    ensures KeepOtherIndices(xs, index, from) ==
              if from <= index < from + |xs| then xs[..index - from] + xs[index - from + 1..] else xs
  {
    if xs != [] {
      KeepOtherIndicesSlices(xs[1..], index, from + 1);
      if from == index {
        assert xs[..0] + xs[1..] == xs[1..];
      } else if from < index < from + |xs| {
        assert xs[..index - from] == [xs[0]] + xs[1..][..index - from - 1];
        assert xs[index - from + 1..] == xs[1..][index - from..];
      } else {
        assert [xs[0]] + xs[1..] == xs;
      }
    }
  }

  /** Removing by index drops exactly element `index`, keeps the others in
      order, and leaves the list as it was when the index is out of range. */
  lemma WithoutIndexSlices(xs: seq<Value>, index: int)
    ensures WithoutIndex(xs, index) == if 0 <= index < |xs| then xs[..index] + xs[index + 1..] else xs
    ensures 0 <= index < |xs| ==> |WithoutIndex(xs, index)| == |xs| - 1
  {
    KeepOtherIndicesSlices(xs, index, 0);
  }

  /** Removing the entry just appended undoes the append. */
  lemma AppendThenRemove(xs: seq<Value>, e: Value)
    ensures WithoutIndex(xs + [e], |xs|) == xs
  {
    WithoutIndexSlices(xs + [e], |xs|);
    assert (xs + [e])[..|xs|] == xs;
  }

  /** `const updated = [...list]; updated[index][name] = value;` — throws
      (None) when the list cannot be spread, the index is out of range, or
      the entry is not an object. */
  function EntryChange(list: Value, index: int, name: string, value: Value): (r: Option<seq<Value>>)
    ensures r.Some? <==> Spread(list).Some? && 0 <= index < |Spread(list).value| && Spread(list).value[index].Obj?
    ensures r.Some? ==>
              var was := Spread(list).value;
              && |r.value| == |was|
              && r.value[index].Obj?
              && Lookup(r.value[index].fields, name) == value
              && (forall j :: j != name ==> Lookup(r.value[index].fields, j) == Lookup(was[index].fields, j))
              && (forall i :: 0 <= i < |was| && i != index ==> r.value[i] == was[i])
  {
    match Spread(list)
    case None => None
    case Some(items) =>
      if 0 <= index < |items| && items[index].Obj? then
        Some(items[index := Obj(Put(items[index].fields, name, value))])
      else None
  }

  /** `[...list, entry]` — throws (None) when the list cannot be spread. */
  function EntryAppend(list: Value, entry: Value): (r: Option<seq<Value>>)
    ensures r.Some? <==> Spread(list).Some?
    ensures r.Some? ==> r.value == Spread(list).value + [entry]
  {
    match Spread(list)
    case None => None
    case Some(items) => Some(items + [entry])
  }

  /** `list.filter((_, i) => i !== index)` — only arrays have `filter`. */
  function EntryRemove(list: Value, index: int): (r: Option<seq<Value>>)
    ensures r.Some? <==> list.Arr?
    ensures r.Some? && 0 <= index < |list.items| ==>
              r.value == list.items[..index] + list.items[index + 1..] && |r.value| == |list.items| - 1
    ensures r.Some? && !(0 <= index < |list.items|) ==> r.value == list.items
  {
    if list.Arr? then WithoutIndexSlices(list.items, index); Some(WithoutIndex(list.items, index))
    else None
  }

  /** The form with a new actors list. */
  function WithActors(f: Fields, actors: seq<Value>): (r: Fields)
    ensures Lookup(r, "actors") == Arr(actors)
    ensures forall k :: k != "actors" ==> Lookup(r, k) == Lookup(f, k)
    ensures UniqueKeys(f) ==> UniqueKeys(r)
  {
    if UniqueKeys(f) then PutKeepsUniqueKeys(f, "actors", Arr(actors)); Put(f, "actors", Arr(actors))
    else Put(f, "actors", Arr(actors))
  }

  /** handleActorChange */
  function ActorChange(f: Fields, index: int, name: string, value: Value): (r: Option<Fields>)
    ensures r.Some? <==> EntryChange(Lookup(f, "actors"), index, name, value).Some?
    ensures r.Some? ==> r.value == WithActors(f, EntryChange(Lookup(f, "actors"), index, name, value).value)
  {
    match EntryChange(Lookup(f, "actors"), index, name, value)
    case None => None
    case Some(actors) => Some(WithActors(f, actors))
  }

  /** handleAddActor */
  function AddActor(f: Fields): (r: Option<Fields>)
    ensures r.Some? <==> Spread(Lookup(f, "actors")).Some?
    ensures r.Some? ==> r.value == WithActors(f, Spread(Lookup(f, "actors")).value + [EmptyActor])
  {
    match EntryAppend(Lookup(f, "actors"), EmptyActor)
    case None => None
    case Some(actors) => Some(WithActors(f, actors))
  }

  /** handleRemoveActor */
  function RemoveActor(f: Fields, index: int): (r: Option<Fields>)
    ensures r.Some? <==> Lookup(f, "actors").Arr?
    ensures r.Some? ==> r.value == WithActors(f, WithoutIndex(Lookup(f, "actors").items, index))
  {
    match EntryRemove(Lookup(f, "actors"), index)
    case None => None
    case Some(actors) => Some(WithActors(f, actors))
  }

  /** Adding an actor and then removing the last one restores the form. */
  lemma AddThenRemoveActor(f: Fields)
    requires "actors" in Keys(f) && Lookup(f, "actors").Arr?
    ensures AddActor(f).Some?
    ensures RemoveActor(AddActor(f).value, |Lookup(f, "actors").items|) == Some(f)
  {
    var actors := Lookup(f, "actors").items;
    var g := AddActor(f).value;
    AppendThenRemove(actors, EmptyActor);
    PutPut(f, "actors", Arr(actors + [EmptyActor]), Arr(actors));
    PutSameValue(f, "actors");
  }

  /** The discounts list, as `formData.ticket_price.discounts` reads it;
      reading through a nullish ticket price throws. */
  function DiscountList(f: Fields): (r: Option<Value>)
    ensures r.Some? <==> !Nullish(Lookup(f, "ticket_price"))
  {
    var tp := Lookup(f, "ticket_price");
    if Nullish(tp) then None else Some(Prop(tp, "discounts"))
  }

  /** `{...formData, ticket_price: {...formData.ticket_price, discounts}}` */
  function WithDiscounts(f: Fields, discounts: seq<Value>): (r: Fields)
    ensures Lookup(r, "ticket_price").Obj?
    ensures Lookup(Lookup(r, "ticket_price").fields, "discounts") == Arr(discounts)
    ensures forall j :: j != "discounts" ==>
              Lookup(Lookup(r, "ticket_price").fields, j) == Lookup(OwnEntries(Lookup(f, "ticket_price")), j)
    ensures forall k :: k != "ticket_price" ==> Lookup(r, k) == Lookup(f, k)
    ensures UniqueKeys(f) ==> UniqueKeys(r)
  {
    var tp := Obj(Put(OwnEntries(Lookup(f, "ticket_price")), "discounts", Arr(discounts)));
    if UniqueKeys(f) then PutKeepsUniqueKeys(f, "ticket_price", tp); Put(f, "ticket_price", tp)
    else Put(f, "ticket_price", tp)
  }

  /** handleDiscountChange */
  function DiscountChange(f: Fields, index: int, name: string, value: Value): (r: Option<Fields>)
    ensures r.Some? <==> DiscountList(f).Some? && EntryChange(DiscountList(f).value, index, name, value).Some?
    ensures r.Some? ==> r.value == WithDiscounts(f, EntryChange(DiscountList(f).value, index, name, value).value)
  {
    match DiscountList(f)
    case None => None
    case Some(list) =>
      match EntryChange(list, index, name, value)
      case None => None
      case Some(ds) => Some(WithDiscounts(f, ds))
  }

  /** handleAddDiscount */
  function AddDiscount(f: Fields): (r: Option<Fields>)
    ensures r.Some? <==> DiscountList(f).Some? && Spread(DiscountList(f).value).Some?
    ensures r.Some? ==> r.value == WithDiscounts(f, Spread(DiscountList(f).value).value + [EmptyDiscount])
  {
    match DiscountList(f)
    case None => None
    case Some(list) =>
      match EntryAppend(list, EmptyDiscount)
      case None => None
      case Some(ds) => Some(WithDiscounts(f, ds))
  }

  /** handleRemoveDiscount */
  function RemoveDiscount(f: Fields, index: int): (r: Option<Fields>)
    ensures r.Some? <==> DiscountList(f).Some? && DiscountList(f).value.Arr?
    ensures r.Some? ==> r.value == WithDiscounts(f, WithoutIndex(DiscountList(f).value.items, index))
  {
    match DiscountList(f)
    case None => None
    case Some(list) =>
      match EntryRemove(list, index)
      case None => None
      case Some(ds) => Some(WithDiscounts(f, ds))
  }

  /** Adding a discount and then removing the last one gives back the same
      discounts, base price and other fields. */
  lemma AddThenRemoveDiscount(f: Fields)
    requires DiscountList(f).Some? && DiscountList(f).value.Arr?
    ensures AddDiscount(f).Some?
    ensures var ds := DiscountList(f).value.items;
            var g := RemoveDiscount(AddDiscount(f).value, |ds|);
            && g.Some?
            && Prop(Lookup(g.value, "ticket_price"), "discounts") == Arr(ds)
            && (forall j :: j != "discounts" ==> Prop(Lookup(g.value, "ticket_price"), j) == Lookup(OwnEntries(Lookup(f, "ticket_price")), j))
            && (forall k :: k != "ticket_price" ==> Lookup(g.value, k) == Lookup(f, k))
  {
    var ds := DiscountList(f).value.items;
    var g := AddDiscount(f).value;
    assert DiscountList(g) == Some(Arr(ds + [EmptyDiscount]));
    AppendThenRemove(ds, EmptyDiscount);
  }

  /** The service call the dialog makes on submit. */
  datatype SaveRequest = UpdateMovie(movieId: Value, body: Fields) | AddMovie(body: Fields)

  /** The callbacks the dialog invokes on its parent, with their arguments. */
  datatype ParentCall = MovieSaved(args: seq<Value>) | Close

  class AddEditMovieModal {
    var formData: Fields

    ghost predicate Valid()
      reads this
    {
      UniqueKeys(formData)
    }

    constructor ()
      ensures Valid() && formData == InitialForm()
    {
      formData := InitialForm();
    }

    /** The effect on `movie`: a truthy movie replaces the form, a falsy one
        leaves it. */
    method SyncMovie(movie: Value)
      requires Valid()
      modifies this
      ensures Valid()
      ensures formData == if Truthy(movie) then FormFromMovie(movie) else old(formData)
    {
      if Truthy(movie) {
        formData := FormFromMovie(movie);
      }
    }

    method HandleInputChange(name: string, value: Value)
      requires Valid()
      modifies this
      ensures Valid()
      ensures formData == InputChange(old(formData), name, value)
    {
      formData := InputChange(formData, name, value);
    }

    /** The genre input's change handler. */
    method HandleGenreInput(text: string)
      requires Valid()
      modifies this
      ensures Valid()
      ensures formData == GenreInput(old(formData), text)
    {
      HandleInputChange("genre", Arr(Strs(Split(text, ','))));
    }

    method HandleActorChange(index: int, name: string, value: Value)
      requires Valid()
      modifies this
      ensures Valid()
      ensures var r := ActorChange(old(formData), index, name, value);
              formData == if r.Some? then r.value else old(formData)
    {
      var r := ActorChange(formData, index, name, value);
      if r.Some? {
        formData := r.value;
      }
    }

    method HandleAddActor()
      requires Valid()
      modifies this
      ensures Valid()
      ensures var r := AddActor(old(formData));
              formData == if r.Some? then r.value else old(formData)
    {
      var r := AddActor(formData);
      if r.Some? {
        formData := r.value;
      }
    }

    method HandleRemoveActor(index: int)
      requires Valid()
      modifies this
      ensures Valid()
      ensures var r := RemoveActor(old(formData), index);
              formData == if r.Some? then r.value else old(formData)
    {
      var r := RemoveActor(formData, index);
      if r.Some? {
        formData := r.value;
      }
    }

    method HandleDiscountChange(index: int, name: string, value: Value)
      requires Valid()
      modifies this
      ensures Valid()
      ensures var r := DiscountChange(old(formData), index, name, value);
              formData == if r.Some? then r.value else old(formData)
    {
      var r := DiscountChange(formData, index, name, value);
      if r.Some? {
        formData := r.value;
      }
    }

    method HandleAddDiscount()
      requires Valid()
      modifies this
      ensures Valid()
      ensures var r := AddDiscount(old(formData));
              formData == if r.Some? then r.value else old(formData)
    {
      var r := AddDiscount(formData);
      if r.Some? {
        formData := r.value;
      }
    }

    method HandleRemoveDiscount(index: int)
      requires Valid()
      modifies this
      ensures Valid()
      ensures var r := RemoveDiscount(old(formData), index);
              formData == if r.Some? then r.value else old(formData)
    {
      var r := RemoveDiscount(formData, index);
      if r.Some? {
        formData := r.value;
      }
    }

    /** handleSubmit: update the movie being edited (by its `_id`) or add a
        new one; once the call resolves, tell the parent the movie was saved,
        passing no argument, and then close. A rejected call skips both.
        The body sent is the form, so its property names are unique. */
    method HandleSubmit(movie: Value, saved: Outcome<Value>) returns (request: SaveRequest, calls: seq<ParentCall>)
      requires Valid()
      ensures UniqueKeys(request.body)
      ensures Truthy(movie) ==> request == UpdateMovie(Prop(movie, "_id"), formData)
      ensures !Truthy(movie) ==> request == AddMovie(formData)
      ensures saved.Ok? ==> calls == [MovieSaved([]), Close]
      ensures saved.Failed? ==> calls == []
    {
      if Truthy(movie) {
        request := UpdateMovie(Prop(movie, "_id"), formData);
      } else {
        request := AddMovie(formData);
      }
      calls := [];
      if saved.Ok? {
        calls := calls + [MovieSaved([])];
        calls := calls + [Close];
      }
    }
  }
}
