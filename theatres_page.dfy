/** The theatres page (src/pages/TheatresPage.js): the fetched theatre list,
    a delete confirmation dialog and an add-theatre dialog whose form is a
    fixed nested record edited one leaf at a time. */
module Theatres {
  import opened Outcomes
  import opened JsValue
  import opened ListFilter

  /** The options of the amenities multi-select, in document order. */
  const TheaterAmenities: seq<string> := [
    "Comfortable seating", "High-quality sound system", "HD projectors", "VIP lounge",
    "Concessions stand", "Restrooms", "Free Wi-Fi", "Air conditioning", "Accessible seating",
    "Parking lot", "Coat check", "Hearing assistance devices", "Screen captions/subtitles",
    "Bar or café", "Gift shop", "Group booking options", "Loyalty programs",
    "Childcare services", "Wheelchair access", "Reserved seating"]

  /** The options of the status select. */
  const StatusOptions: seq<string> := ["open", "closed", "renovation"]

  const FetchError := "Error fetching theatres data"
  const DeleteError := "Error deleting theatre"
  const AddError := "Error adding theatre"

  datatype Coordinates = Coordinates(latitude: string, longitude: string)
  datatype Location = Location(coordinates: Coordinates, address: string, city: string, state: string, zip_code: string)
  datatype Contact = Contact(phone: string, email: string)
  datatype Manager = Manager(name: string, contact: Contact)

  /** `newTheatreData`: every input writes a string (`e.target.value`), the
      amenities select a list of strings; `total_screens` has no input. */
  datatype TheatreForm = TheatreForm(
    name: string,
    location: Location,
    contact_info: Contact,
    manager: Manager,
    amenities: seq<string>,
    status: string,
    total_screens: int)

  /** The form's inputs, one per string leaf of the record. */
  datatype Leaf =
    | Name | Address | City | State | ZipCode | Latitude | Longitude
    | ContactPhone | ContactEmail | ManagerName | ManagerPhone | ManagerEmail | Status

  /** The form with every text empty, no amenities, one screen, and the
      given status. */
  function EmptyForm(status: string): TheatreForm {
    TheatreForm("", Location(Coordinates("", ""), "", "", "", ""), Contact("", ""),
                Manager("", Contact("", "")), [], status, 1)
  }

  /** The state the page starts with. */
  function InitialForm(): TheatreForm { EmptyForm("open") }

  /** The form a successful add resets to. */
  function ResetForm(): TheatreForm { EmptyForm("active") }

  /** After an add the form comes back as it started except for its status,
      which is "active" where the page started with "open"; "active" is not
      one of the select's options. */
  lemma ResetDiffersOnlyInStatus()
    ensures ResetForm() == InitialForm().(status := "active")
    ensures ResetForm() != InitialForm()
    ensures InitialForm().status in StatusOptions
    ensures ResetForm().status !in StatusOptions
  {
  }

  /** The value an input shows (`value={newTheatreData...}`). */
  function GetLeaf(f: TheatreForm, l: Leaf): string {
    match l
    case Name => f.name
    case Address => f.location.address
    case City => f.location.city
    case State => f.location.state
    case ZipCode => f.location.zip_code
    case Latitude => f.location.coordinates.latitude
    case Longitude => f.location.coordinates.longitude
    case ContactPhone => f.contact_info.phone
    case ContactEmail => f.contact_info.email
    case ManagerName => f.manager.name
    case ManagerPhone => f.manager.contact.phone
    case ManagerEmail => f.manager.contact.email
    case Status => f.status
  }

  /** An input's change handler: the nested spreads rebuild the path down to
      one leaf, so that leaf takes the text and nothing else changes. */
  function SetLeaf(f: TheatreForm, l: Leaf, v: string): (r: TheatreForm)
    ensures GetLeaf(r, l) == v
    ensures forall m :: m != l ==> GetLeaf(r, m) == GetLeaf(f, m)
    ensures r.amenities == f.amenities && r.total_screens == f.total_screens
  {
    match l
    case Name => f.(name := v)
    case Address => f.(location := f.location.(address := v))
    case City => f.(location := f.location.(city := v))
    case State => f.(location := f.location.(state := v))
    case ZipCode => f.(location := f.location.(zip_code := v))
    case Latitude => f.(location := f.location.(coordinates := f.location.coordinates.(latitude := v)))
    case Longitude => f.(location := f.location.(coordinates := f.location.coordinates.(longitude := v)))
    case ContactPhone => f.(contact_info := f.contact_info.(phone := v))
    case ContactEmail => f.(contact_info := f.contact_info.(email := v))
    case ManagerName => f.(manager := f.manager.(name := v))
    case ManagerPhone => f.(manager := f.manager.(contact := f.manager.contact.(phone := v)))
    case ManagerEmail => f.(manager := f.manager.(contact := f.manager.contact.(email := v)))
    case Status => f.(status := v)
  }

  /** The form is determined by its leaves, its amenities and its screen
      count: writing back what an input shows changes nothing. */
  lemma {:induction false} SetLeafSame(f: TheatreForm, l: Leaf)
    ensures SetLeaf(f, l, GetLeaf(f, l)) == f
  {
    match l
    case Name =>
    case Address =>
    case City =>
    case State =>
    case ZipCode =>
    case Latitude =>
    case Longitude =>
    case ContactPhone =>
    case ContactEmail =>
    case ManagerName =>
    case ManagerPhone =>
    case ManagerEmail =>
    case Status =>
  }

  /** `Array.from(e.target.selectedOptions, (option) => option.value)`: the
      values of the picked options, in document order. */
  function Selected(options: seq<string>, picked: set<int>): (r: seq<string>)
    ensures |r| <= |options|
    ensures forall x :: x in r <==> exists i :: 0 <= i < |options| && i in picked && options[i] == x
  {
    if options == [] then []
    else
      var n := |options| - 1;
      var r := Selected(options[..n], picked) + (if n in picked then [options[n]] else []);
      assert forall x :: x in r ==> exists i :: 0 <= i < |options| && i in picked && options[i] == x by {
        forall x | x in r ensures exists i :: 0 <= i < |options| && i in picked && options[i] == x {
          if x in Selected(options[..n], picked) {
            var i :| 0 <= i < n && i in picked && options[..n][i] == x;
            assert options[i] == x;
          }
        }
      }
      assert forall x :: (exists i :: 0 <= i < |options| && i in picked && options[i] == x) ==> x in r by {
        forall x | exists i :: 0 <= i < |options| && i in picked && options[i] == x ensures x in r {
          var i :| 0 <= i < |options| && i in picked && options[i] == x;
          if i < n {
            assert options[..n][i] == x;
          }
        }
      }
      r
  }

  /** With distinct options (as the amenity list is) no amenity is picked
      twice. */
  lemma {:induction false} SelectedDistinct(options: seq<string>, picked: set<int>)
    requires forall i, j :: 0 <= i < j < |options| ==> options[i] != options[j]
    ensures forall i, j :: 0 <= i < j < |Selected(options, picked)| ==> Selected(options, picked)[i] != Selected(options, picked)[j]
  {
    if options != [] {
      var n := |options| - 1;
      var front := Selected(options[..n], picked);
      SelectedDistinct(options[..n], picked);
      if n in picked {
        forall i | 0 <= i < |front| ensures front[i] != options[n] {
          assert front[i] in front;
          var k :| 0 <= k < n && k in picked && options[..n][k] == front[i];
        }
      }
    }
  }

  /** The picked values come in document order: the values picked among
      the first n options come first. */
  lemma {:induction false} SelectedPrefix(options: seq<string>, picked: set<int>, n: nat)
    requires n <= |options|
    ensures Selected(options[..n], picked) <= Selected(options, picked)
    decreases |options|
  {
    if n < |options| {
      var m := |options| - 1;
      SelectedPrefix(options[..m], picked, n);
      assert options[..m][..n] == options[..n];
    } else {
      assert options[..n] == options;
    }
  }

  /** The amenity options are distinct. */
  lemma AmenitiesDistinct()
    ensures forall i, j :: 0 <= i < j < |TheaterAmenities| ==> TheaterAmenities[i] != TheaterAmenities[j]
  {
  }

  const CoordinateKeys: seq<string> := ["latitude", "longitude"]
  const ContactKeys: seq<string> := ["phone", "email"]
  const ManagerKeys: seq<string> := ["name", "contact"]
  const LocationKeys: seq<string> := ["coordinates", "address", "city", "state", "zip_code"]
  const TheatreKeys: seq<string> := ["name", "location", "contact_info", "manager", "amenities", "status", "total_screens"]

  /** The property names of each record are distinct, and none of a
      theatre's is `_id`. */
  lemma TheatreKeysDistinct()
    ensures Distinct(TheatreKeys) && "_id" !in TheatreKeys
  {
  }

  lemma NestedKeysDistinct()
    ensures Distinct(CoordinateKeys) && Distinct(ContactKeys) && Distinct(ManagerKeys) && Distinct(LocationKeys)
  {
  }

  /** The JavaScript object for a coordinates record. */
  function CoordinatesValue(c: Coordinates): Value {
    Obj(Record(CoordinateKeys, [Str(c.latitude), Str(c.longitude)]))
  }

  /** The JavaScript object for a phone/email record. */
  function ContactValue(c: Contact): Value {
    Obj(Record(ContactKeys, [Str(c.phone), Str(c.email)]))
  }

  /** The JavaScript object for the manager record. */
  function ManagerValue(m: Manager): Value {
    Obj(Record(ManagerKeys, [Str(m.name), ContactValue(m.contact)]))
  }

  /** The JavaScript object for the location record. */
  function LocationValue(l: Location): Value {
    Obj(Record(LocationKeys, [CoordinatesValue(l.coordinates), Str(l.address), Str(l.city), Str(l.state), Str(l.zip_code)]))
  }

  /** The object the add dialog sends and appends. */
  function FormValue(f: TheatreForm): Value {
    Obj(Record(TheatreKeys, [Str(f.name), LocationValue(f.location), ContactValue(f.contact_info), ManagerValue(f.manager),
                             Arr(Strs(f.amenities)), Str(f.status), Num(f.total_screens)]))
  }

  /** The coordinates object holds the two texts under their names. */
  lemma CoordinatesFields(c: Coordinates)
    ensures var v := CoordinatesValue(c);
            && v.Obj? && Keys(v.fields) == CoordinateKeys && UniqueKeys(v.fields)
            && Prop(v, "latitude") == Str(c.latitude) && Prop(v, "longitude") == Str(c.longitude)
  {
    NestedKeysDistinct();
    RecordLookup(CoordinateKeys, [Str(c.latitude), Str(c.longitude)]);
    assert CoordinateKeys[0] == "latitude" && CoordinateKeys[1] == "longitude";
  }

  /** The contact object holds the phone and the email under their names. */
  lemma ContactFields(c: Contact)
    ensures var v := ContactValue(c);
            && v.Obj? && Keys(v.fields) == ContactKeys && UniqueKeys(v.fields)
            && Prop(v, "phone") == Str(c.phone) && Prop(v, "email") == Str(c.email)
  {
    NestedKeysDistinct();
    RecordLookup(ContactKeys, [Str(c.phone), Str(c.email)]);
    assert ContactKeys[0] == "phone" && ContactKeys[1] == "email";
  }

  /** The manager object holds the name and the contact object. */
  lemma ManagerFields(m: Manager)
    ensures var v := ManagerValue(m);
            && v.Obj? && Keys(v.fields) == ManagerKeys && UniqueKeys(v.fields)
            && Prop(v, "name") == Str(m.name) && Prop(v, "contact") == ContactValue(m.contact)
  {
    NestedKeysDistinct();
    RecordLookup(ManagerKeys, [Str(m.name), ContactValue(m.contact)]);
    assert ManagerKeys[0] == "name" && ManagerKeys[1] == "contact";
  }

  /** The location object holds the coordinates object and the four texts. */
  lemma LocationFields(l: Location)
    ensures var v := LocationValue(l);
            && v.Obj? && Keys(v.fields) == LocationKeys && UniqueKeys(v.fields)
            && Prop(v, "coordinates") == CoordinatesValue(l.coordinates)
            && Prop(v, "address") == Str(l.address) && Prop(v, "city") == Str(l.city)
            && Prop(v, "state") == Str(l.state) && Prop(v, "zip_code") == Str(l.zip_code)
  {
    NestedKeysDistinct();
    RecordLookup(LocationKeys, [CoordinatesValue(l.coordinates), Str(l.address), Str(l.city), Str(l.state), Str(l.zip_code)]);
    assert LocationKeys[0] == "coordinates" && LocationKeys[1] == "address" && LocationKeys[2] == "city";
    assert LocationKeys[3] == "state" && LocationKeys[4] == "zip_code";
  }

  /** The theatre object has the form's properties in the order the page
      declares them, each holding the corresponding part of the form, and
      no `_id`. */
  lemma FormFields(f: TheatreForm)
    ensures var v := FormValue(f);
            && v.Obj? && Keys(v.fields) == TheatreKeys && UniqueKeys(v.fields)
            && Prop(v, "name") == Str(f.name) && Prop(v, "location") == LocationValue(f.location)
            && Prop(v, "contact_info") == ContactValue(f.contact_info) && Prop(v, "manager") == ManagerValue(f.manager)
            && Prop(v, "amenities") == Arr(Strs(f.amenities)) && Prop(v, "status") == Str(f.status)
            && Prop(v, "total_screens") == Num(f.total_screens)
            && Prop(v, "_id") == Undefined
  {
    var vals := [Str(f.name), LocationValue(f.location), ContactValue(f.contact_info), ManagerValue(f.manager),
                 Arr(Strs(f.amenities)), Str(f.status), Num(f.total_screens)];
    TheatreKeysDistinct();
    RecordLookup(TheatreKeys, vals);
    assert TheatreKeys[0] == "name" && TheatreKeys[1] == "location" && TheatreKeys[2] == "contact_info";
    assert TheatreKeys[3] == "manager" && TheatreKeys[4] == "amenities" && TheatreKeys[5] == "status";
    assert TheatreKeys[6] == "total_screens";
  }

  /** The property path an input reads and writes. */
  function LeafPath(l: Leaf): seq<string> {
    match l
    case Name => ["name"]
    case Address => ["location", "address"]
    case City => ["location", "city"]
    case State => ["location", "state"]
    case ZipCode => ["location", "zip_code"]
    case Latitude => ["location", "coordinates", "latitude"]
    case Longitude => ["location", "coordinates", "longitude"]
    case ContactPhone => ["contact_info", "phone"]
    case ContactEmail => ["contact_info", "email"]
    case ManagerName => ["manager", "name"]
    case ManagerPhone => ["manager", "contact", "phone"]
    case ManagerEmail => ["manager", "contact", "email"]
    case Status => ["status"]
  }

  /** `v.p0.p1...` */
  function PathProp(v: Value, path: seq<string>): Value
    decreases |path|
  {
    if path == [] then v else PathProp(Prop(v, path[0]), path[1..])
  }

  /** Each input shows the string at its property path of the form object. */
  lemma LeafAtPath(f: TheatreForm, l: Leaf)
    ensures PathProp(FormValue(f), LeafPath(l)) == Str(GetLeaf(f, l))
  {
    var v := FormValue(f);
    FormFields(f);
    LocationFields(f.location);
    CoordinatesFields(f.location.coordinates);
    ContactFields(f.contact_info);
    ManagerFields(f.manager);
    ContactFields(f.manager.contact);
    match l
    case Name => PathOne(v, "name");
    case Address => PathTwo(v, "location", "address");
    case City => PathTwo(v, "location", "city");
    case State => PathTwo(v, "location", "state");
    case ZipCode => PathTwo(v, "location", "zip_code");
    case Latitude => PathThree(v, "location", "coordinates", "latitude");
    case Longitude => PathThree(v, "location", "coordinates", "longitude");
    case ContactPhone => PathTwo(v, "contact_info", "phone");
    case ContactEmail => PathTwo(v, "contact_info", "email");
    case ManagerName => PathTwo(v, "manager", "name");
    case ManagerPhone => PathThree(v, "manager", "contact", "phone");
    case ManagerEmail => PathThree(v, "manager", "contact", "email");
    case Status => PathOne(v, "status");
  }

  lemma PathOne(v: Value, a: string)
    ensures PathProp(v, [a]) == Prop(v, a)
  {
    assert [a][1..] == [];
  }

  lemma PathTwo(v: Value, a: string, b: string)
    ensures PathProp(v, [a, b]) == Prop(Prop(v, a), b)
  {
    assert [a, b][1..] == [b];
    PathOne(Prop(v, a), b);
  }

  lemma PathThree(v: Value, a: string, b: string, c: string)
    ensures PathProp(v, [a, b, c]) == Prop(Prop(Prop(v, a), b), c)
  {
    assert [a, b, c][1..] == [b, c];
    PathTwo(Prop(v, a), b, c);
  }

  /** Two forms with the same object are the same form. */
  lemma FormValueInjective(f: TheatreForm, g: TheatreForm)
    requires FormValue(f) == FormValue(g)
    ensures f == g
  {
    FormFields(f);
    FormFields(g);
    LocationFields(f.location);
    LocationFields(g.location);
    CoordinatesFields(f.location.coordinates);
    CoordinatesFields(g.location.coordinates);
    ContactFields(f.contact_info);
    ContactFields(g.contact_info);
    ManagerFields(f.manager);
    ManagerFields(g.manager);
    ContactFields(f.manager.contact);
    ContactFields(g.manager.contact);
    assert Strs(f.amenities) == Strs(g.amenities);
    assert f.amenities == g.amenities by {
      forall i | 0 <= i < |f.amenities| ensures f.amenities[i] == g.amenities[i] {
        assert Strs(f.amenities)[i] == Strs(g.amenities)[i];
      }
    }
  }

  /** The rows a delete by a given `_id` keeps. */
  lemma DeleteKeeps(xs: seq<Value>, id: Value, x: Value)
    ensures x in Reject(xs, "_id", id) <==> x in xs && Prop(x, "_id") != id
  {
    RejectMembership(xs, "_id", id, x);
  }

  /** A theatre added in this session has no `_id`, so its delete button
      passes `undefined` and confirming removes it together with every other
      row that has no `_id`, while keeping every row that has one. */
  lemma DeleteAddedTheatre(xs: seq<Value>, f: TheatreForm, x: Value)
    ensures var after := Reject(xs + [FormValue(f)], "_id", Prop(FormValue(f), "_id"));
            && FormValue(f) !in after
            && (x in after <==> x in xs && Prop(x, "_id") != Undefined)
  {
    FormFields(f);
    RejectMembership(xs + [FormValue(f)], "_id", Undefined, FormValue(f));
    RejectMembership(xs + [FormValue(f)], "_id", Undefined, x);
  }

  class TheatresPage {
    var theatres: Value
    var loading: bool
    var error: Option<string>
    var showDeleteModal: bool
    var selectedTheatreId: Value
    var showAddModal: bool
    var newTheatreData: TheatreForm

    constructor ()
      ensures theatres == Arr([]) && loading && error == None
      ensures !showDeleteModal && selectedTheatreId == Null
      ensures !showAddModal && newTheatreData == InitialForm()
    {
      theatres := Arr([]);
      loading := true;
      error := None;
      showDeleteModal := false;
      selectedTheatreId := Null;
      showAddModal := false;
      newTheatreData := InitialForm();
    }

    /** The mount effect: store what the service resolved to, or the fetch
        error; stop loading either way. */
    method LoadTheatres(fetched: Outcome<Value>)
      modifies this
      ensures theatres == if fetched.Ok? then fetched.value else old(theatres)
      ensures error == if fetched.Ok? then old(error) else Some(FetchError)
      ensures !loading
      ensures showDeleteModal == old(showDeleteModal) && selectedTheatreId == old(selectedTheatreId)
      ensures showAddModal == old(showAddModal) && newTheatreData == old(newTheatreData)
    {
      if fetched.Ok? {
        theatres := fetched.value;
      } else {
        error := Some(FetchError);
      }
      loading := false;
    }

    /** A row's delete button: remember its id and open the confirmation. */
    method HandleDelete(theatreId: Value)
      modifies this
      ensures selectedTheatreId == theatreId && showDeleteModal
      ensures theatres == old(theatres) && loading == old(loading) && error == old(error)
      ensures showAddModal == old(showAddModal) && newTheatreData == old(newTheatreData)
    {
      selectedTheatreId := theatreId;
      showDeleteModal := true;
    }

    /** confirmDelete: ask the service to delete the selected id; on success
        drop every row with that `_id`. A failed call, or a list that cannot
        be filtered, sets the delete error instead. The dialog closes in
        every case. */
    method ConfirmDelete(deleted: Outcome<Value>) returns (request: Value)
      modifies this
      ensures request == old(selectedTheatreId)
      ensures var kept := FilterOut(old(theatres), "_id", old(selectedTheatreId));
              && theatres == (if deleted.Ok? && kept.Some? then kept.value else old(theatres))
              && error == (if deleted.Ok? && kept.Some? then old(error) else Some(DeleteError))
      ensures !showDeleteModal
      ensures loading == old(loading) && selectedTheatreId == old(selectedTheatreId)
      ensures showAddModal == old(showAddModal) && newTheatreData == old(newTheatreData)
    {
      request := selectedTheatreId;
      if deleted.Ok? {
        var kept := FilterOut(theatres, "_id", selectedTheatreId);
        if kept.Some? {
          theatres := kept.value;
        } else {
          error := Some(DeleteError);
        }
      } else {
        error := Some(DeleteError);
      }
      showDeleteModal := false;
    }

    /** The add button opens the add dialog. */
    method HandleAddTheatre()
      modifies this
      ensures showAddModal
      ensures theatres == old(theatres) && loading == old(loading) && error == old(error)
      ensures showDeleteModal == old(showDeleteModal) && selectedTheatreId == old(selectedTheatreId)
      ensures newTheatreData == old(newTheatreData)
    {
      showAddModal := true;
    }

    /** The add dialog's close button (`onHide`); the form keeps its text. */
    method HideAddModal()
      modifies this
      ensures !showAddModal
      ensures theatres == old(theatres) && loading == old(loading) && error == old(error)
      ensures showDeleteModal == old(showDeleteModal) && selectedTheatreId == old(selectedTheatreId)
      ensures newTheatreData == old(newTheatreData)
    {
      showAddModal := false;
    }

    /** The delete dialog's close and Cancel buttons; the selection stays. */
    method HideDeleteModal()
      modifies this
      ensures !showDeleteModal
      ensures theatres == old(theatres) && loading == old(loading) && error == old(error)
      ensures selectedTheatreId == old(selectedTheatreId)
      ensures showAddModal == old(showAddModal) && newTheatreData == old(newTheatreData)
    {
      showDeleteModal := false;
    }

    /** handleAddTheatreSubmit: send the form; on success append it to the
        list, close the dialog and reset the form (to status "active"). A
        failed call, or a list that cannot be spread, sets the add error and
        leaves the dialog open with its text. */
    method HandleAddTheatreSubmit(added: Outcome<Value>) returns (request: Value)
      modifies this
      ensures request == FormValue(old(newTheatreData))
      ensures var items := Spread(old(theatres));
              if added.Ok? && items.Some? then
                && theatres == Arr(items.value + [FormValue(old(newTheatreData))])
                && !showAddModal && newTheatreData == ResetForm() && error == old(error)
              else
                && theatres == old(theatres) && showAddModal == old(showAddModal)
                && newTheatreData == old(newTheatreData) && error == Some(AddError)
      ensures loading == old(loading) && showDeleteModal == old(showDeleteModal)
      ensures selectedTheatreId == old(selectedTheatreId)
    {
      request := FormValue(newTheatreData);
      var items := Spread(theatres);
      if added.Ok? && items.Some? {
        theatres := Arr(items.value + [request]);
        showAddModal := false;
        newTheatreData := ResetForm();
      } else {
        error := Some(AddError);
      }
    }

    /** A text input's or the status select's change handler. */
    method UpdateField(l: Leaf, value: string)
      modifies this
      ensures newTheatreData == SetLeaf(old(newTheatreData), l, value)
      ensures theatres == old(theatres) && loading == old(loading) && error == old(error)
      ensures showDeleteModal == old(showDeleteModal) && selectedTheatreId == old(selectedTheatreId)
      ensures showAddModal == old(showAddModal)
    {
      newTheatreData := SetLeaf(newTheatreData, l, value);
    }

    /** The amenities select's change handler, given the indices of the
        picked options. */
    method UpdateAmenities(picked: set<int>)
      modifies this
      ensures newTheatreData == old(newTheatreData).(amenities := Selected(TheaterAmenities, picked))
      ensures theatres == old(theatres) && loading == old(loading) && error == old(error)
      ensures showDeleteModal == old(showDeleteModal) && selectedTheatreId == old(selectedTheatreId)
      ensures showAddModal == old(showAddModal)
    {
      newTheatreData := newTheatreData.(amenities := Selected(TheaterAmenities, picked));
    }
  }
}
