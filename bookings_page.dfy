/** The bookings dashboard (src/pages/BookingsPage.js): a fixed list of
    sample bookings with a cancel button per row and a confirmation dialog;
    cancelling only filters the local list. */
module Bookings {
  import opened JsValue
  import opened ListFilter

  const IdKey := "booking_id"
  const BookingKeys: seq<string> := ["booking_id", "user_id", "theatre_name", "show_time", "seats"]

  /** A sample booking record, with its properties in source order. */
  function Booking(id: int, user: int, theatre: string, showTime: string, seats: seq<string>): Value {
    Obj(Record(BookingKeys, [Num(id), Num(user), Str(theatre), Str(showTime), Arr(Strs(seats))]))
  }

  /** A sample booking is an object whose `booking_id` is its number. */
  lemma BookingFields(id: int, user: int, theatre: string, showTime: string, seats: seq<string>)
    ensures var b := Booking(id, user, theatre, showTime, seats);
            && b.Obj? && Keys(b.fields) == BookingKeys && UniqueKeys(b.fields)
            && Prop(b, IdKey) == Num(id) && Prop(b, "user_id") == Num(user)
            && Prop(b, "theatre_name") == Str(theatre) && Prop(b, "show_time") == Str(showTime)
            && Prop(b, "seats") == Arr(Strs(seats))
  {
    var vals := [Num(id), Num(user), Str(theatre), Str(showTime), Arr(Strs(seats))];
    assert Distinct(BookingKeys);
    RecordLookup(BookingKeys, vals);
    assert BookingKeys[0] == IdKey && BookingKeys[1] == "user_id" && BookingKeys[2] == "theatre_name";
    assert BookingKeys[3] == "show_time" && BookingKeys[4] == "seats";
  }

  const Booking1 := Booking(1, 101, "Theatre A", "2025-05-25 20:00", ["A1", "A2", "A3"])
  const Booking2 := Booking(2, 102, "Theatre B", "2025-05-26 18:30", ["B1", "B2"])
  const Booking3 := Booking(3, 103, "Theatre C", "2025-05-27 22:00", ["C1", "C2", "C3", "C4"])
  const Booking4 := Booking(4, 104, "Theatre A", "2025-05-28 17:00", ["D1", "D2"])

  /** The dashboard's initial list. */
  const DummyBookings: seq<Value> := [Booking1, Booking2, Booking3, Booking4]

  /** The four samples are objects with `booking_id` 1 to 4. */
  lemma DummyIds()
    ensures Booking1.Obj? && Prop(Booking1, IdKey) == Num(1)
    ensures Booking2.Obj? && Prop(Booking2, IdKey) == Num(2)
    ensures Booking3.Obj? && Prop(Booking3, IdKey) == Num(3)
    ensures Booking4.Obj? && Prop(Booking4, IdKey) == Num(4)
  {
    BookingFields(1, 101, "Theatre A", "2025-05-25 20:00", ["A1", "A2", "A3"]);
    BookingFields(2, 102, "Theatre B", "2025-05-26 18:30", ["B1", "B2"]);
    BookingFields(3, 103, "Theatre C", "2025-05-27 22:00", ["C1", "C2", "C3", "C4"]);
    BookingFields(4, 104, "Theatre A", "2025-05-28 17:00", ["D1", "D2"]);
  }

  /** Every booking is an object, so the cancel filter can read them all. */
  ghost predicate AllObjects(xs: seq<Value>) {
    forall i :: 0 <= i < |xs| ==> xs[i].Obj?
  }

  /** Cancelling keeps every remaining booking an object. */
  lemma RejectKeepsObjects(xs: seq<Value>, id: Value)
    requires AllObjects(xs)
    ensures AllObjects(Reject(xs, IdKey, id))
  {
    var r := Reject(xs, IdKey, id);
    forall i | 0 <= i < |r| ensures r[i].Obj? {
      RejectMembership(xs, IdKey, id, r[i]);
    }
  }

  /** Bookings none of whose ids is `undefined` all survive a cancel by
      `undefined`. */
  lemma FourBookingsKeptByUndefined(a: Value, b: Value, c: Value, d: Value)
    requires Prop(a, IdKey) == Num(1) && Prop(b, IdKey) == Num(2)
    requires Prop(c, IdKey) == Num(3) && Prop(d, IdKey) == Num(4)
    ensures Reject([a, b, c, d], IdKey, Undefined) == [a, b, c, d]
  {
    RejectAppend([a, b], [c, d], IdKey, Undefined);
    RejectAppend([a], [b], IdKey, Undefined);
    RejectAppend([c], [d], IdKey, Undefined);
    RejectSingle(a, IdKey, Undefined);
    RejectSingle(b, IdKey, Undefined);
    RejectSingle(c, IdKey, Undefined);
    RejectSingle(d, IdKey, Undefined);
    assert [a, b] == [a] + [b] && [c, d] == [c] + [d] && [a, b, c, d] == [a, b] + [c, d];
  }

  /** Four objects form a list of objects. */
  lemma FourObjects(a: Value, b: Value, c: Value, d: Value)
    requires a.Obj? && b.Obj? && c.Obj? && d.Obj?
    ensures AllObjects([a, b, c, d])
  {
  }

  /** Cancelling id 2 from bookings with ids 1 to 4 removes exactly the
      second. */
  lemma FourBookingsCancelSecond(a: Value, b: Value, c: Value, d: Value)
    requires Prop(a, IdKey) == Num(1) && Prop(b, IdKey) == Num(2)
    requires Prop(c, IdKey) == Num(3) && Prop(d, IdKey) == Num(4)
    ensures Reject([a, b, c, d], IdKey, Num(2)) == [a, c, d]
  {
    RejectAppend([a, b], [c, d], IdKey, Num(2));
    RejectAppend([a], [b], IdKey, Num(2));
    RejectAppend([c], [d], IdKey, Num(2));
    RejectSingle(a, IdKey, Num(2));
    RejectSingle(b, IdKey, Num(2));
    RejectSingle(c, IdKey, Num(2));
    RejectSingle(d, IdKey, Num(2));
    assert [a, b] == [a] + [b] && [c, d] == [c] + [d] && [a, b, c, d] == [a, b] + [c, d];
  }

  /** The initial list consists of objects. */
  lemma DummyAllObjects()
    ensures AllObjects(DummyBookings)
  {
    DummyIds();
    FourObjects(Booking1, Booking2, Booking3, Booking4);
  }

  /** Confirming with no booking selected passes `undefined`, which no
      sample's `booking_id` equals: nothing is removed. */
  lemma ConfirmWithoutSelection()
    ensures Reject(DummyBookings, IdKey, OptionalProp(Null, IdKey)) == DummyBookings
  {
    DummyIds();
    FourBookingsKeptByUndefined(Booking1, Booking2, Booking3, Booking4);
  }

  /** Cancelling booking 2 removes exactly the second sample and keeps the
      other three in order. */
  lemma CancelSecondSample()
    ensures Reject(DummyBookings, IdKey, Num(2)) == [Booking1, Booking3, Booking4]
  {
    DummyIds();
    FourBookingsCancelSecond(Booking1, Booking2, Booking3, Booking4);
  }

  class AdminDashboard {
    var bookings: seq<Value>
    var loading: bool
    var showCancelModal: bool
    var selectedBooking: Value

    ghost predicate Valid()
      reads this
    {
      AllObjects(bookings)
    }

    constructor ()
      ensures Valid()
      ensures bookings == DummyBookings && !loading && !showCancelModal && selectedBooking == Null
    {
      bookings := DummyBookings;
      loading := false;
      showCancelModal := false;
      selectedBooking := Null;
      DummyAllObjects();
    }

    /** handleCancelBooking: drop the bookings with that `booking_id`, keep
        the rest in order, and hide the dialog; the selection stays. */
    method HandleCancelBooking(bookingId: Value)
      requires Valid()
      modifies this
      ensures Valid()
      ensures bookings == Reject(old(bookings), IdKey, bookingId)
      ensures !showCancelModal
      ensures loading == old(loading) && selectedBooking == old(selectedBooking)
    {
      RejectKeepsObjects(bookings, bookingId);
      bookings := Reject(bookings, IdKey, bookingId);
      showCancelModal := false;
    }

    /** A row's cancel button: select the booking and show the dialog. */
    method OpenCancelModal(booking: Value)
      modifies this
      ensures selectedBooking == booking && showCancelModal
      ensures bookings == old(bookings) && loading == old(loading)
    {
      selectedBooking := booking;
      showCancelModal := true;
    }

    /** The dialog's close and Cancel buttons: clear the selection and hide. */
    method CloseCancelModal()
      modifies this
      ensures selectedBooking == Null && !showCancelModal
      ensures bookings == old(bookings) && loading == old(loading)
    {
      selectedBooking := Null;
      showCancelModal := false;
    }

    /** The dialog's confirm button: cancel by `selectedBooking?.booking_id`. */
    method ConfirmCancel()
      requires Valid()
      modifies this
      ensures Valid()
      ensures bookings == Reject(old(bookings), IdKey, OptionalProp(old(selectedBooking), IdKey))
      ensures !showCancelModal
      ensures loading == old(loading) && selectedBooking == old(selectedBooking)
    {
      HandleCancelBooking(OptionalProp(selectedBooking, IdKey));
    }
  }
}
