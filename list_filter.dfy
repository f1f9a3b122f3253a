/** The one list operation the pages share: after a delete, refund or cancel,
    `list.filter((x) => x.key !== id)` keeps every row whose key differs. */
module ListFilter {
  import opened Outcomes
  import opened JsValue

  /** The rows `xs.filter((x) => x[key] !== id)` keeps, in their order. */
  function Reject(xs: seq<Value>, key: string, id: Value): (r: seq<Value>)
    ensures |r| <= |xs|
  {
    if xs == [] then []
    else (if Prop(xs[0], key) != id then [xs[0]] else []) + Reject(xs[1..], key, id)
  }

  /** The callback reads `x[key]` of every element, which throws on a
      nullish one. */
  predicate Readable(xs: seq<Value>) {
    forall i :: 0 <= i < |xs| ==> !Nullish(xs[i])
  }

  /** `list.filter(...)` on a state value: it throws (None) unless the value
      is an array whose elements can all be read. */
  function FilterOut(list: Value, key: string, id: Value): (r: Option<Value>)
    ensures r.Some? <==> list.Arr? && Readable(list.items)
    ensures r.Some? ==> r.value == Arr(Reject(list.items, key, id))
  {
    if list.Arr? && Readable(list.items) then Some(Arr(Reject(list.items, key, id))) else None
  }

  /** A row survives exactly when it was in the list and its key differs. */
  lemma {:induction false} RejectMembership(xs: seq<Value>, key: string, id: Value, x: Value)
    ensures x in Reject(xs, key, id) <==> x in xs && Prop(x, key) != id
  {
    if xs != [] {
      RejectMembership(xs[1..], key, id, x);
      assert xs == [xs[0]] + xs[1..];
    }
  }

  /** Filtering distributes over concatenation; with the one-row case this
      says the kept rows stay in their original order. */
  lemma {:induction false} RejectAppend(xs: seq<Value>, ys: seq<Value>, key: string, id: Value)
    ensures Reject(xs + ys, key, id) == Reject(xs, key, id) + Reject(ys, key, id)
  {
    if xs == [] {
      assert xs + ys == ys;
    } else {
      assert (xs + ys)[1..] == xs[1..] + ys;
      RejectAppend(xs[1..], ys, key, id);
    }
  }

  /** The one-row case of the order statement. */
  lemma RejectSingle(x: Value, key: string, id: Value)
    ensures Reject([x], key, id) == if Prop(x, key) != id then [x] else []
  {
    assert [x][1..] == [];
  }

  /** When no row carries the id, the list comes back unchanged. */
  lemma {:induction false} RejectNoMatch(xs: seq<Value>, key: string, id: Value)
    requires forall i :: 0 <= i < |xs| ==> Prop(xs[i], key) != id
    ensures Reject(xs, key, id) == xs
  {
    if xs != [] {
      RejectNoMatch(xs[1..], key, id);
    }
  }

  /** Filtering twice by the same id removes nothing more. */
  lemma {:induction false} RejectIdempotent(xs: seq<Value>, key: string, id: Value)
    ensures Reject(Reject(xs, key, id), key, id) == Reject(xs, key, id)
  {
    var r := Reject(xs, key, id);
    forall i | 0 <= i < |r| ensures Prop(r[i], key) != id {
      RejectMembership(xs, key, id, r[i]);
    }
    RejectNoMatch(r, key, id);
  }

  /** Exactly the matching rows are dropped: the lengths differ by their
      number. */
  lemma {:induction false} RejectCount(xs: seq<Value>, key: string, id: Value)
    ensures |Reject(xs, key, id)| == |xs| - Matches(xs, key, id)
  {
    if xs != [] {
      RejectCount(xs[1..], key, id);
    }
  }

  /** The number of rows whose key equals the id. */
  function Matches(xs: seq<Value>, key: string, id: Value): nat {
    if xs == [] then 0 else (if Prop(xs[0], key) == id then 1 else 0) + Matches(xs[1..], key, id)
  }

  /** A row-button handler that passes the row's `buttonKey` while the filter
      compares `filterKey` removes the clicked row exactly when the two
      properties of that row are equal. */
  lemma ClickedRowKept(xs: seq<Value>, x: Value, buttonKey: string, filterKey: string)
    requires x in xs
    ensures x in Reject(xs, filterKey, Prop(x, buttonKey)) <==> Prop(x, filterKey) != Prop(x, buttonKey)
  {
    RejectMembership(xs, filterKey, Prop(x, buttonKey), x);
  }

  /** Filtering keeps the elements readable. */
  lemma RejectReadable(xs: seq<Value>, key: string, id: Value)
    requires Readable(xs)
    ensures Readable(Reject(xs, key, id))
  {
    var r := Reject(xs, key, id);
    forall i | 0 <= i < |r| ensures !Nullish(r[i]) {
      RejectMembership(xs, key, id, r[i]);
      var j :| 0 <= j < |xs| && xs[j] == r[i];
    }
  }
}
