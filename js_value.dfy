/** The JavaScript values the pages hold in their state: decoded JSON from the
    backend, form records built with object spread, and the primitives React
    hands to event handlers. */
module JsValue {
  import opened Outcomes

  /** Numbers are integers (no NaN, no fractions); an object is the list of
      its own properties in the order `Object.keys` reports them. */
  datatype Value =
    | Undefined
    | Null
    | Bool(b: bool)
    | Num(n: int)
    | Str(s: string)
    | Arr(items: seq<Value>)
    | Obj(fields: Fields)

  type Fields = seq<(string, Value)>

  /** JavaScript truthiness: `false`, `0`, `""`, `null` and `undefined` are falsy. */
  predicate Truthy(v: Value) {
    match v
    case Undefined => false
    case Null => false
    case Bool(b) => b
    case Num(n) => n != 0
    case Str(s) => s != ""
    case Arr(_) => true
    case Obj(_) => true
  }

  /** Reading any property of these throws a TypeError. */
  predicate Nullish(v: Value) {
    v.Undefined? || v.Null?
  }

  /** `a || b`: the first operand when it is truthy, the second otherwise. */
  function Or(a: Value, b: Value): (r: Value)
    ensures r == a || r == b
    ensures Truthy(b) ==> Truthy(r)
    ensures Truthy(a) <==> Truthy(r) && r == a
  {
    if Truthy(a) then a else b
  }

  /** The property names of a field list, in order. */
  function Keys(fs: Fields): (ks: seq<string>)
    ensures |ks| == |fs|
    ensures forall i :: 0 <= i < |fs| ==> ks[i] == fs[i].0
  {
    if fs == [] then [] else [fs[0].0] + Keys(fs[1..])
  }

  /** No property name occurs twice (true of every object `JSON.parse` or a
      spread builds). */
  predicate UniqueKeys(fs: Fields) {
    forall i, j :: 0 <= i < j < |fs| ==> fs[i].0 != fs[j].0
  }

  /** `o[k]` on an object: the value of its property `k`, `undefined` if it
      has none. */
  function Lookup(fs: Fields, k: string): (v: Value)
    ensures k !in Keys(fs) ==> v == Undefined
  {
    if fs == [] then Undefined
    else if fs[0].0 == k then fs[0].1
    else Lookup(fs[1..], k)
  }

  /** `{...o, [k]: v}`: an existing property keeps its place and takes the new
      value; a new one goes at the end. */
  function Put(fs: Fields, k: string, v: Value): (r: Fields)
    ensures Keys(r) == if k in Keys(fs) then Keys(fs) else Keys(fs) + [k]
    ensures Lookup(r, k) == v
    ensures forall j :: j != k ==> Lookup(r, j) == Lookup(fs, j)
  {
    if fs == [] then [(k, v)]
    else if fs[0].0 == k then [(k, v)] + fs[1..]
    else [fs[0]] + Put(fs[1..], k, v)
  }

  /** The decimal name JavaScript gives an array or string index. */
  function IndexKey(n: nat): (s: string)
    ensures |s| > 0
    ensures forall i :: 0 <= i < |s| ==> '0' <= s[i] <= '9'
  {
    if n < 10 then [Digit(n)] else IndexKey(n / 10) + [Digit(n % 10)]
  }

  function Digit(d: nat): (c: char)
    requires d < 10
    ensures '0' <= c <= '9'
  {
    "0123456789"[d]
  }

  /** The own enumerable properties of a value, as `Object.keys(v)` and
      `{...v}` see them: an object's fields, the indices of an array or a
      string, and nothing for other primitives, `null` and `undefined`. */
  function OwnEntries(v: Value): (es: Fields)
    ensures v.Obj? ==> es == v.fields
    ensures v.Arr? ==> |es| == |v.items| && forall i :: 0 <= i < |es| ==> es[i] == (IndexKey(i), v.items[i])
    ensures v.Str? ==> |es| == |v.s| && forall i :: 0 <= i < |es| ==> es[i] == (IndexKey(i), Str([v.s[i]]))
    ensures !(v.Obj? || v.Arr? || v.Str?) ==> es == []
  {
    match v
    case Obj(fs) => fs
    case Arr(items) => seq(|items|, i requires 0 <= i < |items| => (IndexKey(i), items[i]))
    case Str(s) => seq(|s|, i requires 0 <= i < |s| => (IndexKey(i), Str([s[i]])))
    case _ => []
  }

  /** `v.k` for the property names this application reads: an object's own
      property, and `undefined` on every other value (none of these names is
      `length` or an array method). */
  function Prop(v: Value, k: string): (r: Value)
    ensures !v.Obj? ==> r == Undefined
  {
    if v.Obj? then Lookup(v.fields, k) else Undefined
  }

  /** `v?.k`: optional chaining yields `undefined` on a nullish value. */
  function OptionalProp(v: Value, k: string): (r: Value)
    ensures Nullish(v) ==> r == Undefined
    ensures !Nullish(v) ==> r == Prop(v, k)
  {
    if Nullish(v) then Undefined else Prop(v, k)
  }

  /** `[...v]`: the elements of an array, the characters of a string as
      one-character strings; spreading anything else throws. */
  function Spread(v: Value): (r: Option<seq<Value>>)
    ensures r.Some? <==> v.Arr? || v.Str?
    ensures v.Arr? ==> r == Some(v.items)
    ensures v.Str? ==> |r.value| == |v.s| && forall i :: 0 <= i < |v.s| ==> r.value[i] == Str([v.s[i]])
  {
    match v
    case Arr(items) => Some(items)
    case Str(s) => Some(seq(|s|, i requires 0 <= i < |s| => Str([s[i]])))
    case _ => None
  }

  /** A list of strings as the array of JavaScript strings holding them. */
  function Strs(xs: seq<string>): (vs: seq<Value>)
    ensures |vs| == |xs| && forall i :: 0 <= i < |xs| ==> vs[i] == Str(xs[i])
  {
    seq(|xs|, i requires 0 <= i < |xs| => Str(xs[i]))
  }

  /** A value React accepts as a child (`{v}` in JSX): `null`, `undefined`,
      booleans, numbers and strings, and arrays of such children. A plain
      object is not a valid child: rendering one throws. */
  predicate ValidChild(v: Value) {
    match v
    case Obj(_) => false
    case Arr(items) => forall i :: 0 <= i < |items| ==> ValidChild(items[i])
    case _ => true
  }

  /** No name occurs twice. */
  predicate Distinct(ks: seq<string>) {
    forall i, j :: 0 <= i < j < |ks| ==> ks[i] != ks[j]
  }

  /** The object literal `{k0: v0, k1: v1, ...}`. */
  function Record(keys: seq<string>, vals: seq<Value>): (fs: Fields)
    requires |keys| == |vals|
    ensures |fs| == |keys| && forall i :: 0 <= i < |keys| ==> fs[i] == (keys[i], vals[i])
  {
    seq(|keys|, i requires 0 <= i < |keys| => (keys[i], vals[i]))
  }

  /** An object literal with distinct names has those keys, in order, and
      each name reads its own value. */
  lemma RecordLookup(keys: seq<string>, vals: seq<Value>)
    requires |keys| == |vals| && Distinct(keys)
    ensures Keys(Record(keys, vals)) == keys && UniqueKeys(Record(keys, vals))
    ensures forall i :: 0 <= i < |keys| ==> Lookup(Record(keys, vals), keys[i]) == vals[i]
  {
    var fs := Record(keys, vals);
    LookupAll(fs);
  }

  /** In an object with unique keys, looking up the name of the i-th field
      yields that field's value. */
  lemma {:induction false} LookupAt(fs: Fields, i: nat)
    requires UniqueKeys(fs) && i < |fs|
    ensures Lookup(fs, fs[i].0) == fs[i].1
  {
    if i > 0 {
      assert fs[0].0 != fs[i].0;
      assert UniqueKeys(fs[1..]) by {
        forall a, b | 0 <= a < b < |fs| - 1 ensures fs[1..][a].0 != fs[1..][b].0 {
          assert fs[1..][a] == fs[a + 1] && fs[1..][b] == fs[b + 1];
        }
      }
      LookupAt(fs[1..], i - 1);
      assert fs[1..][i - 1] == fs[i];
    }
  }

  /** Every field of an object with unique keys is found by its name. */
  lemma LookupAll(fs: Fields)
    requires UniqueKeys(fs)
    ensures forall i :: 0 <= i < |fs| ==> Lookup(fs, fs[i].0) == fs[i].1
  {
    forall i | 0 <= i < |fs| ensures Lookup(fs, fs[i].0) == fs[i].1 {
      LookupAt(fs, i);
    }
  }

  /** A key occurs in a field list exactly when some field carries it. */
  lemma KeysMember(fs: Fields, k: string)
    ensures k in Keys(fs) <==> exists i :: 0 <= i < |fs| && fs[i].0 == k
  {
    if k in Keys(fs) {
      var i :| 0 <= i < |Keys(fs)| && Keys(fs)[i] == k;
      assert fs[i].0 == k;
    }
  }

  /** Spreading a new property into an object keeps its keys unique. */
  lemma {:induction false} PutKeepsUniqueKeys(fs: Fields, k: string, v: Value)
    requires UniqueKeys(fs)
    ensures UniqueKeys(Put(fs, k, v))
  {
    var r := Put(fs, k, v);
    forall i, j | 0 <= i < j < |r| ensures r[i].0 != r[j].0 {
      assert Keys(r)[i] == r[i].0 && Keys(r)[j] == r[j].0;
      if k in Keys(fs) {
        assert Keys(fs)[i] == fs[i].0 && Keys(fs)[j] == fs[j].0;
      } else if j < |fs| {
        assert Keys(fs)[i] == fs[i].0 && Keys(fs)[j] == fs[j].0;
      } else {
        assert Keys(r)[j] == k;
        assert Keys(fs)[i] == fs[i].0;
        KeysMember(fs, k);
      }
    }
  }

  /** Writing a property back with the value it already has changes nothing
      (when the object has the property). */
  lemma {:induction false} PutSameValue(fs: Fields, k: string)
    requires k in Keys(fs)
    ensures Put(fs, k, Lookup(fs, k)) == fs
  {
    if fs[0].0 != k {
      PutSameValue(fs[1..], k);
    }
  }

  /** A second write to the same property overrides the first. */
  lemma {:induction false} PutPut(fs: Fields, k: string, v: Value, w: Value)
    ensures Put(Put(fs, k, v), k, w) == Put(fs, k, w)
  {
    if fs != [] && fs[0].0 != k {
      PutPut(fs[1..], k, v, w);
    }
  }
}
