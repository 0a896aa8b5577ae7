/**
 * The JavaScript values that travel through the dispatcher: resource data,
 * request bodies, filter results. Numbers are integers here.
 */
module Values {
  import opened Numbers

  datatype Value =
    | Undefined
    | Null
    | Bool(b: bool)
    | Num(n: int)
    | Str(s: string)
    | Arr(items: seq<Value>)
    | Obj(fields: map<string, Value>)

  /** JavaScript truthiness: `undefined`, `null`, `false`, `0` and `''` are falsy. */
  predicate Truthy(v: Value)
  {
    match v
    case Undefined => false
    case Null => false
    case Bool(b) => b
    case Num(n) => n != 0
    case Str(s) => s != ""
    case _ => true
  }

  /** An array's entries: each element keyed by the decimal rendering of its index. */
  function IndexKeyed(items: seq<Value>): (m: map<string, Value>)
    ensures forall i: nat :: i < |items| ==> NatToString(i) in m && m[NatToString(i)] == items[i]
    ensures forall k :: k in m ==> exists i: nat :: i < |items| && k == NatToString(i)
  {
    if |items| == 0 then map[]
    else
      var last := |items| - 1;
      var m := IndexKeyed(items[..last])[NatToString(last) := items[last]];
      NatToStringInjective();
      assert forall i: nat :: i < last ==> items[..last][i] == items[i];
      m
  }

  /** The largest length lodash's `isLength` accepts: `Number.MAX_SAFE_INTEGER`. */
  const MaxSafeInteger: int := 9007199254740991

  /**
   * An object lodash walks by index rather than by key: its "length" field is
   * a number that `isLength` accepts.
   */
  predicate ArrayLike(fields: map<string, Value>)
  {
    "length" in fields && fields["length"].Num? && 0 <= fields["length"].n <= MaxSafeInteger
  }

  /** A string's characters, each as a one-character string. */
  function Chars(s: string): (cs: seq<Value>)
    ensures |cs| == |s| && forall i :: 0 <= i < |s| ==> cs[i] == Str([s[i]])
  {
    seq(|s|, i requires 0 <= i < |s| => Str([s[i]]))
  }

  /** `obj[key]`: the field under `key`, or `undefined`. */
  function Field(fields: map<string, Value>, key: string): Value
  {
    if key in fields then fields[key] else Undefined
  }

  /** An array-like object's entries: every index below `len`, keyed by its decimal rendering, with `obj[i]`. */
  function IndexedFields(fields: map<string, Value>, len: nat): (m: map<string, Value>)
    ensures forall i: nat :: i < len ==> NatToString(i) in m && m[NatToString(i)] == Field(fields, NatToString(i))
  {
    if len == 0 then map[]
    else
      NatToStringInjective();
      IndexedFields(fields, len - 1)[NatToString(len - 1) := Field(fields, NatToString(len - 1))]
  }

  /** An array-like object's entries have no key but its indices. */
  lemma {:induction false} IndexedFieldsKeys(fields: map<string, Value>, len: nat, k: string)
    requires k in IndexedFields(fields, len)
    ensures exists i: nat :: i < len && k == NatToString(i)
  {
    assert len > 0;
    if k != NatToString(len - 1) {
      IndexedFieldsKeys(fields, len - 1, k);
      var i: nat :| i < len - 1 && k == NatToString(i);
      assert i < len;
    }
  }

  /**
   * The (key, value) pairs lodash's `_.each` visits: the own properties of an
   * object, except that an array-like object is walked by index from 0 up to
   * its length; the indices of an array or of a string (one-character
   * strings); nothing for anything else.
   */
  function Entries(v: Value): (m: map<string, Value>)
    ensures v.Obj? && !ArrayLike(v.fields) ==> m == v.fields
    ensures v.Obj? && ArrayLike(v.fields) ==> m == IndexedFields(v.fields, v.fields["length"].n)
    ensures v.Arr? ==> m == IndexKeyed(v.items)
    ensures !(v.Obj? || v.Arr? || v.Str?) ==> m == map[]
  {
    match v
    case Obj(f) =>
      if ArrayLike(f) then IndexedFields(f, f["length"].n) else f
    case Arr(items) => IndexKeyed(items)
    case Str(s) => IndexKeyed(Chars(s))
    case _ => map[]
  }

  /** "length" is no index key, so an array-like object is walked into a plain one. */
  lemma {:induction false} NoLengthIndex(fields: map<string, Value>, len: nat)
    ensures "length" !in IndexedFields(fields, len)
  {
    if len > 0 {
      NoLengthIndex(fields, len - 1);
      assert IsDigit(NatToString(len - 1)[0]);
    }
  }

  /** "length" is no key of an array's entries either. */
  lemma {:induction false} NoLengthKey(items: seq<Value>)
    ensures "length" !in IndexKeyed(items)
  {
    if |items| > 0 {
      NoLengthKey(items[..|items| - 1]);
      assert IsDigit(NatToString(|items| - 1)[0]);
    }
  }

  /**
   * `_updateData(newData)`: the resource data becomes a fresh object holding
   * every entry of `newData` except the one named "resources".
   */
  function UpdatedData(newData: Value): (r: Value)
    ensures r.Obj? && "resources" !in r.fields
    ensures forall k :: k in Entries(newData) && k != "resources" ==>
              k in r.fields && r.fields[k] == Entries(newData)[k]
    ensures forall k :: k in r.fields ==> k in Entries(newData)
  {
    Obj(Entries(newData) - {"resources"})
  }

  /** Updating twice with the same data is the same as updating once. */
  lemma UpdatedDataIdempotent(v: Value)
    ensures UpdatedData(UpdatedData(v)) == UpdatedData(v)
  {
    var w := UpdatedData(v);
    match v {
      case Obj(f) =>
        if ArrayLike(f) {
          NoLengthIndex(f, f["length"].n);
        }
      case Arr(items) => NoLengthKey(items);
      case Str(s) => NoLengthKey(Chars(s));
      case _ =>
    }
    assert !ArrayLike(w.fields);
    assert Entries(w) == w.fields;
    assert w.fields - {"resources"} == w.fields;
  }
}
