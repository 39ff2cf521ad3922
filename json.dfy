/**
 * JavaScript values as the configuration and the test fixtures use them.
 * An object records its own enumerable keys in insertion order (`keys`) next
 * to the key-value mapping (`fields`); WellFormed says the two agree.
 */
module Json {
  import opened Wrappers
  import NumberParsing

  datatype Value =
    | Null
    | Bool(b: bool)
    | Num(n: int)
    | Str(s: string)
    | List(items: seq<Value>)
    | Obj(keys: seq<string>, fields: map<string, Value>)

  /** An object with no properties, `{}`. */
  const EmptyObject: Value := Obj([], map[])

  predicate Distinct(keys: seq<string>) {
    forall i, j | 0 <= i < j < |keys| :: keys[i] != keys[j]
  }

  /** Every object lists each of its keys exactly once, and nothing else. */
  predicate WellFormed(v: Value) {
    match v
    case List(items) => forall i | 0 <= i < |items| :: WellFormed(items[i])
    case Obj(keys, fields) =>
      && Distinct(keys)
      && (forall i | 0 <= i < |keys| :: keys[i] in fields)
      && (forall k | k in fields :: k in keys)
      && (forall k | k in fields :: WellFormed(fields[k]))
    case _ => true
  }

  /** Two objects with the same key order and the same value at every key are equal. */
  lemma SameObject(a: Value, b: Value)
    requires a.Obj? && b.Obj? && a.keys == b.keys && a.fields.Keys == b.fields.Keys
    requires forall k | k in a.fields :: a.fields[k] == b.fields[k]
    ensures a == b
  {
    assert a.fields == b.fields;
  }

  /** The value reached by following `path` through nested objects, if any. */
  function Lookup(v: Value, path: seq<string>): Option<Value> {
    if path == [] then Some(v)
    else if v.Obj? && path[0] in v.fields then Lookup(v.fields[path[0]], path[1..])
    else None
  }

  /** Looking up `[k] + rest` in an object is looking up `rest` in its property `k`. */
  lemma LookupStep(v: Value, k: string, rest: seq<string>)
    requires v.Obj? && k in v.fields
    ensures Lookup(v, [k] + rest) == Lookup(v.fields[k], rest)
  {
    assert ([k] + rest)[1..] == rest;
  }

  /**
   * ToBoolean of an argument that may be undefined (`None`): the falsy values
   * are undefined, null, false, 0 and the empty string.
   */
  predicate Truthy(v: Option<Value>)
    ensures Truthy(v) <==> v.Some? && v.value != Null && v.value != Bool(false) && v.value != Num(0) && v.value != Str("")
  {
    match v
    case None => false
    case Some(Null) => false
    case Some(Bool(b)) => b
    case Some(Num(n)) => n != 0
    case Some(Str(s)) => s != ""
    case Some(List(_)) => true
    case Some(Obj(_, _)) => true
  }

  /** The array indices "0", "1", ..., of a string or array of length n. */
  function IndexKeys(n: nat): (r: seq<string>)
    ensures |r| == n
  {
    seq(n, i => NumberParsing.Decimal(i))
  }

  /**
   * Object.keys(v): the own enumerable keys, in order. A string and an array
   * list their indices; a number, a boolean and null have none.
   */
  function ObjectKeys(v: Value): (r: seq<string>)
    ensures v.Obj? ==> r == v.keys
    ensures v.Str? ==> |r| == |v.s|
    ensures v.List? ==> |r| == |v.items|
    ensures v.Null? || v.Bool? || v.Num? ==> r == []
  {
    match v
    case Obj(keys, _) => keys
    case Str(s) => IndexKeys(|s|)
    case List(items) => IndexKeys(|items|)
    case _ => []
  }

  /**
   * The property assignment `v[k] = x` on an object: an existing key keeps
   * its place in the key order, a new key is added last.
   */
  function SetField(v: Value, k: string, x: Value): (r: Value)
    requires v.Obj?
    ensures r.Obj? && k in r.fields && r.fields[k] == x
    ensures forall j | j != k :: (j in r.fields <==> j in v.fields)
    ensures forall j | j != k && j in v.fields :: r.fields[j] == v.fields[j]
    ensures k in v.keys ==> r.keys == v.keys
    ensures k !in v.keys ==> r.keys == v.keys + [k]
  {
    Obj(if k in v.keys then v.keys else v.keys + [k], v.fields[k := x])
  }

  /** An assignment keeps an object well formed when the new value is. */
  lemma SetFieldWellFormed(v: Value, k: string, x: Value)
    requires v.Obj? && WellFormed(v) && WellFormed(x)
    ensures WellFormed(SetField(v, k, x))
  {
    var r := SetField(v, k, x);
    if k !in v.keys {
      forall i, j | 0 <= i < j < |r.keys| ensures r.keys[i] != r.keys[j] {
        if j == |v.keys| {
          assert r.keys[i] == v.keys[i];
        }
      }
    }
  }

  /** Assigning the same property twice leaves only the second assignment. */
  lemma SetFieldTwice(v: Value, k: string, x: Value, y: Value)
    requires v.Obj?
    ensures SetField(SetField(v, k, x), k, y) == SetField(v, k, y)
  {
  }
}
