/** JSON values as trees, and what nlohmann::json makes of one when a C++ type is asked for. */
module Json {
  import opened Common

  // Objects are std::maps. Numbers are integers.
  datatype Json =
    | Null
    | Bool(b: bool)
    | Num(v: int)
    | Str(s: string)
    | Arr(items: seq<Json>)
    | Obj(fields: map<string, Json>)

  const U64: int := 0x1_0000_0000_0000_0000
  const U32: int := 0x1_0000_0000

  // ---- fields ----

  predicate Has(j: Json, key: string) { j.Obj? && key in j.fields }

  // at(): the field, or an exception.
  function At(j: Json, key: string): Result<Json> {
    if !j.Obj? then Err("cannot use at() here")
    else if key !in j.fields then Err("key '" + key + "' not found")
    else Ok(j.fields[key])
  }

  // value(): the field converted, or the default when it is absent. Only objects have fields.
  function ValueOr<T>(j: Json, key: string, default: T, get: Json -> Result<T>): Result<T> {
    if !j.Obj? then Err("cannot use value() here")
    else if key in j.fields then get(j.fields[key])
    else Ok(default)
  }

  // An optional field: absent is fine, present must convert.
  function Optional<T>(j: Json, key: string, get: Json -> Result<T>): Result<Option<T>> {
    if !Has(j, key) then Ok(None)
    else
      var v :- get(j.fields[key]);
      Ok(Some(v))
  }

  // Writing an optional field: nothing is written for an absent value.
  function PutOption(fields: map<string, Json>, key: string, v: Option<Json>): map<string, Json> {
    if v.None? then fields else fields[key := v.value]
  }

  // ---- conversions ----

  function AsString(j: Json): Result<string> {
    if j.Str? then Ok(j.s) else Err("type must be string")
  }

  function AsBool(j: Json): Result<bool> {
    if j.Bool? then Ok(j.b) else Err("type must be boolean")
  }

  // A number cast to an unsigned 64-bit integer.
  function AsU64(j: Json): (r: Result<nat>)
    ensures r.Ok? ==> r.value < U64
  {
    if j.Num? then Ok(j.v % U64) else Err("type must be number")
  }

  function AsI64(j: Json): (r: Result<int>)
    ensures r.Ok? ==> InI64(r.value)
  {
    if j.Num? then Ok(Signed(j.v, U64)) else Err("type must be number")
  }

  // A plain int also takes a boolean.
  function AsInt(j: Json): (r: Result<int>)
    ensures r.Ok? ==> InInt(r.value)
  {
    if j.Num? then Ok(Signed(j.v, U32))
    else if j.Bool? then Ok(if j.b then 1 else 0)
    else Err("type must be number")
  }

  // The value of a two's complement integer with m bit patterns.
  function Signed(v: int, m: int): int
    requires m > 0
  {
    if v % m < m / 2 then v % m else v % m - m
  }

  predicate InI64(v: int) { -U64 / 2 <= v < U64 / 2 }

  predicate InInt(v: int) { -U32 / 2 <= v < U32 / 2 }

  // The casts keep a value exactly when the type can hold it.
  lemma CastsKeep(v: int)
    ensures Signed(v, U64) == v <==> InI64(v)
    ensures Signed(v, U32) == v <==> InInt(v)
    ensures v % U64 == v <==> 0 <= v < U64
  {
  }

  // ---- sequences ----

  // Convert every element; the first that fails decides.
  function All<T>(js: seq<Json>, get: Json -> Result<T>): (r: Result<seq<T>>)
    ensures r.Ok? <==> forall k | 0 <= k < |js| :: get(js[k]).Ok?
    ensures r.Ok? ==> |r.value| == |js| && forall k | 0 <= k < |js| :: get(js[k]) == Ok(r.value[k])
  {
    if |js| == 0 then Ok([])
    else
      var front :- All(Front(js), get);
      var last :- get(Last(js));
      Ok(front + [last])
  }

  function AsStrings(j: Json): Result<seq<string>> {
    if j.Arr? then All(j.items, AsString) else Err("type must be array")
  }

  function FromStrings(ss: seq<string>): Json {
    Arr(seq(|ss|, k requires 0 <= k < |ss| => Str(ss[k])))
  }

  // Printing each element and converting each back gives the sequence.
  lemma AllInverse<T>(xs: seq<T>, js: seq<Json>, get: Json -> Result<T>)
    requires |js| == |xs| && forall k | 0 <= k < |xs| :: get(js[k]) == Ok(xs[k])
    ensures All(js, get) == Ok(xs)
  {
    var r := All(js, get);
    assert r.value == xs;
  }

  // A failure among the first k elements is the failure of the whole.
  lemma {:induction false} AllFailsEarly<T>(js: seq<Json>, get: Json -> Result<T>, k: nat)
    requires k <= |js|
    ensures All(js[..k], get).Err? ==> All(js, get) == Err(All(js[..k], get).error)
  {
    if k < |js| {
      AllFailsEarly(Front(js), get, k);
      assert Front(js)[..k] == js[..k];
    } else {
      assert js[..k] == js;
    }
  }

  lemma StringsInverse(ss: seq<string>)
    ensures AsStrings(FromStrings(ss)) == Ok(ss)
  {
    AllInverse(ss, FromStrings(ss).items, AsString);
  }

  // ---- iteration ----

  // What a range-for visits: elements of an array, values of an object in key order, nothing in
  // null, and any other value itself.
  function Items(j: Json): seq<Json> {
    match j
    case Null => []
    case Arr(items) => items
    case Obj(fields) => Values(fields)
    case _ => [j]
  }

  predicate KeyLe(a: string, b: string) {
    |a| == 0 || (|b| > 0 && (a[0] < b[0] || (a[0] == b[0] && KeyLe(a[1..], b[1..]))))
  }

  lemma {:induction false} KeysOrdered(a: string, b: string, c: string)
    ensures KeyLe(a, b) || KeyLe(b, a)
    ensures KeyLe(a, b) && KeyLe(b, a) ==> a == b
    ensures KeyLe(a, b) && KeyLe(b, c) ==> KeyLe(a, c)
    decreases |a|
  {
    if |a| == 0 || |b| == 0 {
    } else {
      KeysOrdered(a[1..], b[1..], if |c| > 0 then c[1..] else []);
      assert a == [a[0]] + a[1..] && b == [b[0]] + b[1..];
    }
  }

  predicate IsFirst(k: string, keys: set<string>) {
    k in keys && forall o | o in keys :: KeyLe(k, o)
  }

  lemma {:induction false} FirstExists(keys: set<string>)
    requires keys != {}
    ensures exists k :: IsFirst(k, keys)
    decreases keys
  {
    var x :| x in keys;
    KeysOrdered(x, x, x);
    if keys == {x} {
      assert IsFirst(x, keys);
    } else {
      FirstExists(keys - {x});
      var y :| IsFirst(y, keys - {x});
      var k := if KeyLe(x, y) then x else y;
      forall o | o in keys ensures KeyLe(k, o) {
        KeysOrdered(x, y, o);
        KeysOrdered(y, x, o);
      }
      assert IsFirst(k, keys);
    }
  }

  function FirstKey(keys: set<string>): (k: string)
    requires keys != {}
    ensures IsFirst(k, keys)
  {
    FirstExists(keys);
    FirstUnique(keys);
    var k :| IsFirst(k, keys);
    k
  }

  lemma FirstUnique(keys: set<string>)
    ensures forall k, o | IsFirst(k, keys) && IsFirst(o, keys) :: k == o
  {
    forall k, o | IsFirst(k, keys) && IsFirst(o, keys) ensures k == o {
      KeysOrdered(k, o, o);
    }
  }

  function Values(fields: map<string, Json>): (r: seq<Json>)
    decreases fields.Keys
  {
    if fields.Keys == {} then []
    else
      var k := FirstKey(fields.Keys);
      [fields[k]] + Values(fields - {k})
  }

  predicate KeyLt(a: string, b: string) { KeyLe(a, b) && a != b }

  // The values of all the fields, each once, under keys that increase.
  ghost predicate InKeyOrder(keys: seq<string>, values: seq<Json>, fields: map<string, Json>) {
    && |keys| == |values|
    && (forall k :: k in keys <==> k in fields)
    && (forall i | 0 <= i < |keys| :: keys[i] in fields && values[i] == fields[keys[i]])
    && (forall i, j | 0 <= i < j < |keys| :: KeyLt(keys[i], keys[j]))
  }

  lemma FirstInOrder(k: string, keys: seq<string>, values: seq<Json>, fields: map<string, Json>,
                     rest: map<string, Json>)
    requires IsFirst(k, fields.Keys) && InKeyOrder(keys, values, rest)
    requires forall x :: x in rest <==> x in fields && x != k
    requires forall x | x in rest :: rest[x] == fields[x]
    ensures InKeyOrder([k] + keys, [fields[k]] + values, fields)
  {
    forall i | 0 <= i < |keys| ensures KeyLt(k, keys[i]) && values[i] == fields[keys[i]] {
      assert keys[i] in rest;
    }
    Prepended(k, keys);
    forall x ensures x in [k] + keys <==> x in fields {
      assert x in [k] + keys <==> x == k || x in keys;
    }
  }

  lemma Prepended(k: string, keys: seq<string>)
    requires forall i | 0 <= i < |keys| :: KeyLt(k, keys[i])
    requires forall i, j | 0 <= i < j < |keys| :: KeyLt(keys[i], keys[j])
    ensures forall i, j | 0 <= i < j < |[k] + keys| :: KeyLt(([k] + keys)[i], ([k] + keys)[j])
  {
  }

  lemma {:induction false} ValuesInKeyOrder(fields: map<string, Json>) returns (keys: seq<string>)
    ensures InKeyOrder(keys, Values(fields), fields)
    decreases fields.Keys
  {
    if fields.Keys == {} {
      keys := [];
    } else {
      var k := FirstKey(fields.Keys);
      var rest := ValuesInKeyOrder(fields - {k});
      FirstInOrder(k, rest, Values(fields - {k}), fields, fields - {k});
      keys := [k] + rest;
    }
  }
}
