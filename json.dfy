/** The JavaScript values that descriptors are made of and that the classifiers
    inspect, with the few pieces of JavaScript semantics the core relies on:
    reading an own property, `typeof`, truthiness, and thrown exceptions. */
module Json {
  import opened Sequences

  datatype Option<+T> = None | Some(value: T)

  /** A JSON-like JavaScript value. An object is the list of its own properties in
      insertion order, which is the order `Object.keys` reports; numbers are modelled
      as unbounded integers. */
  datatype Json =
    | JNull
    | JBool(b: bool)
    | JInt(n: int)
    | JStr(s: string)
    | JArr(elems: seq<Json>)
    | JObj(fields: seq<(string, Json)>)

  /** An exception as thrown by JavaScript code: its `name` (`Error`, `TypeError`, ...)
      and its `message`. */
  datatype Exception = Exception(name: string, message: string)

  /** How a JavaScript call ends: it returns a value or it throws. */
  datatype Completion<+T> = Normal(value: T) | Throw(exception: Exception)

  /** `Object.keys(o)` for an object with the given fields. */
  function Keys(fields: seq<(string, Json)>): (ks: seq<string>)
    ensures |ks| == |fields|
    ensures forall i :: 0 <= i < |fields| ==> ks[i] == fields[i].0
  {
    seq(|fields|, i requires 0 <= i < |fields| => fields[i].0)
  }

  /** An object literal never holds the same key twice. */
  predicate DistinctKeys(fields: seq<(string, Json)>) {
    Distinct(Keys(fields))
  }

  /** The value stored under `k`, if any. */
  function Lookup(fields: seq<(string, Json)>, k: string): (r: Option<Json>)
    ensures r.Some? <==> k in Keys(fields)
    ensures r.Some? ==> (k, r.value) in fields
  {
    if fields == [] then None
    else if fields[0].0 == k then Some(fields[0].1)
    else
      assert Keys(fields) == [fields[0].0] + Keys(fields[1..]);
      Lookup(fields[1..], k)
  }

  /** In an object with distinct keys, each key finds its own value. */
  lemma {:induction false} LookupAt(fields: seq<(string, Json)>, i: nat)
    requires i < |fields| && DistinctKeys(fields)
    ensures Lookup(fields, fields[i].0) == Some(fields[i].1)
  {
    if i > 0 {
      KeysTail(fields);
      assert fields[1..][i - 1] == fields[i];
      assert fields[i].0 in Keys(fields[1..]);
      LookupAt(fields[1..], i - 1);
    }
  }

  /** Reading property `k` of a value: `value[k]`, with `None` for `undefined`. Only
      objects have own data properties among the names a descriptor uses. */
  function Get(value: Json, k: string): (r: Option<Json>)
    ensures r.Some? <==> value.JObj? && k in Keys(value.fields)
    ensures r.Some? ==> (k, r.value) in value.fields
  {
    if value.JObj? then Lookup(value.fields, k) else None
  }

  /** The number of keys `Object.keys(value)` reports for a value other than `null`:
      the own properties of an object, the indices of an array or a string, none for
      a boolean or a number. A string's indices are counted per character here, where
      JavaScript counts UTF-16 code units. */
  function KeyCount(value: Json): (n: nat)
    ensures value.JObj? ==> n == |Keys(value.fields)|
    ensures value.JArr? ==> n == |value.elems|
    ensures value.JStr? ==> n == |value.s|
    ensures value.JBool? || value.JInt? ==> n == 0
  {
    match value
    case JObj(fields) => |fields|
    case JArr(elems) => |elems|
    case JStr(s) => |s|
    case _ => 0
  }

  /** The `typeof` operator applied to a property read (`None` is `undefined`). */
  function TypeOf(value: Option<Json>): (t: string)
    ensures t == "undefined" <==> value.None?
    ensures t == "string" <==> value.Some? && value.value.JStr?
    ensures t == "number" <==> value.Some? && value.value.JInt?
    ensures t == "boolean" <==> value.Some? && value.value.JBool?
    ensures t == "object" <==> value.Some? && (value.value.JNull? || value.value.JArr? || value.value.JObj?)
  {
    match value
    case None => "undefined"
    case Some(JNull) => "object"
    case Some(JBool(_)) => "boolean"
    case Some(JInt(_)) => "number"
    case Some(JStr(_)) => "string"
    case Some(JArr(_)) => "object"
    case Some(JObj(_)) => "object"
  }

  /** JavaScript truthiness: `null`, `false`, `0` and `""` are falsy, everything
      else (including every array and object, empty or not) is truthy. */
  predicate Truthy(value: Json): (b: bool)
    ensures !b <==> value == JNull || value == JBool(false) || value == JInt(0) || value == JStr("")
  {
    match value
    case JNull => false
    case JBool(b) => b
    case JInt(n) => n != 0
    case JStr(s) => s != ""
    case JArr(_) => true
    case JObj(_) => true
  }

  /** Every object inside the value, at any depth, has distinct keys. */
  predicate WellFormed(value: Json) {
    match value
    case JArr(elems) => forall i | 0 <= i < |elems| :: WellFormed(elems[i])
    case JObj(fields) => DistinctKeys(fields) && forall i | 0 <= i < |fields| :: WellFormed(fields[i].1)
    case _ => true
  }

  /** An array of strings, as `Object.keys` returns it. */
  function StringList(ks: seq<string>): (r: Json)
    ensures r.JArr? && |r.elems| == |ks|
    ensures forall i :: 0 <= i < |ks| ==> r.elems[i] == JStr(ks[i])
  {
    JArr(seq(|ks|, i requires 0 <= i < |ks| => JStr(ks[i])))
  }

  /** The strings of an array of strings; `None` for any other value. */
  function StringsOf(value: Json): (r: Option<seq<string>>)
    ensures r.Some? <==> value.JArr? && forall i :: 0 <= i < |value.elems| ==> value.elems[i].JStr?
    ensures r.Some? ==> |r.value| == |value.elems| && forall i :: 0 <= i < |r.value| ==> value.elems[i] == JStr(r.value[i])
  {
    if value.JArr? && forall i :: 0 <= i < |value.elems| ==> value.elems[i].JStr? then
      Some(seq(|value.elems|, i requires 0 <= i < |value.elems| => value.elems[i].s))
    else None
  }

  /** Reading back an array of strings gives the strings it was built from. */
  lemma StringListRoundTrip(ks: seq<string>)
    ensures StringsOf(StringList(ks)) == Some(ks)
  {
    var r := StringsOf(StringList(ks));
    assert r.Some?;
    assert |r.value| == |ks|;
    assert forall i :: 0 <= i < |ks| ==> r.value[i] == ks[i];
    assert r.value == ks;
  }

  lemma StringListWellFormed(ks: seq<string>)
    ensures WellFormed(StringList(ks))
  {
  }

  /** Sets property `k` as an assignment `o[k] = v` does: an existing key keeps its
      position, a new key goes last. */
  function Put(fields: seq<(string, Json)>, k: string, v: Json): seq<(string, Json)> {
    if fields == [] then [(k, v)]
    else if fields[0].0 == k then [(k, v)] + fields[1..]
    else [fields[0]] + Put(fields[1..], k, v)
  }

  /** Removes property `k`, as `delete o[k]` does. */
  function Delete(fields: seq<(string, Json)>, k: string): seq<(string, Json)> {
    if fields == [] then []
    else if fields[0].0 == k then Delete(fields[1..], k)
    else [fields[0]] + Delete(fields[1..], k)
  }

  /** Deleting the key that was appended last gives back the object before it. */
  lemma {:induction false} DeleteLast(fields: seq<(string, Json)>, k: string, v: Json)
    requires k !in Keys(fields)
    ensures Delete(fields + [(k, v)], k) == fields
  {
    if fields == [] {
      assert [(k, v)][1..] == [];
    } else {
      assert Keys(fields) == [fields[0].0] + Keys(fields[1..]);
      DeleteLast(fields[1..], k, v);
      assert (fields + [(k, v)])[1..] == fields[1..] + [(k, v)];
      assert fields == [fields[0]] + fields[1..];
    }
  }

  lemma KeysTail(fields: seq<(string, Json)>)
    requires fields != []
    ensures Keys(fields) == [fields[0].0] + Keys(fields[1..])
    ensures DistinctKeys(fields) ==> DistinctKeys(fields[1..]) && fields[0].0 !in Keys(fields[1..])
  {
    assert Keys(fields) == [fields[0].0] + Keys(fields[1..]);
    if DistinctKeys(fields) { DistinctTail(Keys(fields)); }
  }
}
