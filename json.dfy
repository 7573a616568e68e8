/** JSON values as the generator sees them: both the schema it reads and
    the data it produces are parsed JSON. An object is its list of
    (name, value) pairs in insertion order, the order `for..in` visits. */
module JsonValues {
  import opened Outcomes
  import opened Text

  datatype Json =
    | JNull
    | JBool(b: bool)
    | JInt(i: int)
    | JStr(s: string)
    | JArr(elems: seq<Json>)
    | JObj(fields: seq<(string, Json)>)

  /** JavaScript truthiness: `null`, `false`, `0` and `""` are falsy. */
  predicate Truthy(v: Json) {
    match v
    case JNull => false
    case JBool(b) => b
    case JInt(i) => i != 0
    case JStr(s) => s != ""
    case _ => true
  }

  /** `in` may be applied to it without throwing. */
  predicate IsObjectLike(v: Json) {
    v.JObj? || v.JArr?
  }

  function Keys(fields: seq<(string, Json)>): seq<string>
    decreases |fields|
  {
    if fields == [] then [] else [fields[0].0] + Keys(fields[1..])
  }

  /** What a parsed JSON object always satisfies: no name occurs twice. */
  predicate DistinctKeys(fields: seq<(string, Json)>) {
    forall i, j :: 0 <= i < j < |fields| ==> fields[i].0 != fields[j].0
  }

  /** The value stored under `key`, if any. */
  function Lookup(fields: seq<(string, Json)>, key: string): (r: Option<Json>)
    decreases |fields|
  {
    if fields == [] then None
    else if fields[0].0 == key then Some(fields[0].1)
    else Lookup(fields[1..], key)
  }

  /** `Lookup` finds a key exactly when some pair carries it, and what it
      finds is paired with that key. */
  lemma {:induction false} LookupFound(fields: seq<(string, Json)>, key: string)
    ensures Lookup(fields, key).Some? <==> exists i :: 0 <= i < |fields| && fields[i].0 == key
    ensures Lookup(fields, key).Some? ==> (key, Lookup(fields, key).value) in fields
    decreases |fields|
  {
    if fields != [] {
      LookupFound(fields[1..], key);
      if fields[0].0 != key && Lookup(fields[1..], key).Some? {
        var i :| 0 <= i < |fields| - 1 && fields[1..][i].0 == key;
        assert fields[i + 1].0 == key;
      }
    }
  }

  lemma {:induction false} LookupDistinct(fields: seq<(string, Json)>, i: nat)
    requires DistinctKeys(fields) && i < |fields|
    ensures Lookup(fields, fields[i].0) == Some(fields[i].1)
    decreases i
  {
    if i > 0 {
      LookupDistinct(fields[1..], i - 1);
    }
  }

  /** Property access `v[key]`, with `None` for `undefined`: own fields of an
      object, and the index properties of arrays and strings. */
  function Get(v: Json, key: string): (r: Option<Json>)
    ensures r.Some? ==> v.JObj? || v.JArr? || v.JStr?
    ensures v.JArr? && r.Some? ==> r.value in v.elems
    ensures v.JStr? && r.Some? ==> r.value.JStr? && |r.value.s| == 1
  {
    match v
    case JObj(fields) => Lookup(fields, key)
    case JArr(elems) =>
      (match ParseIndex(key)
       case Some(i) => if i < |elems| then Some(elems[i]) else None
       case None => None)
    case JStr(s) =>
      (match ParseIndex(key)
       case Some(i) => if i < |s| then Some(JStr([s[i]])) else None
       case None => None)
    case _ => None
  }

  /** `v.name` for a schema keyword: a name that is not an array index, so
      only an object can have it. */
  function Field(v: Json, name: string): (r: Option<Json>)
    ensures r.Some? ==> v.JObj? && (name, r.value) in v.fields
  {
    if v.JObj? then LookupFound(v.fields, name); Lookup(v.fields, name) else None
  }

  /** `name in v`, for a keyword `name`. */
  predicate HasField(v: Json, name: string) {
    Field(v, name).Some?
  }

  /** For a name that does not start with a digit, `Field` is property access. */
  lemma FieldIsGet(v: Json, name: string)
    requires name != [] && !IsDigit(name[0])
    ensures Get(v, name) == Field(v, name)
  {
  }

  /** The (name, value) pairs that `for (key in v)` visits, each with `v[key]`. */
  function Entries(v: Json): (r: seq<(string, Json)>)
    ensures v.JArr? ==> |r| == |v.elems|
    ensures v.JStr? ==> |r| == |v.s|
    ensures !v.JObj? ==> forall i :: 0 <= i < |r| ==> r[i].0 == NatToDecimal(i)
  {
    match v
    case JObj(fields) => fields
    case JArr(elems) => seq(|elems|, i requires 0 <= i < |elems| => (NatToDecimal(i), elems[i]))
    case JStr(s) => seq(|s|, i requires 0 <= i < |s| => (NatToDecimal(i), JStr([s[i]])))
    case _ => []
  }

  /** Every name `for..in` visits reads back as the value paired with it. */
  lemma EntriesAreProperties(v: Json, i: nat)
    requires v.JObj? ==> DistinctKeys(v.fields)
    requires i < |Entries(v)|
    ensures Get(v, Entries(v)[i].0) == Some(Entries(v)[i].1)
  {
    match v
    case JObj(fields) => LookupDistinct(fields, i);
    case JArr(elems) => ParseIndexInverse(NatToDecimal(i), i);
    case JStr(s) => ParseIndexInverse(NatToDecimal(i), i);
  }

  /** A falsy value has no enumerable properties, so `props || {}` and
      `props` are enumerated alike. */
  lemma FalsyHasNoEntries(v: Json)
    requires !Truthy(v)
    ensures Entries(v) == []
  {
  }
}
