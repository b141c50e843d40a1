/**
 * The JSON values of nlohmann::json that the mapping files, the globals and
 * the mapping arguments are made of, and the handful of nlohmann accessors the
 * plugin relies on, with their failure modes: `.at` throws on a missing key,
 * the const `operator[]` is undefined on a missing key and throws on a
 * non-object, `get<std::string>()` throws on a non-string, `update` throws
 * unless both sides are objects.
 */
module Json {
  import opened Wrappers
  import opened CText

  datatype Json =
    | JNull
    | JBool(b: bool)
    | JInt(i: int)
    | JUInt(u: nat)
    | JFloat(r: real)
    | JStr(s: string)
    | JArr(elems: seq<Json>)
    | JObj(fields: map<string, Json>)
    | JBinary
    | JDiscarded
  {
    predicate IsNumber() { JInt? || JUInt? || JFloat? }

    /** nlohmann's is_primitive: null, string, boolean, number or binary. */
    predicate IsPrimitive() { JNull? || JStr? || JBool? || IsNumber() || JBinary? }
  }

  /** json::contains(key): false for every non-object. */
  predicate Contains(j: Json, key: string) {
    j.JObj? && key in j.fields
  }

  /** The const json::operator[](key). */
  function ConstAt(j: Json, key: string): (r: Outcome<Json>)
    ensures r.Done? <==> Contains(j, key)
    ensures r.Done? ==> r.value == j.fields[key]
    ensures r.Undefined? <==> j.JObj? && key !in j.fields
  {
    if !j.JObj? then Threw("type_error.305: cannot use operator[] with a string argument")
    else if key in j.fields then Done(j.fields[key])
    else Undefined("const operator[] on a missing key")
  }

  /** json::at(key): throws out_of_range on a missing key. */
  function At(j: Json, key: string): (r: Outcome<Json>)
    ensures r.Done? <==> Contains(j, key)
    ensures r.Done? ==> r.value == j.fields[key]
    ensures !r.Undefined?
  {
    if !j.JObj? then Threw("type_error.304: cannot use at() with this type")
    else if key in j.fields then Done(j.fields[key])
    else Threw("out_of_range.403: key not found")
  }

  /** json::get<std::string>(). */
  function GetString(j: Json): (r: Outcome<string>)
    ensures r.Done? <==> j.JStr?
    ensures r.Done? ==> r.value == j.s
    ensures !r.Undefined?
  {
    if j.JStr? then Done(j.s) else Threw("type_error.302: type must be string")
  }

  /** The keys `items()` gives an array: the decimal positions "0", "1", ... */
  function ArrayItems(elems: seq<Json>): (m: map<string, Json>)
    ensures forall i :: 0 <= i < |elems| ==> NatToString(i) in m
  {
    if elems == [] then map[]
    else
      var m := ArrayItems(elems[..|elems| - 1]);
      assert forall i :: 0 <= i < |elems| - 1 ==> NatToString(i) in m;
      m[NatToString(|elems| - 1) := elems[|elems| - 1]]
  }

  /**
   * What a range-for over `items()` visits, as key/value pairs: an object's
   * members, an array's positions, nothing for null, and for any other value
   * the value itself under the empty key.
   */
  function Items(j: Json): (m: map<string, Json>)
    ensures j.JObj? ==> m == j.fields
    ensures j.JNull? ==> m == map[]
    ensures !j.JObj? && !j.JArr? && !j.JNull? ==> m == map["" := j]
  {
    match j
    case JObj(fields) => fields
    case JArr(elems) => ArrayItems(elems)
    case JNull => map[]
    case _ => map["" := j]
  }

  /**
   * json::update(other): the keys of `other` are written over those of `j`.
   * A null `j` is first turned into an empty object; any other non-object on
   * either side throws.
   */
  function Update(j: Json, other: Json): (r: Outcome<Json>)
    ensures r.Done? <==> (j.JObj? || j.JNull?) && other.JObj?
    ensures !r.Undefined?
    ensures r.Done? ==> r.value.JObj?
    ensures r.Done? ==> forall k :: k in other.fields ==> k in r.value.fields && r.value.fields[k] == other.fields[k]
    ensures r.Done? && j.JObj? ==> forall k :: k in j.fields && k !in other.fields ==>
      k in r.value.fields && r.value.fields[k] == j.fields[k]
    ensures r.Done? ==> forall k :: k in r.value.fields ==> k in other.fields || (j.JObj? && k in j.fields)
  {
    if !(j.JObj? || j.JNull?) || !other.JObj? then Threw("type_error.312: cannot use update()")
    else
      var base := if j.JNull? then map[] else j.fields;
      Done(JObj(base + other.fields))
  }

  /**
   * The assignment `j[key] = v` through the non-const operator[]: null becomes
   * an object; any other non-object throws.
   */
  function Assign(j: Json, key: string, v: Json): (r: Outcome<Json>)
    ensures r.Done? <==> j.JObj? || j.JNull?
    ensures r.Done? ==> r.value.JObj? && key in r.value.fields && r.value.fields[key] == v
    ensures r.Done? && j.JObj? ==> forall k :: k in j.fields && k != key ==> k in r.value.fields && r.value.fields[k] == j.fields[k]
    ensures !r.Undefined?
  {
    if j.JObj? then Done(JObj(j.fields[key := v]))
    else if j.JNull? then Done(JObj(map[key := v]))
    else Threw("type_error.305: cannot use operator[] with a string argument")
  }
}
