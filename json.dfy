/**
 * A PHP value as `json_decode($text, true)` produces it: JSON objects become
 * associative arrays, JSON arrays become lists, numbers become ints or floats.
 */
module Json {
  import opened Wrappers
  import opened PhpText

  datatype Json =
    | JNull
    | JBool(b: bool)
    | JInt(i: int)
      /** A PHP float, carried as the text PHP's string conversion gives it. */
    | JFloat(repr: string)
    | JString(s: string)
    | JArray(items: seq<Json>)
    | JObject(members: map<string, Json>)

  /** PHP's `[]`: the empty list, which is also the empty associative array. */
  const EmptyArray: Json := JArray([])

  /** The PHP types a `?array` parameter admits. */
  predicate IsArrayOrNull(v: Json)
  {
    v.JNull? || v.JArray? || v.JObject?
  }

  /**
   * `$v[$key]` as `isset` and `??` see it: present only when `v` is an
   * associative array holding a non-null value under `key`. A list, a scalar
   * or a string has no member under a non-numeric key.
   */
  function Get(v: Json, key: string): (r: Option<Json>)
    ensures r.Some? ==> r.value != JNull && v.JObject? && key in v.members
    ensures v.JObject? && key in v.members && v.members[key] != JNull ==> r == Some(v.members[key])
  {
    if v.JObject? && key in v.members && v.members[key] != JNull then Some(v.members[key]) else None
  }

  /** `$v[$key] ?? $default`. */
  function GetOr(v: Json, key: string, default: Json): (r: Json)
    ensures Get(v, key).None? ==> r == default
    ensures Get(v, key).Some? ==> r == Get(v, key).value && r != JNull
  {
    match Get(v, key)
    case Some(x) => x
    case None => default
  }

  /**
   * The text PHP splices in for `{$v}` inside a double-quoted string:
   * strings verbatim, integers in decimal, true as "1", false and null as
   * "", and any array as "Array".
   */
  function PhpString(v: Json): (r: string)
    ensures v.JString? ==> r == v.s
    ensures v.JInt? ==> IsSignedDecimal(r) && SignedDecimalValue(r) == v.i
    ensures v.JInt? ==> (r[0] == '-' <==> v.i < 0)
    ensures v.JInt? && r[0] == '-' ==> r[1] != '0'
    ensures v.JInt? && r[0] != '-' && |r| > 1 ==> r[0] != '0'
    ensures v.JFloat? ==> r == v.repr
    ensures v.JNull? ==> r == ""
    ensures v.JBool? ==> r == (if v.b then "1" else "")
    ensures v.JArray? || v.JObject? ==> r == "Array"
  {
    match v
    case JNull => ""
    case JBool(b) => if b then "1" else ""
    case JInt(i) => IntToDecimal(i)
    case JFloat(repr) => repr
    case JString(s) => s
    case JArray(_) => "Array"
    case JObject(_) => "Array"
  }
}
