/**
 * JSON values and the host's serialiser and parser, kept abstract: `JSON.stringify`
 * and `JSON.parse` are supplied as a `Codec`, and the only fact required of them is
 * the round-trip law `RoundTrips`, stated where a property needs it. The law covers
 * the values `JSON.parse` can return (`Representable`), not every value of `Json`.
 */
module Json {
  import opened Wrappers

  datatype Json =
    | JNull
    | JBool(b: bool)
    | JNumber(n: int)
    | JString(s: string)
    | JArray(items: seq<Json>)
    | JObject(fields: seq<(string, Json)>)

  /** `stringify` is `JSON.stringify`; `parse` is `JSON.parse`, `None` where it throws. */
  datatype Codec = Codec(stringify: Json -> string, parse: string -> Option<Json>)

  /** `Number.MAX_SAFE_INTEGER`: the integers up to it survive the trip through a double. */
  const MaxSafeInteger: int := 0x1F_FFFF_FFFF_FFFF

  /** The number a string of decimal digits denotes. */
  function DigitsValue(k: string): nat
    requires forall i | 0 <= i < |k| :: '0' <= k[i] <= '9'
  {
    if k == [] then 0 else DigitsValue(k[..|k| - 1]) * 10 + (k[|k| - 1] as int - '0' as int)
  }

  /** A property key JavaScript treats as an array index: canonical decimal below 2^32 - 1. */
  predicate IndexKey(k: string) {
    && 1 <= |k|
    && (forall i | 0 <= i < |k| :: '0' <= k[i] <= '9')
    && (k[0] != '0' || |k| == 1)
    && DigitsValue(k) < 0xFFFF_FFFF
  }

  /**
   * The key order of an object `JSON.parse` builds: keys are distinct (a repeated key
   * keeps its last value), and index keys come first, in ascending numeric order.
   */
  predicate KeysInOrder(fields: seq<(string, Json)>) {
    && (forall i, j | 0 <= i < j < |fields| :: fields[i].0 != fields[j].0)
    && (forall i, j | 0 <= i < j < |fields| && IndexKey(fields[j].0) ::
          IndexKey(fields[i].0) && DigitsValue(fields[i].0) < DigitsValue(fields[j].0))
  }

  /** A value `JSON.parse` can return: safe integers and objects in JavaScript key order, throughout. */
  predicate Representable(v: Json) {
    match v
    case JNumber(n) => -MaxSafeInteger <= n <= MaxSafeInteger
    case JArray(items) => forall i | 0 <= i < |items| :: Representable(items[i])
    case JObject(fields) => KeysInOrder(fields) && forall i | 0 <= i < |fields| :: Representable(fields[i].1)
    case _ => true
  }

  /** Parsing the text of a representable value gives the value back. */
  ghost predicate RoundTrips(c: Codec) {
    forall v | Representable(v) :: c.parse(c.stringify(v)) == Some(v)
  }
}
