/**
 * The boundary with `fetch`: parsed JSON values, what a request looks like
 * and what a response can be. No encoding, decoding or transport is
 * modelled; a response is an input value and a request an output record.
 *
 * JavaScript's `undefined` has no JSON form: a property whose value would
 * be `undefined` is modelled as an absent key, which is also what
 * `JSON.stringify` sends.
 */
module Http {
  import opened Wrappers
  import Text

  /** A parsed JSON value. Numbers are integers (fractions are not modelled). */
  datatype Json =
    | JNull
    | JBool(b: bool)
    | JNum(n: int)
    | JStr(s: string)
    | JArr(items: seq<Json>)
    | JObj(fields: map<string, Json>)

  /** `v.key` for a value `v` that is not `null`: the property of an
      object, `undefined` (None) for a missing key and for every
      non-object (strings, numbers and arrays have none of the keys read
      here). On `null` the access throws; see NullRead. */
  function Field(v: Json, key: string): (r: Option<Json>)
    ensures r.Some? <==> v.JObj? && key in v.fields
    ensures r.Some? ==> r.value == v.fields[key]
  {
    if v.JObj? && key in v.fields then Some(v.fields[key]) else None
  }

  /** JavaScript truthiness of a possibly `undefined` value. */
  predicate Truthy(v: Option<Json>) {
    match v
    case None => false
    case Some(JNull) => false
    case Some(JBool(b)) => b
    case Some(JNum(n)) => n != 0
    case Some(JStr(s)) => s != ""
    case Some(JArr(_)) => true
    case Some(JObj(_)) => true
  }

  /** `String(v)`: the text JavaScript makes of a value, which is also the
      `message` of `new Error(v)` and what `localStorage.setItem` stores.
      Numbers agree with JavaScript only up to magnitude 2^53 (see `IntToText`). */
  function ToText(v: Json): string
    decreases v, 1
  {
    match v
    case JNull => "null"
    case JBool(b) => if b then "true" else "false"
    case JNum(n) => Text.IntToText(n)
    case JStr(s) => s
    case JArr(items) => JoinItems(items, 0)
    case JObj(_) => "[object Object]"
  }

  /** `items.slice(from).join(",")`, where a `null` element contributes "". */
  function JoinItems(items: seq<Json>, from: nat): string
    requires from <= |items|
    decreases items, 0, |items| - from
  {
    if from == |items| then ""
    else
      var first := if items[from].JNull? then "" else ToText(items[from]);
      if from + 1 == |items| then first else first + "," + JoinItems(items, from + 1)
  }

  /** `${v}` in a template literal: `String(v)`, and "undefined" when absent. */
  function Interpolate(v: Option<Json>): string {
    if v.Some? then ToText(v.value) else "undefined"
  }

  /** The message of the TypeError thrown when reading property `key` of
      `null` (the engine's wording is V8's). */
  function NullRead(key: string): string {
    "Cannot read properties of null (reading '" + key + "')"
  }

  /** The result of `await res.json()`: a value, or the message of the
      SyntaxError it throws. */
  datatype Body = Parsed(json: Json) | Malformed(reason: string)

  /** What `fetch` gives back: it rejects (network failure, with its
      message), or it produces a response with its `ok` flag and body. */
  datatype Response = NetworkError(reason: string) | Response(ok: bool, body: Body)

  datatype Verb = GET | POST | PUT | DELETE

  /** One outgoing request: the arguments given to `fetch`. */
  datatype Request = Request(url: string, verb: Verb, headers: map<string, string>, body: Option<Json>)
}
