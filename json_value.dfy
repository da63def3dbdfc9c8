/** The values that travel between client and server: JSON as JavaScript sees
    it (plus `undefined`, which optional chaining produces), with the two
    languages' notions of truthiness and the conversions the client applies. */
module JsonValue {
  import opened Common

  /** Numbers are limited to integers. */
  datatype Json =
    | JUndefined
    | JNull
    | JBool(b: bool)
    | JNum(n: int)
    | JStr(s: string)
    | JArr(items: seq<Json>)
    | JObj(fields: map<string, Json>)

  /** JavaScript truthiness: `!!v`. Every array and object is truthy. */
  predicate Truthy(v: Json) {
    match v
    case JUndefined => false
    case JNull => false
    case JBool(b) => b
    case JNum(n) => n != 0
    case JStr(s) => s != ""
    case JArr(_) => true
    case JObj(_) => true
  }

  /** Python truthiness: `bool(v)`. Empty lists and dicts are false. */
  predicate PyTruthy(v: Json) {
    match v
    case JUndefined => false
    case JNull => false
    case JBool(b) => b
    case JNum(n) => n != 0
    case JStr(s) => s != ""
    case JArr(items) => items != []
    case JObj(fields) => fields != map[]
  }

  /** Python truthiness is JavaScript truthiness minus empty collections. */
  lemma {:induction false} TruthinessAgreement(v: Json)
    ensures PyTruthy(v) ==> Truthy(v)
    ensures Truthy(v) && !PyTruthy(v) <==> v == JArr([]) || v == JObj(map[])
  {
  }

  /** `a || b`: the first operand when it is truthy, the second otherwise. */
  function Or(a: Json, b: Json): (r: Json)
    ensures Truthy(r) <==> Truthy(a) || Truthy(b)
    ensures r == a || r == b
  {
    if Truthy(a) then a else b
  }

  /** `v?.key`: the member of an object, `undefined` for anything else. */
  function Get(v: Json, key: string): Json {
    if v.JObj? && key in v.fields then v.fields[key] else JUndefined
  }

  /** `v?.[i]`: an array element or a one-character string, `undefined`
      otherwise. */
  function At(v: Json, i: int): Json {
    match v
    case JArr(items) => if 0 <= i < |items| then items[i] else JUndefined
    case JStr(s) => if 0 <= i < |s| then JStr([s[i]]) else JUndefined
    case _ => JUndefined
  }

  /** Destructuring `const { x } = v` throws a TypeError exactly on these. */
  predicate Nullish(v: Json) {
    v == JUndefined || v == JNull
  }

  /** `String(v)`, which is also what `localStorage.setItem` stores. */
  function ToJsString(v: Json): string
    decreases v
  {
    match v
    case JUndefined => "undefined"
    case JNull => "null"
    case JBool(b) => if b then "true" else "false"
    case JNum(n) => IntToString(n)
    case JStr(s) => s
    case JArr(items) =>
      JoinWithCommas(seq(|items|, i requires 0 <= i < |items| =>
        if Nullish(items[i]) then "" else ToJsString(items[i])))
    case JObj(_) => "[object Object]"
  }

  function JoinWithCommas(parts: seq<string>): string {
    if |parts| == 0 then ""
    else if |parts| == 1 then parts[0]
    else parts[0] + "," + JoinWithCommas(parts[1..])
  }

  /** The TypeError message of `const { prop } = expr` when `expr` evaluates
      to `v`, which is null or undefined (V8's wording). */
  function DestructureMessage(prop: string, expr: string, v: Json): string {
    "Cannot destructure property '" + prop + "' of '" + expr + "' as it is "
      + (if v == JNull then "null." else "undefined.")
  }

  /** The TypeError message of `v.prop` on a null or undefined `v`. */
  function PropertyReadMessage(prop: string, v: Json): string {
    "Cannot read properties of " + (if v == JNull then "null" else "undefined")
      + " (reading '" + prop + "')"
  }

  /** `new Error(v).message`: `undefined` gives the empty message. */
  function ErrorMessage(v: Json): string {
    if v == JUndefined then "" else ToJsString(v)
  }

  /** The message a `catch (err)` block reads after `throw new Error(v)`,
      falling back as `err.message || fallback` does. */
  function CaughtMessage(v: Json, fallback: string): (m: string)
    requires fallback != ""
    ensures m != ""
    ensures ErrorMessage(v) != "" ==> m == ErrorMessage(v)
  {
    var msg := ErrorMessage(v);
    if msg != "" then msg else fallback
  }

  /** An object thrown as an error shows up as "[object Object]". */
  lemma {:induction false} ObjectErrorMessage(fields: map<string, Json>, fallback: string)
    requires fallback != ""
    ensures CaughtMessage(JObj(fields), fallback) == "[object Object]"
  {
  }

  /** JSON.stringify and JSON.parse: library code, so a parameter of the
      model. */
  datatype Codec = Codec(stringify: Json -> string, parse: string -> Json)

  /** The codec reads back what it wrote for `v`. */
  predicate RoundTrips(codec: Codec, v: Json) {
    codec.parse(codec.stringify(v)) == v
  }
}
