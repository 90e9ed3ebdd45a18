/** The part of Gson's tree model the gateway handlers use: a JSON value,
    `getAsString` and `getAsInt` with Gson's conversions and failures, and
    the event dispatcher the handlers hand their synthesised payloads to. */
module Json {
  import opened Bytes
  import opened JavaStrings

  /** A JSON value. Numbers are integers; an object is a map from member
      name to value. */
  datatype Json =
    | JNull
    | JBool(b: bool)
    | JNumber(n: int)
    | JString(s: string)
    | JArray(elems: seq<Json>)
    | JObject(members: map<string, Json>)

  /** What a Java call gives back: a value, or an exception that ends the
      calling handler. */
  datatype Result<+T> = Ok(value: T) | Throws

  /** Java's narrowing of an integer to `int`: the low 32 bits, read as a
      two's-complement number. */
  function ToInt32(n: int): (r: int)
    ensures INT_MIN <= r <= INT_MAX
    ensures (r - n) % TWO_32 == 0
    ensures INT_MIN <= n <= INT_MAX ==> r == n
  {
    (n - INT_MIN) % TWO_32 + INT_MIN
  }

  /** `JsonElement.getAsString`: a string as it is, a number and a boolean
      in their decimal and `true`/`false` text, a one-element array as its
      element; `null`, objects and other arrays throw. */
  function GetAsString(j: Json): (r: Result<string>)
    ensures r.Ok? <==> (j.JString? || j.JNumber? || j.JBool? || (j.JArray? && |j.elems| == 1 && GetAsString(j.elems[0]).Ok?))
    ensures j.JString? ==> r == Ok(j.s)
  {
    match j
    case JString(s) => Ok(s)
    case JNumber(n) => Ok(ShowInt(n))
    case JBool(b) => Ok(if b then "true" else "false")
    case JArray(elems) => if |elems| == 1 then GetAsString(elems[0]) else Throws
    case _ => Throws
  }

  /** `JsonElement.getAsInt`: a number narrowed to `int` (Gson's
      `LazilyParsedNumber.intValue` keeps the low 32 bits whether the text
      parses as an `int`, a `long` or neither), a string through
      `Integer.parseInt`, a one-element array as its element; anything
      else throws. */
  function GetAsInt(j: Json): (r: Result<int>)
    ensures r.Ok? ==> INT_MIN <= r.value <= INT_MAX
    ensures j.JNumber? ==> r == Ok(ToInt32(j.n))
    ensures j.JString? ==> (r.Ok? <==> ParseInt(j.s).Some?)
    ensures j.JNull? || j.JBool? || j.JObject? ==> r == Throws
  {
    match j
    case JNumber(n) => Ok(ToInt32(n))
    case JString(s) => if ParseInt(s).Some? then Ok(ParseInt(s).value) else Throws
    case JBool(b) => Throws
    case JArray(elems) => if |elems| == 1 then GetAsInt(elems[0]) else Throws
    case _ => Throws
  }

  /** A number in `int` range reads back the same whether Gson holds it as
      a number or as its decimal text. */
  lemma GetAsIntOfNumberText(n: int)
    requires INT_MIN <= n <= INT_MAX
    ensures GetAsInt(JNumber(n)) == Ok(n)
    ensures GetAsString(JNumber(n)) == Ok(ShowInt(n))
    ensures GetAsInt(JString(ShowInt(n))) == Ok(n)
  {
    ParseShow(n, INT_MIN, INT_MAX);
  }

  /** The number `getAsInt` would read, if any, is in `int` range. */
  predicate NarrowsExactly(j: Json)
  {
    match j
    case JNumber(n) => INT_MIN <= n <= INT_MAX
    case JArray(elems) => |elems| != 1 || NarrowsExactly(elems[0])
    case _ => true
  }

  /** `getAsString` then `Integer.parseInt` (what `Integer.valueOf` on a
      JSON text field does) agrees with `getAsInt` on every JSON value
      except numbers outside `int` range, which `getAsInt` wraps. */
  lemma {:induction false} ParseOfStringIsGetAsInt(j: Json)
    requires NarrowsExactly(j)
    ensures (GetAsString(j).Ok? && ParseInt(GetAsString(j).value).Some?) <==> GetAsInt(j).Ok?
    ensures GetAsInt(j).Ok? ==> ParseInt(GetAsString(j).value) == Some(GetAsInt(j).value)
  {
    match j
    case JNumber(n) => GetAsIntOfNumberText(n);
    case JBool(b) =>
      assert ("true")[..0] == "" && ("false")[..0] == "";
      assert !IsDigit('t') && !IsDigit('f');
    case JArray(elems) =>
      if |elems| == 1 {
        ParseOfStringIsGetAsInt(elems[0]);
      }
    case _ =>
  }

  /** `JsonObject.get`: `None` for an absent member (Java's `null`). */
  function Get(members: map<string, Json>, key: string): (r: Option<Json>)
    ensures r.Some? <==> key in members
    ensures r.Some? ==> r.value == members[key]
  {
    if key in members then Some(members[key]) else None
  }

  /** `JsonElement.getAsJsonObject`: throws on anything but an object. */
  function AsObject(j: Json): (r: Result<map<string, Json>>)
    ensures r.Ok? <==> j.JObject?
    ensures r.Ok? ==> j == JObject(r.value)
  {
    if j.JObject? then Ok(j.members) else Throws
  }

  /** `JsonObject.addProperty(key, String)`: a Java `null` string is stored
      as JSON `null`. */
  function StringOrNull(s: Option<string>): (r: Json)
    ensures s.None? <==> r == JNull
    ensures s.Some? ==> GetAsString(r) == Ok(s.value)
  {
    if s.Some? then JString(s.value) else JNull
  }

  /** A gateway-shaped payload `{"t": type, "d": data}`, as the handlers
      build to re-dispatch synthesised events. */
  function Payload(eventType: string, data: Json): (r: Json)
    ensures r.JObject? && r.members.Keys == {"t", "d"} && "t" in r.members && "d" in r.members
    ensures r.members["t"] == JString(eventType) && r.members["d"] == data
  {
    JObject(map["t" := JString(eventType), "d" := data])
  }

  /** The event dispatcher, reduced to the payloads handed to `dispatch`,
      in order. */
  class Dispatcher {
    var dispatched: seq<Json>

    constructor ()
      ensures dispatched == []
    {
      dispatched := [];
    }

    method Dispatch(payload: Json)
      modifies this
      ensures dispatched == old(dispatched) + [payload]
    {
      dispatched := dispatched + [payload];
    }
  }
}
