/**
 * The JSON values a tool receives as its raw arguments, and the part of Go's
 * `json.Unmarshal` that the tools rely on: decoding into a struct whose fields
 * are `int`, `string` or `[]string`. Keys match exactly.
 */
module Json {
  import opened Wrappers

  datatype Json =
    | JNull
    | JBool(b: bool)
    | JNumber(n: int)
    | JString(s: string)
    | JArray(items: seq<Json>)
    | JObject(fields: map<string, Json>)

  /** Raw argument bytes: either text that does not parse as JSON, or a parsed value. */
  datatype RawMessage = Malformed | Wellformed(value: Json)

  /** Go's `int` is 64 bits wide; a number outside that range cannot be decoded into it. */
  const MinInt64: int := -0x8000_0000_0000_0000
  const MaxInt64: int := 0x7FFF_FFFF_FFFF_FFFF

  /**
   * The fields a struct decodes from: `null` leaves every field at its zero
   * value, an object supplies its members, anything else is a type error.
   */
  function ObjectFields(raw: RawMessage): (r: Option<map<string, Json>>)
    ensures r.Some? <==> raw.Wellformed? && (raw.value.JNull? || raw.value.JObject?)
    ensures r.Some? && raw.value.JObject? ==> r.value == raw.value.fields
    ensures r.Some? && raw.value.JNull? ==> r.value == map[]
  {
    match raw
    case Malformed => None
    case Wellformed(JNull) => Some(map[])
    case Wellformed(JObject(fields)) => Some(fields)
    case Wellformed(_) => None
  }

  /** An `int` field: absent or `null` gives 0; a number in range gives itself; anything else fails. */
  function IntField(fields: map<string, Json>, key: string): (r: Option<int>)
    ensures key !in fields ==> r == Some(0)
    ensures r.Some? ==> MinInt64 <= r.value <= MaxInt64
    ensures key in fields && fields[key].JNumber? ==>
              (r.Some? <==> MinInt64 <= fields[key].n <= MaxInt64)
    ensures key in fields && r.Some? && r.value != 0 ==> fields[key] == JNumber(r.value)
    ensures key in fields && fields[key].JNull? ==> r == Some(0)
    ensures key in fields && fields[key].JNumber? && MinInt64 <= fields[key].n <= MaxInt64 ==>
              r == Some(fields[key].n)
    ensures key in fields && !fields[key].JNull? && !fields[key].JNumber? ==> r.None?
  {
    if key !in fields then Some(0)
    else match fields[key]
      case JNull => Some(0)
      case JNumber(n) => if MinInt64 <= n <= MaxInt64 then Some(n) else None
      case _ => None
  }

  /** A `string` field: absent or `null` gives the empty string; a string gives itself; anything else fails. */
  function StringField(fields: map<string, Json>, key: string): (r: Option<string>)
    ensures key !in fields ==> r == Some("")
    ensures key in fields && fields[key].JString? ==> r == Some(fields[key].s)
    ensures r.None? <==> key in fields && !fields[key].JString? && !fields[key].JNull?
    ensures key in fields && fields[key].JNull? ==> r == Some("")
  {
    if key !in fields then Some("")
    else match fields[key]
      case JNull => Some("")
      case JString(s) => Some(s)
      case _ => None
  }

  /** The elements of a `[]string`: each string gives itself, `null` the empty string. */
  function StringItems(items: seq<Json>): (r: Option<seq<string>>)
    ensures r.Some? <==> forall i :: 0 <= i < |items| ==> items[i].JString? || items[i].JNull?
    ensures r.Some? ==> |r.value| == |items|
    ensures r.Some? ==> forall i :: 0 <= i < |items| && items[i].JString? ==> r.value[i] == items[i].s
    ensures r.Some? ==> forall i :: 0 <= i < |items| && items[i].JNull? ==> r.value[i] == ""
  {
    if items == [] then Some([])
    else
      var head := match items[0] case JString(s) => Some(s) case JNull => Some("") case _ => None;
      match (head, StringItems(items[1..]))
      case (Some(s), Some(rest)) => Some([s] + rest)
      case _ => None
  }

  /** A `[]string` field: absent or `null` gives the empty list; an array of strings gives its elements. */
  function StringListField(fields: map<string, Json>, key: string): (r: Option<seq<string>>)
    ensures key !in fields ==> r == Some([])
    ensures r.Some? && key in fields && fields[key].JArray? ==> |r.value| == |fields[key].items|
    ensures key in fields && fields[key].JNull? ==> r == Some([])
    ensures key in fields && fields[key].JArray? ==> r == StringItems(fields[key].items)
    ensures key in fields && !fields[key].JNull? && !fields[key].JArray? ==> r.None?
  {
    if key !in fields then Some([])
    else match fields[key]
      case JNull => Some([])
      case JArray(items) => StringItems(items)
      case _ => None
  }
}
