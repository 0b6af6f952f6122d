/**
  Parsed JSON values, as the route handlers receive them from `request.json()`
  and `response.json()`, with the JavaScript property reads the handlers perform.
 */
module JsonValues {
  import opened Wrappers
  import Strings

  datatype Json =
    | Null
    | Bool(b: bool)
    | Number(n: real)
    | Str(s: string)
    | Arr(items: seq<Json>)
    | Obj(fields: map<string, Json>)

  /** `v?.key` on a parsed JSON value: only objects have the named properties read here. */
  function Member(v: Option<Json>, key: string): (r: Option<Json>)
    ensures r.Some? ==> v.Some? && v.value.Obj? && key in v.value.fields && r.value == v.value.fields[key]
  {
    match v
    case Some(Obj(fields)) => if key in fields then Some(fields[key]) else None
    case _ => None
  }

  /**
    `v?.[i]`: an array element, a one-character string, or the object property
    whose name is the decimal spelling of `i`.
   */
  function Element(v: Option<Json>, i: nat): (r: Option<Json>)
    ensures v.Some? && v.value.Arr? && i < |v.value.items| ==> r == Some(v.value.items[i])
  {
    match v
    case Some(Arr(items)) => if i < |items| then Some(items[i]) else None
    case Some(Str(s)) => if i < |s| then Some(Str([s[i]])) else None
    case Some(Obj(fields)) =>
      var key := Strings.NatToString(i);
      if key in fields then Some(fields[key]) else None
    case _ => None
  }

  /** JavaScript truthiness of a value; an absent value (`undefined`) is falsy. */
  predicate Truthy(v: Option<Json>) {
    match v
    case None => false
    case Some(Null) => false
    case Some(Bool(b)) => b
    case Some(Number(n)) => n != 0.0
    case Some(Str(s)) => s != ""
    case Some(Arr(_)) => true
    case Some(Obj(_)) => true
  }
}
