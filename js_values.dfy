/** The JavaScript values that flow through the front end and the extension:
    parsed JSON payloads and the objects built from them. Numbers are
    modelled as integers; fractions, NaN and the infinities are not. */
module JsValues {
  import opened Common

  datatype JsValue =
    | JsUndefined
    | JsNull
    | JsBool(b: bool)
    | JsNum(n: int)
    | JsStr(s: string)
    | JsArr(items: seq<JsValue>)
    | JsObj(fields: map<string, JsValue>)

  /** JavaScript truthiness: `false`, `0`, `""`, `null` and `undefined` are
      falsy; every array and object is truthy. */
  predicate Truthy(v: JsValue)
  {
    match v
    case JsUndefined => false
    case JsNull => false
    case JsBool(b) => b
    case JsNum(n) => n != 0
    case JsStr(s) => s != ""
    case JsArr(_) => true
    case JsObj(_) => true
  }

  /** `a || b`: the left operand when it is truthy, otherwise the right one. */
  function Or(a: JsValue, b: JsValue): (r: JsValue)
    ensures Truthy(a) ==> r == a
    ensures !Truthy(a) ==> r == b
  {
    if Truthy(a) then a else b
  }

  /** `v.key` for an own property of a plain object; anything else reads as
      `undefined` (prototype members such as `length` are not modelled). */
  function Get(v: JsValue, key: string): (r: JsValue)
    ensures v.JsObj? && key in v.fields ==> r == v.fields[key]
    ensures !(v.JsObj? && key in v.fields) ==> r == JsUndefined
  {
    if v.JsObj? && key in v.fields then v.fields[key] else JsUndefined
  }

  /** The string an object uses as the property key for `obj[v]` (that is,
      `String(v)`). */
  function ToKey(v: JsValue): (r: string)
    decreases v, 1
  {
    match v
    case JsUndefined => "undefined"
    case JsNull => "null"
    case JsBool(b) => if b then "true" else "false"
    case JsNum(n) => IntToString(n)
    case JsStr(s) => s
    case JsArr(items) => JoinElements(v, items)
    case JsObj(_) => "[object Object]"
  }

  /** `String(array)`: elements joined with ",", null and undefined printed empty. */
  function JoinElements(ghost whole: JsValue, items: seq<JsValue>): string
    requires forall i :: 0 <= i < |items| ==> items[i] < whole
    decreases whole, 0, |items|
  {
    if items == [] then ""
    else
      var head := if items[0].JsUndefined? || items[0].JsNull? then "" else ToKey(items[0]);
      if |items| == 1 then head else head + "," + JoinElements(whole, items[1..])
  }

  /** The own enumerable properties that `{...v}` copies: an object's fields,
      the indexed elements of an array or the characters of a string, and
      nothing for the other primitives. */
  function Spread(v: JsValue): (r: map<string, JsValue>)
    ensures v.JsObj? ==> r == v.fields
    ensures !v.JsObj? && !v.JsArr? && !v.JsStr? ==> r == map[]
    ensures v.JsArr? ==> forall i :: 0 <= i < |v.items| ==> NatToString(i) in r && r[NatToString(i)] == v.items[i]
    ensures v.JsStr? ==> forall i :: 0 <= i < |v.s| ==> NatToString(i) in r && r[NatToString(i)] == JsStr([v.s[i]])
    ensures v.JsArr? ==> forall k :: k in r ==> exists i :: 0 <= i < |v.items| && k == NatToString(i)
    ensures v.JsStr? ==> forall k :: k in r ==> exists i :: 0 <= i < |v.s| && k == NatToString(i)
  {
    match v
    case JsObj(fields) => fields
    case JsArr(items) => Indexed(items)
    case JsStr(s) => Indexed(seq(|s|, i requires 0 <= i < |s| => JsStr([s[i]])))
    case _ => map[]
  }

  function Indexed(items: seq<JsValue>): (r: map<string, JsValue>)
    ensures forall i :: 0 <= i < |items| ==> NatToString(i) in r && r[NatToString(i)] == items[i]
    ensures forall k :: k in r ==> exists i :: 0 <= i < |items| && k == NatToString(i)
  {
    assert forall i, j :: 0 <= i < |items| && 0 <= j < |items| && NatToString(i) == NatToString(j) ==> i == j by {
      forall i, j | 0 <= i < |items| && 0 <= j < |items| && NatToString(i) == NatToString(j)
        ensures i == j
      {
        NatToStringInjective(i, j);
      }
    }
    map i | 0 <= i < |items| :: NatToString(i) := items[i]
  }
}
