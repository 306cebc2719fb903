/**
 * The JavaScript values the dashboard passes around: ids that are strings or
 * integer numbers, loosely typed field values, truthiness and `String(v)`.
 */
module JsValues {
  import opened Wrappers
  import Text

  /** A record id or key: a string or an integer number, compared with `===`. */
  datatype Scalar = JStr(s: string) | JNum(n: int)

  /** A loosely typed field value. `File` stands for a browser `File` object. */
  datatype JsValue =
    | Undefined
    | Null
    | Bool(b: bool)
    | Num(n: int)
    | Str(s: string)
    | Arr(items: seq<JsValue>)
    | Obj(entries: seq<(string, JsValue)>)
    | File(fileName: string)

  /** JavaScript truthiness: `undefined`, `null`, `false`, `0` and `""` are falsy. */
  predicate Truthy(v: JsValue) {
    match v
    case Undefined => false
    case Null => false
    case Bool(b) => b
    case Num(n) => n != 0
    case Str(s) => s != ""
    case _ => true
  }

  /** An optional string is truthy when present and non-empty. */
  predicate Present(o: Option<string>) {
    o.Some? && o.value != ""
  }

  /** `a || b` where `a` is an optional string. */
  function OrElse(a: Option<string>, b: string): (r: string)
    ensures Present(a) ==> r == a.value
    ensures !Present(a) ==> r == b
  {
    if Present(a) then a.value else b
  }

  /** `String(x)` for an id. */
  function ScalarToString(x: Scalar): string {
    match x
    case JStr(s) => s
    case JNum(n) => Text.IntToString(n)
  }

  /** An id as a value: a string or a number, printing as the id does. */
  function ScalarValue(x: Scalar): (v: JsValue)
    ensures v.Str? || v.Num?
    ensures StringOf(v) == ScalarToString(x)
  {
    match x
    case JStr(s) => Str(s)
    case JNum(n) => Num(n)
  }

  /** `typeof v === "object"` (which includes `null`). */
  predicate IsObjectType(v: JsValue) {
    v.Null? || v.Arr? || v.Obj? || v.File?
  }

  /** `a || b` on two loosely typed values. */
  function JsOr(a: JsValue, b: JsValue): (r: JsValue)
    ensures Truthy(a) ==> r == a
    ensures !Truthy(a) ==> r == b
  {
    if Truthy(a) then a else b
  }

  /**
   * `v?.[key]`: the value an object holds under `key`, `undefined` when it
   * holds none or `v` is not a plain object. An object's entries hold each
   * key once.
   */
  function Field(v: JsValue, key: string): (r: JsValue)
    ensures !v.Obj? ==> r == Undefined
    ensures v.Obj? && r != Undefined ==> exists k | 0 <= k < |v.entries| :: v.entries[k] == (key, r)
  {
    if v.Obj? then FieldOf(v.entries, key) else Undefined
  }

  function FieldOf(entries: seq<(string, JsValue)>, key: string): (r: JsValue)
    ensures r != Undefined ==> exists k | 0 <= k < |entries| :: entries[k] == (key, r)
    ensures (forall k | 0 <= k < |entries| :: entries[k].0 != key) ==> r == Undefined
  {
    if |entries| == 0 then Undefined
    else if entries[0].0 == key then
      assert entries[0] == (key, entries[0].1);
      entries[0].1
    else
      var r := FieldOf(entries[1..], key);
      if r != Undefined then
        var k :| 0 <= k < |entries[1..]| && entries[1..][k] == (key, r);
        assert entries[k + 1] == (key, r);
        r
      else r
  }

  /**
   * `String(v)`. An array joins its elements' strings with `,` (`null` and
   * `undefined` elements give `""`); any other object is `[object Object]`;
   * a `File` is `[object File]`.
   */
  function StringOf(v: JsValue): (r: string)
    ensures v.Str? ==> r == v.s
    ensures v.Null? ==> r == "null"
    ensures v.Undefined? ==> r == "undefined"
    ensures v.Obj? ==> r == "[object Object]"
    ensures v.File? ==> r == "[object File]"
    decreases v, 1, 0
  {
    match v
    case Undefined => "undefined"
    case Null => "null"
    case Bool(b) => if b then "true" else "false"
    case Num(n) => Text.IntToString(n)
    case Str(s) => s
    case Arr(_) => ArrayString(v, 0)
    case Obj(_) => "[object Object]"
    case File(_) => "[object File]"
  }

  /** `v.items.slice(i).join(",")`, with the leading `,` when `i > 0`. */
  function ArrayString(v: JsValue, i: nat): string
    requires v.Arr? && i <= |v.items|
    decreases v, 0, |v.items| - i
  {
    if i == |v.items| then ""
    else (if i > 0 then "," else "") + ElementString(v.items[i]) + ArrayString(v, i + 1)
  }

  /** An array element as `join` renders it. */
  function ElementString(x: JsValue): string
    decreases x, 2, 0
  {
    if x.Null? || x.Undefined? then "" else StringOf(x)
  }
}
