/**
 * The loosely typed values the page script reads: the result of parsing the
 * content document, and `undefined` for a property that is not there.
 * JavaScript's truthiness, the `??` and `||` operators and property access
 * are defined here once and used by every renderer.
 */
module JsValues {
  import opened Wrappers

  /** A JSON value as seen by the script. Numbers are modelled as integers. */
  datatype JsVal =
    | Undefined
    | Null
    | Bool(b: bool)
    | Num(n: int)
    | Str(s: string)
    | Arr(items: seq<JsVal>)
    | Obj(fields: map<string, JsVal>)

  /** `v === null || v === undefined` */
  predicate IsNullish(v: JsVal) {
    v.Undefined? || v.Null?
  }

  /** What `if (v)` tests. */
  predicate IsTruthy(v: JsVal) {
    match v
    case Undefined => false
    case Null => false
    case Bool(b) => b
    case Num(n) => n != 0
    case Str(s) => s != ""
    case Arr(_) => true
    case Obj(_) => true
  }

  /**
   * Whether turning `v` into text, as a template literal or an assignment to
   * `document.title` does, throws a TypeError. A parsed object converts
   * through its `toString`, unless it has an own `toString` key: that value is
   * not callable, `valueOf` gives back the object itself, and the conversion
   * throws. An array joins its entries (null and undefined give ""), so it
   * throws exactly when one of its entries does.
   */
  predicate ToStringThrows(v: JsVal) {
    match v
    case Obj(fields) => "toString" in fields
    case Arr(items) => exists i | 0 <= i < |items| :: ToStringThrows(items[i])
    case _ => false
  }

  /**
   * `v.key` for a key that names no built-in property (no `length`, no
   * inherited member): `None` stands for the TypeError thrown when `v` is
   * null or undefined; any other value yields its own property or undefined.
   */
  function Field(v: JsVal, key: string): (r: Option<JsVal>)
    ensures r.None? <==> IsNullish(v)
    ensures r.Some? ==> (r.value != Undefined <==> v.Obj? && key in v.fields && v.fields[key] != Undefined)
    ensures r.Some? && r.value != Undefined ==> r.value == v.fields[key]
  {
    match v
    case Undefined => None
    case Null => None
    case Obj(fields) => Some(if key in fields then fields[key] else Undefined)
    case _ => Some(Undefined)
  }

  /** `v.key` where `v` is known not to be nullish, so the access cannot throw. */
  function Prop(v: JsVal, key: string): JsVal
    requires !IsNullish(v)
  {
    Field(v, key).value
  }

  /** `a ?? b`: the fallback is taken for null and undefined only. */
  function Coalesce(a: JsVal, b: JsVal): JsVal
  {
    if IsNullish(a) then b else a
  }

  /** `a || b`: the fallback is taken for every falsy value. */
  function Or(a: JsVal, b: JsVal): JsVal
  {
    if IsTruthy(a) then a else b
  }

  /**
   * The two fallback rules differ exactly on a present but falsy value
   * (false, 0 or ""), which `??` keeps and `||` replaces, unless the
   * replacement happens to be that same value.
   */
  lemma OrVersusCoalesce(a: JsVal, b: JsVal)
    ensures Or(a, b) == Coalesce(a, b) <==> IsTruthy(a) || IsNullish(a) || a == b
    ensures Or(a, b) != Coalesce(a, b) <==> (a == Bool(false) || a == Num(0) || a == Str("")) && a != b
  {
  }
}
