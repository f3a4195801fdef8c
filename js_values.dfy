/** The JavaScript values and operators the modelled code relies on.
    `undefined` is modelled by absence: `None`, or a key missing from a map. */
module JsValues {
  import opened Wrappers

  datatype JsValue = Null | Bool(b: bool) | Num(n: int) | Str(s: string)

  /** JavaScript truthiness: `null`, `false`, `0` and `''` are falsy. */
  predicate Truthy(v: JsValue)
  {
    match v
    case Null => false
    case Bool(b) => b
    case Num(n) => n != 0
    case Str(s) => s != ""
  }

  /** Truthiness of a possibly-undefined value. */
  predicate Present(v: Option<JsValue>)
  {
    v.Some? && Truthy(v.value)
  }

  /** `a || b`: the left operand when it is truthy, the right one otherwise. */
  function Or(a: Option<JsValue>, b: Option<JsValue>): (r: Option<JsValue>)
    ensures Present(a) ==> r == a
    ensures !Present(a) ==> r == b
    ensures Present(r) <==> Present(a) || Present(b)
  {
    if Present(a) then a else b
  }

  /** `(a || b) || c` and `a || (b || c)` agree, so a chain of `||`
      fallbacks picks its first truthy operand however it is grouped. */
  lemma OrAssociative(a: Option<JsValue>, b: Option<JsValue>, c: Option<JsValue>)
    ensures Or(Or(a, b), c) == Or(a, Or(b, c))
  {
  }

  /** `null` or `undefined`. */
  predicate Nullish(v: Option<JsValue>)
  {
    v == None || v == Some(Null)
  }

  /** `a ?? b`: the left operand unless it is `null` or `undefined`. */
  function Coalesce(a: Option<JsValue>, b: Option<JsValue>): (r: Option<JsValue>)
    ensures (a == None || a == Some(Null)) ==> r == b
    ensures !(a == None || a == Some(Null)) ==> r == a
    ensures Nullish(r) <==> Nullish(a) && Nullish(b)
  {
    if a == None || a == Some(Null) then b else a
  }

  /** `??` and `||` differ only on defined falsy left operands (`false`,
      `0`, `''`): there `??` keeps the operand and `||` takes the right one. */
  lemma CoalesceVersusOr(a: Option<JsValue>, b: Option<JsValue>)
    ensures Present(a) || Nullish(a) ==> Coalesce(a, b) == Or(a, b)
    ensures !Present(a) && !Nullish(a) ==> Coalesce(a, b) == a && Or(a, b) == b
  {
  }

  /** A string that may be missing, as a JavaScript value: `undefined`
      when it is missing. */
  function OfText(s: Option<string>): Option<JsValue>
  {
    if s.Some? then Some(Str(s.value)) else None
  }

  /** A string or `null`, as a JavaScript value. */
  function OfNullable(s: Option<string>): JsValue
  {
    if s.Some? then Str(s.value) else Null
  }

  /** `a || fallback` on a string that may be missing, with a string
      fallback: the string when it is non-empty, otherwise the fallback. */
  function OrText(a: Option<string>, fallback: string): (r: string)
    ensures Some(Str(r)) == Or(OfText(a), Some(Str(fallback)))
    ensures a.Some? && a.value != "" ==> r == a.value
    ensures a == None || a == Some("") ==> r == fallback
  {
    if a.Some? && a.value != "" then a.value else fallback
  }

  /** A map read `obj[key]`, undefined when the key is absent. */
  function Get(m: map<string, JsValue>, key: string): Option<JsValue>
  {
    if key in m then Some(m[key]) else None
  }
}
