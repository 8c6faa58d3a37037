/**
 * The few JavaScript value notions the components rely on: an optional value
 * (a property that may be `undefined`/`null`), a dynamically typed value and
 * JavaScript truthiness.
 */
module Js {

  /** A property that may be missing: `None` stands for `undefined` or `null`. */
  datatype Option<+T> = None | Some(value: T)

  /**
   * A dynamically typed JavaScript value. Numbers are integers here (floating
   * point and NaN are not modelled); `Obj` is any object or array, always truthy.
   */
  datatype JsValue = Undefined | Null | Bool(b: bool) | Num(n: int) | Str(s: string) | Obj

  /** JavaScript truthiness (`!!v`). */
  predicate Truthy(v: JsValue)
  {
    match v
    case Undefined => false
    case Null => false
    case Bool(b) => b
    case Num(n) => n != 0
    case Str(s) => s != ""
    case Obj => true
  }

  /** Truthiness of an optional string property: present and non-empty. */
  predicate TruthyString(o: Option<string>)
  {
    o.Some? && o.value != ""
  }

  /** How a possibly missing string reads once concatenated into a string (`'' + x`). */
  function Display(o: Option<string>): (r: string)
    ensures o.Some? ==> r == o.value
    ensures o.None? ==> r == "undefined"
  {
    match o
    case Some(s) => s
    case None => "undefined"
  }
}
