/**
 * The few JavaScript values and outcomes the `process` polyfill deals in:
 * `undefined` or a string, exceptions (which are either `TypeError`s or
 * other errors), property descriptors, and `Array.prototype.includes`
 * over an array of strings.
 */
module Js {

  datatype Option<+T> = None | Some(value: T)

  /** An exception object, classified the only way the polyfill looks at it:
      `e instanceof TypeError` or not. */
  datatype JsError = TypeError(message: string) | Error(message: string)

  /** The completion of a JavaScript call: it returns normally, or it throws. */
  datatype Completion<+T> = Normal(value: T) | Throw(error: JsError)

  /** What the `get` trap of `process.env` hands back to the caller:
      `undefined`, a string, or the member `Object.prototype[name]` that the
      proxy target inherits. */
  datatype JsValue = Undefined | Str(s: string) | Inherited(name: string)

  /** A data property descriptor `{ enumerable, configurable, value }`. */
  datatype PropertyDescriptor = PropertyDescriptor(enumerable: bool, configurable: bool, value: string)

  /** `list.includes(x)` on an array of strings: scans the array from the
      front and answers whether some element equals `x`. */
  function Includes(list: seq<string>, x: string): (r: bool)
    ensures r <==> x in list
    decreases |list|
  {
    |list| > 0 && (list[0] == x || Includes(list[1..], x))
  }
}
