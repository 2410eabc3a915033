/** Values of JavaScript that the modelled code relies on. */
module Js {

  /** A value that may be absent: `None`, or a present value. For an
    * environment variable or a profile field, `None` stands for `undefined`
    * or `null`; for an omitted function argument it stands for `undefined`. */
  datatype Option<+T> = None | Some(value: T)

  /** JavaScript truthiness of an optional string: `undefined`, `null` and `""` are all falsy. */
  predicate Truthy(o: Option<string>)
  {
    o.Some? && o.value != ""
  }

  /** The expression `a || b` on optional strings: `a` when truthy, otherwise `b` (whatever `b` is). */
  function Or(a: Option<string>, b: Option<string>): Option<string>
  {
    if Truthy(a) then a else b
  }

  /** The expression `a || d` where `d` is a string literal. */
  function OrElse(a: Option<string>, d: string): string
  {
    if Truthy(a) then a.value else d
  }
}
