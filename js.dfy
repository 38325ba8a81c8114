/** The few JavaScript notions the node code relies on: `undefined`,
    truthiness of strings, and the `||` operator. */
module Js {

  /** An optional value: `None` stands for JavaScript's `undefined`. */
  datatype Option<+T> = None | Some(value: T)

  /** A value the nodes only copy from one object to another and never
      inspect: a payload, a properties bag, a message id, an error object.
      `Undefined` is JavaScript's `undefined`; `Opaque(h)` is any other value,
      told apart from the others by its handle `h`. */
  datatype Value = Undefined | Opaque(handle: nat)

  /** JavaScript truthiness of a string that may be absent: `undefined` and
      the empty string are falsy, every other string is truthy. */
  predicate Truthy(s: Option<string>)
  {
    s.Some? && s.value != ""
  }

  /** `a || b` for a possibly absent string `a`: the left operand when it is
      truthy, the right operand otherwise. */
  function Or(a: Option<string>, b: string): (r: string)
    ensures Truthy(a) ==> r == a.value
    ensures !Truthy(a) ==> r == b
    ensures Truthy(Some(r)) <==> Truthy(a) || b != ""
  {
    if Truthy(a) then a.value else b
  }
}
