/**
  The few pieces of JavaScript value semantics that the console's logic leans on:
  optional fields, truthiness, the `||` operator and template-literal interpolation.
  A field that is absent, `null` or `undefined` is `None`; the three behave alike
  under `||`, `if (…)` and `?.`, which is all the modelled code does with them.
 */
module Js {

  datatype Option<T> = None | Some(value: T)

  /** A string is truthy iff it is present and not empty. */
  predicate Truthy(o: Option<string>) {
    o.Some? && o.value != ""
  }

  /** `a || b`: the first operand when it is truthy, otherwise the second one as it is. */
  function Or(a: Option<string>, b: Option<string>): (r: Option<string>)
    ensures r == a || r == b
    ensures Truthy(r) <==> Truthy(a) || Truthy(b)
    ensures Truthy(a) ==> r == a
    ensures !Truthy(a) ==> r == b
  {
    if Truthy(a) then a else b
  }

  /** The text a template literal `${x}` produces for an optional string. */
  function Template(o: Option<string>): string {
    match o
    case None => "undefined"
    case Some(s) => s
  }

}
