/** Optional values and fallible results, plus the JavaScript value helpers the
    normaliser's template strings rely on. */
module Wrappers {

  datatype Option<+T> = None | Some(value: T)

  datatype Result<+T, +E> = Success(value: T) | Failure(error: E)

  /** A JSON scalar field of the profile as JavaScript holds it: either missing
      (`undefined`) or a value already rendered as text (numbers included). */
  type Field = Option<string>

  /** `${f}` inside a template literal: a missing field prints as "undefined". */
  function Show(f: Field): (r: string)
    ensures f.Some? ==> r == f.value
    ensures f.None? ==> r == "undefined"
  {
    match f
    case Some(s) => s
    case None => "undefined"
  }

  /** JavaScript truthiness of a string-or-undefined value. */
  predicate Truthy(f: Field) {
    f.Some? && f.value != ""
  }

  /** `f || g` on two string-or-undefined values. */
  function OrElse(f: Field, g: Field): (r: Field)
    ensures Truthy(f) ==> r == f
    ensures !Truthy(f) ==> r == g
  {
    if Truthy(f) then f else g
  }

  /** `f || s` with a string fallback, as in `owner || name`. */
  function OrStr(f: Field, s: string): (r: string)
    ensures Truthy(f) ==> r == f.value
    ensures !Truthy(f) ==> r == s
  {
    if Truthy(f) then f.value else s
  }

  /** `Array.prototype.join(sep)` over strings. */
  function Join(xs: seq<string>, sep: string): string
  {
    if |xs| == 0 then ""
    else if |xs| == 1 then xs[0]
    else xs[0] + sep + Join(xs[1..], sep)
  }

  /** `xs?.join(sep)` rendered in a template: a missing array prints "undefined". */
  function ShowJoin(xs: Option<seq<string>>, sep: string): (r: string)
    ensures xs.None? ==> r == "undefined"
    ensures xs.Some? ==> r == Join(xs.value, sep)
  {
    match xs
    case Some(v) => Join(v, sep)
    case None => "undefined"
  }
}
