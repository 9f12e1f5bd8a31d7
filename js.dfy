/** The few pieces of JavaScript value semantics that the card builder relies on:
    nullish values, the `??` and `||` operators, and the truthiness of strings. */
module Js {

  /** A value that may be `null` or `undefined`. The operators `??` and `?.`
      treat the two alike, so one constructor stands for both. */
  datatype Option<+T> = None | Some(value: T)

  /** `a ?? b`: the value of `a` unless it is nullish. */
  function Coalesce<T>(a: Option<T>, b: T): T
  {
    if a.Some? then a.value else b
  }

  /** `a ?? b` where `b` may itself be nullish. */
  function OrElse<T>(a: Option<T>, b: Option<T>): Option<T>
  {
    if a.Some? then a else b
  }

  /** Truthiness of a possibly nullish string: `null`, `undefined` and `''`
      are falsy, every other string is truthy. */
  predicate Truthy(s: Option<string>)
  {
    s.Some? && s.value != ""
  }

  /** `s || undefined` for a possibly nullish string: `''` becomes absent too. */
  function OrUndefined(s: Option<string>): (r: Option<string>)
    ensures r.Some? <==> Truthy(s)
    ensures r.Some? ==> r == s
  {
    if Truthy(s) then s else None
  }
}
