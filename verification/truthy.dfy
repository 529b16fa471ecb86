/**
 * JavaScript truthiness of the optional values the dashboard reads with `?.`
 * and tests with `&&` or `||`: `undefined`, `0` and `""` are falsy.  `NaN`,
 * also falsy in JavaScript, is not a value of this model.
 */
module Truthy {
  import opened Maybe

  predicate TruthyNumber(x: Option<real>)
  {
    x.Some? && x.value != 0.0
  }

  predicate TruthyInt(x: Option<int>)
  {
    x.Some? && x.value != 0
  }

  predicate TruthyText(s: Option<string>)
  {
    s.Some? && s.value != ""
  }
}
