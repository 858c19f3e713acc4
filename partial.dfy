/**
 * The JavaScript idioms the adapters use on optional configuration fields:
 * object spread `{ ...defaults, ...overrides }` over a `Partial<...>`
 * argument, the `||` fallback (any falsy value falls back) and the `??`
 * fallback (only null/undefined falls back).
 */
module Partial {
  import opened Wrappers

  /** One key of a caller's `Partial<Config>` object: the key is absent, is
      present with the value `undefined`, or is present with a value. */
  datatype Field<+T> = Absent | Undefined | Given(value: T)

  /** One key of `{ ...defaults, ...overrides }`: a key present in the
      overrides wins, even when its value is `undefined`. A merged field is
      `None` when it is `undefined`. */
  function Spread<T>(default: Option<T>, override: Field<T>): (r: Option<T>)
    ensures override.Absent? ==> r == default
    ensures override.Undefined? ==> r == None
    ensures override.Given? ==> r == Some(override.value)
  {
    match override
    case Absent => default
    case Undefined => None
    case Given(v) => Some(v)
  }

  /** `x ?? fallback` on a caller's field (the sources never pass null). */
  function Nullish<T>(x: Field<T>, fallback: T): (r: T)
    ensures x.Given? ==> r == x.value
    ensures !x.Given? ==> r == fallback
  {
    if x.Given? then x.value else fallback
  }

  /** Truthiness of an optional string: `undefined` and `""` are falsy. */
  predicate TruthyString(x: Option<string>) {
    x.Some? && x.value != ""
  }

  /** Truthiness of an optional number (NaN is not modelled): `undefined`
      and `0` are falsy. */
  predicate TruthyNumber(x: Option<real>) {
    x.Some? && x.value != 0.0
  }

  /** `x || fallback` for a string. */
  function OrString(x: Option<string>, fallback: string): (r: string)
    ensures TruthyString(x) ==> r == x.value
    ensures !TruthyString(x) ==> r == fallback
  {
    if TruthyString(x) then x.value else fallback
  }

  /** `x || fallback` for a number. */
  function OrNumber(x: Option<real>, fallback: real): (r: real)
    ensures TruthyNumber(x) ==> r == x.value
    ensures !TruthyNumber(x) ==> r == fallback
  {
    if TruthyNumber(x) then x.value else fallback
  }
}
