/** The few JavaScript runtime values the game engine works with.

    A JS number is an IEEE double; here it is an exact real or NaN. NaN is
    kept because the engine really produces it (an `undefined` speed, the
    `0/0` of normalising a zero vector), and because every comparison with
    NaN is false while `Math.min`/`Math.max` propagate it. Rounding and the
    two infinities are not modelled. */
module Js {

  datatype Option<+T> = None | Some(value: T)

  /** A JS number: a finite value or NaN. */
  datatype Number = Num(r: real) | NaN

  /** The event object a browser hands to a key handler; only `key` is read. */
  datatype KeyboardEvent = KeyboardEvent(key: string)

  /** Values that travel through signal tables and event lists. */
  datatype Value =
    | Undefined
    | Boolean(b: bool)
    | Numeric(n: Number)
    | Text(s: string)
    | Function(name: string)
    | Event(e: KeyboardEvent)

  function Plus(a: Number, b: Number): (r: Number)
    ensures r.Num? <==> a.Num? && b.Num?
  {
    if a.Num? && b.Num? then Num(a.r + b.r) else NaN
  }

  function Minus(a: Number, b: Number): (r: Number)
    ensures r.Num? <==> a.Num? && b.Num?
  {
    if a.Num? && b.Num? then Num(a.r - b.r) else NaN
  }

  function Times(a: Number, b: Number): (r: Number)
    ensures r.Num? <==> a.Num? && b.Num?
  {
    if a.Num? && b.Num? then Num(a.r * b.r) else NaN
  }

  /** `a / b`. Division by zero gives NaN here; JS gives NaN only for `0/0`
      (and an infinity otherwise), but no caller in this model divides a
      non-zero number by zero. */
  function Divide(a: Number, b: Number): (r: Number)
    ensures r.Num? <==> a.Num? && b.Num? && b.r != 0.0
  {
    if a.Num? && b.Num? && b.r != 0.0 then Num(a.r / b.r) else NaN
  }

  /** `a < b`: false as soon as one side is NaN. */
  predicate Less(a: Number, b: Number) {
    a.Num? && b.Num? && a.r < b.r
  }

  /** `a > b`: false as soon as one side is NaN. */
  predicate Greater(a: Number, b: Number) {
    Less(b, a)
  }

  /** `a <= b`: false as soon as one side is NaN. */
  predicate AtMost(a: Number, b: Number) {
    a.Num? && b.Num? && a.r <= b.r
  }

  /** `Math.abs`. */
  function Abs(a: Number): (r: Number)
    ensures a.NaN? <==> r.NaN?
    ensures r.Num? ==> r.r >= 0.0 && (r.r == a.r || r.r == -a.r)
  {
    if a.NaN? then NaN else if a.r < 0.0 then Num(-a.r) else a
  }

  /** `Math.min(a, b)`: NaN when either argument is NaN. */
  function Min(a: Number, b: Number): (r: Number)
    ensures r.Num? <==> a.Num? && b.Num?
    ensures r.Num? ==> r.r <= a.r && r.r <= b.r && (r == a || r == b)
  {
    if a.NaN? || b.NaN? then NaN else if b.r < a.r then b else a
  }

  /** `Math.max(a, b)`: NaN when either argument is NaN. */
  function Max(a: Number, b: Number): (r: Number)
    ensures r.Num? <==> a.Num? && b.Num?
    ensures r.Num? ==> r.r >= a.r && r.r >= b.r && (r == a || r == b)
  {
    if a.NaN? || b.NaN? then NaN else if b.r > a.r then b else a
  }

  /** `a || 0` on a number: NaN and zero are falsy and give 0. */
  function OrZero(a: Number): (r: Number)
    ensures r.Num?
    ensures a.Num? ==> r == a
    ensures a.NaN? ==> r == Num(0.0)
  {
    if a.NaN? || a.r == 0.0 then Num(0.0) else a
  }

  /** `Math.sqrt` is not part of this model: callers pass it in, and the
      properties that depend on it require that it is a square root. */
  ghost predicate IsSqrt(sqrt: real -> real) {
    forall x: real {:trigger sqrt(x)} :: 0.0 <= x ==> 0.0 <= sqrt(x) && sqrt(x) * sqrt(x) == x
  }

  /** `Math.sqrt(a)` through the given root function; NaN for NaN and for
      negative arguments. */
  function Sqrt(a: Number, sqrt: real -> real): (r: Number)
    ensures r.Num? <==> a.Num? && a.r >= 0.0
  {
    if a.Num? && a.r >= 0.0 then Num(sqrt(a.r)) else NaN
  }

  /** The sign of a finite number, -1, 0 or 1. */
  function Sign(a: Number): int
    requires a.Num?
  {
    if a.r < 0.0 then -1 else if a.r > 0.0 then 1 else 0
  }
}
