/**
 * Division as Python's `decimal` module performs it under the default
 * context, over exact reals: `a / 0` signals DivisionByZero when `a` is
 * nonzero and InvalidOperation (division undefined) when `a` is zero.
 * The two signals are distinct exception classes, so an
 * `except decimal.DivisionByZero` clause does not catch `0 / 0`.
 */
module DecimalDivision {

  datatype Signal = DivisionByZero | InvalidOperation

  /** A Decimal result, or the exception raised instead of it. */
  datatype Quotient = Value(v: real) | Raised(signal: Signal)

  function Div(a: real, b: real): (r: Quotient)
    ensures r.Value? <==> b != 0.0
    ensures r.Value? ==> r.v * b == a
    ensures r == Raised(DivisionByZero) <==> b == 0.0 && a != 0.0
    ensures r == Raised(InvalidOperation) <==> b == 0.0 && a == 0.0
  {
    if b != 0.0 then Value(a / b)
    else if a != 0.0 then Raised(DivisionByZero)
    else Raised(InvalidOperation)
  }

  /** `try: ... except decimal.DivisionByZero: <zero>`: only DivisionByZero is turned into 0. */
  function CatchDivisionByZero(o: Quotient): (r: Quotient)
    ensures o.Value? ==> r == o
    ensures o == Raised(DivisionByZero) ==> r == Value(0.0)
    ensures o == Raised(InvalidOperation) ==> r == o
  {
    if o == Raised(DivisionByZero) then Value(0.0) else o
  }
}
