/**
 The ways a PVT calculation can end without a response: the request is rejected by
 validation, the computed response is rejected by validation, or the arithmetic raises
 (a division by zero, or a decimal logarithm of a non-positive number).
 */
module Results {
  import opened Schema

  datatype PvtError =
    | RequestInvalid(requestFields: seq<RequestField>)
    | ResponseInvalid(responseFields: seq<ResponseField>)
    | ZeroDivision
    | MathDomain

  /** A failure-compatible result: `:-` propagates the first error raised. */
  datatype Result<+T> = Ok(value: T) | Fail(error: PvtError) {

    predicate IsFailure() {
      Fail?
    }

    function PropagateFailure<U>(): Result<U>
      requires Fail?
    {
      Fail(error)
    }

    function Extract(): T
      requires Ok?
    {
      value
    }
  }

  /** Real division as the source performs it: dividing by zero raises. */
  function Div(a: real, b: real): (r: Result<real>)
    ensures r.Ok? <==> b != 0.0
    ensures r.Ok? ==> r.value * b == a
  {
    if b == 0.0 then Fail(ZeroDivision) else Ok(a / b)
  }
}
