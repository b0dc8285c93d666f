/** Go's `error` values and the few wrappers the rest of the model needs. */
module Errors {

  datatype Option<+T> = None | Some(value: T)

  /** A Go `error`: only its message matters to the model. */
  datatype Error = Error(msg: string)

  /** A value or the error that prevented it (Go's `(T, error)` pair). */
  datatype Result<+T> = Ok(value: T) | Err(error: Error)

  /** How a Go function that returns an `error` ended: it returned
      (nil or an error), or it panicked at run time. */
  datatype Outcome = Returned(err: Option<Error>) | Panicked

  /** The decimal digits of a natural number, as `%d` prints it. */
  function NatToDecimal(n: nat): (s: string)
    ensures |s| > 0
    ensures forall k :: 0 <= k < |s| ==> '0' <= s[k] <= '9'
  {
    var d := ['0', '1', '2', '3', '4', '5', '6', '7', '8', '9'][n % 10];
    if n < 10 then [d] else NatToDecimal(n / 10) + [d]
  }

  /** The decimal form of an integer, with a leading '-' when negative. */
  function IntToDecimal(i: int): (s: string)
    ensures |s| > 0
    ensures (s[0] == '-') <==> i < 0
    ensures forall k :: 0 <= k < |s| ==> s[k] == '-' || '0' <= s[k] <= '9'
  {
    if i < 0 then "-" + NatToDecimal(-i) else NatToDecimal(i)
  }
}
