/** Value helpers shared by the analyser and loader models. */
module Common {

  /** A reference that may be null in the source. */
  datatype Option<T> = None | Some(value: T)

  /** The outcome of an operation that throws in the source. */
  datatype Result<T, E> = Ok(value: T) | Err(error: E)

  /** `Math.Abs` over the reals that model `float`. */
  function Abs(x: real): (r: real)
    ensures r >= 0.0 && (r == x || r == -x)
  {
    if x < 0.0 then -x else x
  }

  /** `Math.Min` over the reals that model `float`. */
  function RMin(a: real, b: real): (r: real)
    ensures r <= a && r <= b && (r == a || r == b)
  {
    if a < b then a else b
  }

  /** Sum of a sequence, peeled from the back like the loops that accumulate it. */
  function Sum(s: seq<real>): real
  {
    if |s| == 0 then 0.0 else Sum(s[..|s| - 1]) + s[|s| - 1]
  }
}
