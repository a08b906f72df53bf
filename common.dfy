/** Small value types and numeric helpers shared by every module of the gateway model. */
module Common {

  /** A value that may be absent: JavaScript's `undefined`/`null`. */
  datatype Option<T> = None | Some(value: T)

  /** An outcome that either carries a value or an error message. */
  datatype Result<T, E> = Ok(value: T) | Err(error: E)

  function MaxReal(a: real, b: real): real { if a >= b then a else b }

  function MinReal(a: real, b: real): real { if a <= b then a else b }

  function MaxInt(a: int, b: int): int { if a >= b then a else b }

  function MinInt(a: int, b: int): int { if a <= b then a else b }

  /** The product of two non-negative reals is non-negative. */
  lemma ProductNonNegative(x: real, y: real)
    requires x >= 0.0 && y >= 0.0
    ensures x * y >= 0.0
  {
  }

  /** JavaScript's `Math.round`: halves round towards +infinity. */
  function Round(x: real): (r: int)
    ensures r as real <= x + 0.5 < r as real + 1.0
  {
    (x + 0.5).Floor
  }

  /** `Math.ceil(d / 1000)` for a positive number of milliseconds. */
  function CeilSeconds(ms: int): (r: int)
    requires ms > 0
    ensures (r - 1) * 1000 < ms <= r * 1000
    ensures r >= 1
  {
    (ms + 999) / 1000
  }

  /** JavaScript's `x || d` on a number: 0 is falsy, so it is replaced by the default. */
  function OrNumber(x: real, d: real): real { if x == 0.0 then d else x }

  /** JavaScript's `x || d` on a number that may also be missing. */
  function OrInt(x: Option<int>, d: int): int { if x.None? || x.value == 0 then d else x.value }

  /** `xs.reduce((a, b) => a + b, 0)`: the left-to-right sum. */
  function SeqSum(xs: seq<int>): int
  {
    if |xs| == 0 then 0 else SeqSum(xs[..|xs| - 1]) + xs[|xs| - 1]
  }

  /** Milliseconds between two instants, as seconds. */
  function Seconds(ms: int): real { ms as real / 1000.0 }
}
