/**
  Finite sums over an enumeration, the meaning of a `lpSum` over a generator
  whose loop variables range over fixed lists.
*/
module Sums {

  /** The sum of `f(x)` for every `x` of `xs`, in order. */
  function Sum<T>(xs: seq<T>, f: T -> int): int
    decreases |xs|
  {
    if xs == [] then 0 else f(xs[0]) + Sum(xs[1..], f)
  }
}
