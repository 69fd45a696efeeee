/** Two's-complement int32 arithmetic, as Go's `int32` computes it. */
module Int32 {
  const MAX_INT32 := 0x7fff_ffff
  const MIN_INT32 := -0x8000_0000
  const TWO_32 := 0x1_0000_0000

  type int32 = x: int | MIN_INT32 <= x <= MAX_INT32

  predicate InInt32(x: int) {
    MIN_INT32 <= x <= MAX_INT32
  }

  /** The int32 that a Go operation with mathematical result `x` produces. */
  function Wrap32(x: int): (r: int)
    ensures InInt32(r)
    ensures InInt32(x) <==> r == x
  {
    (x + 0x8000_0000) % TWO_32 - 0x8000_0000
  }

  /** Marks an operation whose mathematical result is proved to need no wrapping. */
  function Fits32(x: int): int
    requires InInt32(x)
  {
    x
  }
}
