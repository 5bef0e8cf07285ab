/** 64-bit integers and durations as Go has them. */
module Int64 {
  const MIN_INT64 := -0x8000_0000_0000_0000
  const MAX_INT64 := 0x7fff_ffff_ffff_ffff
  const TWO_64 := 0x1_0000_0000_0000_0000
  const SECOND := 1_000_000_000

  predicate IsInt64(x: int) {
    MIN_INT64 <= x <= MAX_INT64
  }

  function Wrap64(x: int): (r: int)
    ensures IsInt64(r) && (r - x) % TWO_64 == 0
    ensures IsInt64(x) ==> r == x
  {
    (x - MIN_INT64) % TWO_64 + MIN_INT64
  }

  /** Division rounds toward zero. */
  function Div(a: int, b: int): int
    requires b > 0
  {
    if a >= 0 then a / b else -(-a / b)
  }

  /** time.Time.Sub gives the nearest duration there is. */
  function Sub(a: int, b: int): int {
    var d := a - b;
    if d < MIN_INT64 then MIN_INT64 else if d > MAX_INT64 then MAX_INT64 else d
  }
}
