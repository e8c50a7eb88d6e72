// llms/internal/satint/satint.go: saturating 64-bit arithmetic. Every
// intermediate result is itself a 64-bit value, so no step may wrap.
module Satint {
  const MAX_INT: int := 0x7FFF_FFFF_FFFF_FFFF
  const MIN_INT: int := -0x8000_0000_0000_0000

  newtype int64 = x: int | -0x8000_0000_0000_0000 <= x < 0x8000_0000_0000_0000

  const MAX: int64 := 0x7FFF_FFFF_FFFF_FFFF
  const MIN: int64 := -0x8000_0000_0000_0000

  function Clamp(x: int): int {
    if x > MAX_INT then MAX_INT else if x < MIN_INT then MIN_INT else x
  }

  function Max(a: int64, b: int64): int64 {
    if a < b then b else a
  }

  function Min(a: int64, b: int64): int64 {
    if a < b then a else b
  }

  function Add(a: int64, b: int64): (r: int64)
    ensures r as int == Clamp(a as int + b as int)
  {
    if b > 0 && a > MAX - b then MAX
    else if b < 0 && a < MIN - b then MIN
    else a + b
  }

  function Sub(a: int64, b: int64): (r: int64)
    ensures r as int == Clamp(a as int - b as int)
  {
    if b < 0 && a > MAX + b then MAX
    else if b > 0 && a < MIN + b then MIN
    else a - b
  }
}
