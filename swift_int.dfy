/** Swift's `Int` on a 64-bit platform: a signed 64-bit integer whose
    arithmetic traps (stops the program) instead of wrapping around. */
module SwiftInt {

  const MinInt: int := -0x8000_0000_0000_0000
  const MaxInt: int :=  0x7FFF_FFFF_FFFF_FFFF

  /** The values a Swift `Int` can hold. */
  type Int = x: int | MinInt <= x <= MaxInt

  /** True when `a - b`, computed by Swift on `Int`, traps with an overflow. */
  predicate SubtractionTraps(a: Int, b: Int)
  {
    !(MinInt <= a - b <= MaxInt)
  }
}
