/** Small integer helpers shared by the image and batching modules. */
module Ints {

  function Min(a: int, b: int): int { if a <= b then a else b }

  function Max(a: int, b: int): int { if a <= b then b else a }

  function Abs(a: int): nat { if a < 0 then -a else a }

  /** `0 <= i < n`, the test for an in-bounds index. */
  predicate InBounds(i: int, n: int) { 0 <= i < n }
}
