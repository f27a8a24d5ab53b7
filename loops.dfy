/** Counting the iterations of the generators' counted loops. */
module Loops {
  /** How many times `for (int i = 0; i < n; ++i)` runs: `n`, or none when `n` is negative. */
  function Count(n: int): nat {
    if n < 0 then 0 else n
  }
}
