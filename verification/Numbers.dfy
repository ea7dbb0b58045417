/** Arithmetic that several modules share, as Python computes it. */
module Numbers {

  /** `int()` of a number: truncation toward zero. */
  function Truncate(x: real): int {
    if x < 0.0 then -((-x).Floor) else x.Floor
  }

  /** A share of failures, 0 when there is nothing to divide by. */
  function FailRate(total: nat, failed: int): real {
    if total > 0 then failed as real / total as real else 0.0
  }
}
