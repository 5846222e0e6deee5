/** The platform-wide basis-point fee helper (contracts/shared). */
module Shared {
  import opened Common

  /** 10 000 basis points make 100 %. */
  const BASIS_POINTS_DIVISOR: int := 10_000

  /** `calculate_fee(amount, fee_bps)`: `amount * fee_bps / 10 000`, rounded
      toward zero. The multiplication is unchecked in the source, so callers
      must keep the product inside `i128`; `fee_bps` is a `u32`. */
  function CalculateFee(amount: int, feeBps: int): (fee: int)
    requires 0 <= feeBps <= U32_MAX
    requires InI128(amount) && InI128(amount * feeBps)
    ensures feeBps == 0 ==> fee == 0
    ensures feeBps == BASIS_POINTS_DIVISOR ==> fee == amount
    ensures amount >= 0 ==> fee * BASIS_POINTS_DIVISOR <= amount * feeBps < fee * BASIS_POINTS_DIVISOR + BASIS_POINTS_DIVISOR
    ensures amount < 0 ==> fee * BASIS_POINTS_DIVISOR - BASIS_POINTS_DIVISOR < amount * feeBps <= fee * BASIS_POINTS_DIVISOR
  {
    TruncDivBounds(amount * feeBps, BASIS_POINTS_DIVISOR);
    TruncDiv(amount * feeBps, BASIS_POINTS_DIVISOR)
  }

  /** A fee rate within 0..100 % takes a fee between nothing and the whole amount. */
  lemma FeeWithinAmount(amount: int, feeBps: int)
    requires 0 <= feeBps <= BASIS_POINTS_DIVISOR
    requires 0 <= amount && InI128(amount) && InI128(amount * feeBps)
    ensures 0 <= CalculateFee(amount, feeBps) <= amount
  {
    MulNonNegative(amount, feeBps);
    MulMonotone(amount, feeBps, BASIS_POINTS_DIVISOR);
    TruncDivBounds(amount * feeBps, BASIS_POINTS_DIVISOR);
  }

  /** For a fixed non-negative rate a larger amount never pays a smaller fee,
      negative amounts included (rounding toward zero is monotone). */
  lemma FeeMonotone(a1: int, a2: int, feeBps: int)
    requires 0 <= feeBps <= U32_MAX
    requires a1 <= a2
    requires InI128(a1) && InI128(a1 * feeBps) && InI128(a2) && InI128(a2 * feeBps)
    ensures CalculateFee(a1, feeBps) <= CalculateFee(a2, feeBps)
  {
    MulMonotone(feeBps, a1, a2);
    assert a1 * feeBps <= a2 * feeBps by {
      assert feeBps * a1 == a1 * feeBps && feeBps * a2 == a2 * feeBps;
    }
    TruncDivBounds(a1 * feeBps, BASIS_POINTS_DIVISOR);
    TruncDivBounds(a2 * feeBps, BASIS_POINTS_DIVISOR);
  }
}
