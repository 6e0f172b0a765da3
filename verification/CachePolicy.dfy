/** The reviewed allowance for KV-cache capacity. */
module CachePolicy {
  import opened Effects

  type Tokens = n: nat | n > 0 witness 1

  /** `Observed` is the engine's explicit token capacity. */
  datatype Capacity = Observed(tokens: Tokens) | Unobserved

  datatype Comparison = NotComparable | Compared(deltaTokens: int, deltaPercent: real)

  function Compare(baseline: Capacity, current: Capacity): Comparison {
    if baseline.Unobserved? || current.Unobserved? then NotComparable
    else
      var delta := current.tokens - baseline.tokens;
      Compared(delta, 100.0 * delta as real / baseline.tokens as real)
  }

  predicate ValidPolicy(maxLossPercent: real) {
    0.0 <= maxLossPercent < 100.0
  }

  /** The percentage test is the exact multiplicative bound on the two token counts. */
  lemma WithinAllowanceIffBound(baseline: Tokens, current: Tokens, maxLossPercent: real)
    ensures Compare(Observed(baseline), Observed(current)).deltaPercent >= -maxLossPercent
       <==> 100.0 * current as real >= (100.0 - maxLossPercent) * baseline as real
  {
    var b, c := baseline as real, current as real;
    var percent := 100.0 * (current - baseline) as real / b;
    assert (current - baseline) as real == c - b;
    assert percent * b == 100.0 * (c - b);
    if percent >= -maxLossPercent {
      MultiplyByPositive(-maxLossPercent, percent, b);
    } else {
      MultiplyByPositiveStrict(percent, -maxLossPercent, b);
    }
  }

  lemma MultiplyByPositive(x: real, y: real, b: real)
    requires x <= y && b > 0.0
    ensures x * b <= y * b
  {
  }

  lemma MultiplyByPositiveStrict(x: real, y: real, b: real)
    requires x < y && b > 0.0
    ensures x * b < y * b
  {
  }
}
