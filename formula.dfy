/**
 * Formula.php: a user's prediction formula with its success and failure
 * counts, and calculateSuccessRate. The rules and filters are opaque
 * JSON to this model; save() is persistence and not part of it.
 */
module Formulas {
  /** The success rate in percent of the given counts; undefined with no result at all. */
  function SuccessRate(successCount: int, failCount: int): (rate: real)
    requires successCount + failCount != 0
    ensures rate * (successCount + failCount) as real == 100.0 * successCount as real
    ensures 0 <= successCount && 0 <= failCount ==> 0.0 <= rate <= 100.0
    ensures 0 <= successCount && 0 <= failCount ==> (rate == 100.0 <==> failCount == 0)
    ensures 0 <= successCount && 0 <= failCount ==> (rate == 0.0 <==> successCount == 0)
  {
    var total := successCount + failCount;
    var rate := (successCount as real / total as real) * 100.0;
    FullRate(successCount, failCount, rate);
    rate
  }

  lemma FullRate(successCount: int, failCount: int, rate: real)
    requires successCount + failCount != 0
    requires rate * (successCount + failCount) as real == 100.0 * successCount as real
    ensures rate == 100.0 ==> successCount == successCount + failCount
  {
    if rate == 100.0 {
      assert 100.0 * (successCount + failCount) as real == 100.0 * successCount as real;
    }
  }

  class Formula {
    var userId: int
    var name: string
    var isActive: bool
    var isPublic: bool
    var successCount: int
    var failCount: int
    var successRate: real

    /** A new formula: active, not public, no results, rate 0. */
    constructor (userId: int, name: string)
      ensures this.userId == userId && this.name == name
      ensures isActive && !isPublic
      ensures successCount == 0 && failCount == 0 && successRate == 0.0
    {
      this.userId := userId;
      this.name := name;
      isActive := true;
      isPublic := false;
      successCount := 0;
      failCount := 0;
      successRate := 0.0;
    }

    /**
     * calculateSuccessRate: with no recorded result it answers 0 and keeps
     * the stored rate; otherwise it stores the rate of the counts and
     * answers it. The counts are only read.
     */
    method CalculateSuccessRate() returns (rate: real)
      modifies this`successRate
      ensures successCount + failCount == 0 ==> rate == 0.0 && successRate == old(successRate)
      ensures successCount + failCount != 0 ==>
        successRate == SuccessRate(successCount, failCount) && rate == successRate
    {
      var total := successCount + failCount;
      if total == 0 {
        return 0.0;
      }
      successRate := (successCount as real / total as real) * 100.0;
      rate := successRate;
    }
  }

  /** One more success never lowers the rate, one more failure never raises it. */
  lemma RateMonotone(successCount: nat, failCount: nat)
    requires successCount + failCount != 0
    ensures SuccessRate(successCount + 1, failCount) >= SuccessRate(successCount, failCount)
    ensures SuccessRate(successCount, failCount + 1) <= SuccessRate(successCount, failCount)
  {
    var s, f := successCount as real, failCount as real;
    var r := SuccessRate(successCount, failCount);
    var up := SuccessRate(successCount + 1, failCount);
    var down := SuccessRate(successCount, failCount + 1);
    assert r * (s + f) == 100.0 * s;
    assert up * (s + f + 1.0) == 100.0 * (s + 1.0);
    assert down * (s + f + 1.0) == 100.0 * s;
    assert r <= 100.0;
    assert (up - r) * (s + f + 1.0) == 100.0 - r >= 0.0;
    NonNegativeFactor(up - r, s + f + 1.0);
    assert (r - down) * (s + f + 1.0) == r >= 0.0;
    NonNegativeFactor(r - down, s + f + 1.0);
  }

  lemma NonNegativeFactor(x: real, p: real)
    requires p > 0.0 && x * p >= 0.0
    ensures x >= 0.0
  {
  }
}
