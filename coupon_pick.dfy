/**
 * CouponPick.php: one leg of a coupon, holding the odds captured when the
 * pick was made and a status copied from its prediction.
 */
module CouponPicks {
  import opened Common
  import opened Predictions

  class CouponPick {
    var predictionId: int
    var odds: real
    var isBanker: bool
    var status: BetStatus
    /** getPrediction(): the referenced prediction, or null when it is gone. */
    var prediction: Prediction?

    /** A new pick: pending and not a banker unless the caller says so. */
    constructor (predictionId: int, odds: real, prediction: Prediction?)
      ensures this.predictionId == predictionId && this.odds == odds && this.prediction == prediction
      ensures status == Pending && !isBanker
    {
      this.predictionId := predictionId;
      this.odds := odds;
      this.prediction := prediction;
      isBanker := false;
      status := Pending;
    }

    /**
     * checkResult: resolves the prediction, then overwrites the pick's status
     * with the prediction's, even when that is still pending. Without a
     * prediction nothing happens. Odds, banker flag and prediction id are
     * never touched.
     */
    method CheckResult()
      requires prediction != null ==> ScoresKnown(prediction.fixture)
      modifies this`status, prediction
      ensures prediction == old(prediction)
      ensures prediction == null ==> status == old(status)
      ensures prediction != null ==>
        prediction.predictionType == old(prediction.predictionType) &&
        prediction.predictedResult == old(prediction.predictedResult) &&
        prediction.fixture == old(prediction.fixture) &&
        prediction.confidenceScore == old(prediction.confidenceScore) &&
        prediction.isPremium == old(prediction.isPremium)
      ensures prediction != null ==>
        prediction.State() == Resolve(old(prediction.State()), prediction.predictionType,
                                      prediction.predictedResult, prediction.fixture) &&
        status == prediction.status
    {
      var p := prediction;
      if p != null {
        p.CheckResult();
        status := p.status;
      }
    }
  }

  /**
   * Settling the pick's prediction and copying the status gives the pick the
   * status resolution yields, so a pick on a finished match whose type has a
   * rule ends up won or lost.
   */
  lemma PickStatusAfterCheck(prior: Resolution, predictionType: string, predicted: string, m: Option<Matches.Match>)
    requires ScoresKnown(m) && Resolvable(m)
    requires ActualResult(predictionType, m.value.homeScore.value, m.value.awayScore.value).Some?
    ensures Resolve(prior, predictionType, predicted, m).status in {Won, Lost}
  {
  }
}
