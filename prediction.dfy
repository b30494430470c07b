/**
 * Prediction.php: an outcome forecast on one match and the resolution that
 * marks it won or lost once the match has finished.
 */
module Predictions {
  import opened Common
  import opened Matches

  const TYPE_1X2 := "1x2"
  const TYPE_DOUBLE_CHANCE := "double_chance"
  const TYPE_BTTS := "btts"
  const TYPE_OVER_UNDER := "over_under"
  const TYPE_HOME_OVER_UNDER := "home_over_under"
  const TYPE_AWAY_OVER_UNDER := "away_over_under"
  const TYPE_CORRECT_SCORE := "correct_score"

  /**
   * The actual result of a finished match for the three prediction types
   * that have a resolution rule; None for every other type. The over/under
   * line is 2.5 goals, so with whole scores "over" means at least 3.
   */
  function ActualResult(predictionType: string, home: int, away: int): (r: Option<string>)
    ensures r.Some? <==> predictionType in {TYPE_1X2, TYPE_BTTS, TYPE_OVER_UNDER}
    ensures predictionType == TYPE_1X2 ==>
      (r == Some("1") <==> home > away) &&
      (r == Some("X") <==> home == away) &&
      (r == Some("2") <==> home < away)
    ensures predictionType == TYPE_BTTS ==>
      (r == Some("yes") <==> home > 0 && away > 0) &&
      (r == Some("no") <==> home <= 0 || away <= 0)
    ensures predictionType == TYPE_OVER_UNDER ==>
      (r == Some("over") <==> home + away >= 3) &&
      (r == Some("under") <==> home + away <= 2)
  {
    if predictionType == TYPE_1X2 then
      Some(if home > away then "1" else if home == away then "X" else "2")
    else if predictionType == TYPE_BTTS then
      Some(if home > 0 && away > 0 then "yes" else "no")
    else if predictionType == TYPE_OVER_UNDER then
      Some(if (home + away) as real > 2.5 then "over" else "under")
    else
      None
  }

  /** The two fields checkResult writes. */
  datatype Resolution = Resolution(status: BetStatus, actualResult: Option<string>)

  /** The match is present and finished, so the prediction can be resolved. */
  predicate Resolvable(m: Option<Match>)
  {
    m.Some? && IsFinished(m.value)
  }

  /** A finished match carries both final scores. */
  predicate ScoresKnown(m: Option<Match>)
  {
    Resolvable(m) ==> m.value.homeScore.Some? && m.value.awayScore.Some?
  }

  /**
   * What checkResult leaves in (status, actual_result): unchanged unless the
   * match is finished and the type has a rule; then the actual result, and
   * won exactly when it equals the predicted result, lost otherwise.
   */
  function Resolve(prior: Resolution, predictionType: string, predicted: string, m: Option<Match>): (r: Resolution)
    requires ScoresKnown(m)
    ensures !Resolvable(m) ==> r == prior
    ensures Resolvable(m) ==>
      var actual := ActualResult(predictionType, m.value.homeScore.value, m.value.awayScore.value);
      (actual.None? ==> r == prior) &&
      (actual.Some? ==> r.actualResult == actual &&
                        (r.status == Won <==> actual.value == predicted) &&
                        (r.status == Lost <==> actual.value != predicted))
  {
    if !Resolvable(m) then prior
    else
      match ActualResult(predictionType, m.value.homeScore.value, m.value.awayScore.value)
      case None => prior
      case Some(actual) => Resolution(if actual == predicted then Won else Lost, Some(actual))
  }

  /**
   * Resolution never produces void or pending: whenever it changes the
   * status, the new status is won or lost.
   */
  lemma ResolveNeverVoid(prior: Resolution, predictionType: string, predicted: string, m: Option<Match>)
    requires ScoresKnown(m)
    ensures var r := Resolve(prior, predictionType, predicted, m);
      r.status != prior.status ==> r.status == Won || r.status == Lost
  {
  }

  /** Re-running resolution on the same finished score changes nothing more. */
  lemma ResolveIdempotent(prior: Resolution, predictionType: string, predicted: string, m: Option<Match>)
    requires ScoresKnown(m)
    ensures var once := Resolve(prior, predictionType, predicted, m);
      Resolve(once, predictionType, predicted, m) == once
  {
  }

  /**
   * Types with no rule (double chance, correct score, home and away
   * over/under) are never resolved, whatever the score.
   */
  lemma UnruledTypesStayPending(prior: Resolution, predicted: string, m: Option<Match>, t: string)
    requires ScoresKnown(m)
    requires t in {TYPE_DOUBLE_CHANCE, TYPE_CORRECT_SCORE, TYPE_HOME_OVER_UNDER, TYPE_AWAY_OVER_UNDER}
    ensures Resolve(prior, t, predicted, m) == prior
  {
  }

  class Prediction {
    var predictionType: string
    var predictedResult: string
    var confidenceScore: real
    var status: BetStatus
    var actualResult: Option<string>
    var isPremium: bool
    /** getMatch(): the match row, or None when it does not exist. */
    var fixture: Option<Match>

    /** A new prediction: pending, no actual result, not premium. */
    constructor (predictionType: string, predictedResult: string, confidenceScore: real, fixture: Option<Match>)
      ensures this.predictionType == predictionType && this.predictedResult == predictedResult
      ensures this.confidenceScore == confidenceScore && this.fixture == fixture
      ensures status == Pending && actualResult == None && !isPremium
    {
      this.predictionType := predictionType;
      this.predictedResult := predictedResult;
      this.confidenceScore := confidenceScore;
      this.fixture := fixture;
      status := Pending;
      actualResult := None;
      isPremium := false;
    }

    function State(): Resolution
      reads this
    {
      Resolution(status, actualResult)
    }

    /** isHighConfidence: a confidence score of 75 or more. */
    function IsHighConfidence(): (high: bool)
      reads this
      ensures high <==> confidenceScore >= 75.0
    {
      confidenceScore >= 75.0
    }

    /**
     * checkResult: resolves the prediction in place from its match's final
     * score; only status and actual_result may change.
     */
    method CheckResult()
      requires ScoresKnown(fixture)
      modifies this`status, this`actualResult
      ensures State() == Resolve(old(State()), predictionType, predictedResult, fixture)
    {
      if fixture.None? || !IsFinished(fixture.value) {
        return;
      }
      var homeScore := fixture.value.homeScore.value;
      var awayScore := fixture.value.awayScore.value;
      if predictionType == TYPE_1X2 {
        var actual;
        if homeScore > awayScore {
          actual := "1";
        } else if homeScore == awayScore {
          actual := "X";
        } else {
          actual := "2";
        }
        actualResult := Some(actual);
        status := if actual == predictedResult then Won else Lost;
      } else if predictionType == TYPE_BTTS {
        var actual := if homeScore > 0 && awayScore > 0 then "yes" else "no";
        actualResult := Some(actual);
        status := if actual == predictedResult then Won else Lost;
      } else if predictionType == TYPE_OVER_UNDER {
        var totalGoals := homeScore + awayScore;
        var actual := if totalGoals as real > 2.5 then "over" else "under";
        actualResult := Some(actual);
        status := if actual == predictedResult then Won else Lost;
      }
    }
  }
}
