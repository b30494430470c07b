/**
 * DataCollectorService.php, mapStatus only: the provider's short fixture
 * status codes translated to the six internal match statuses.
 */
module DataCollector {
  import opened Common
  import opened Matches

  /** The provider codes the service knows, with their internal status. */
  const StatusMap: map<string, MatchStatus> := map[
    "TBD" := Scheduled,
    "NS" := Scheduled,
    "1H" := Live,
    "HT" := Halftime,
    "2H" := Live,
    "ET" := Live,
    "P" := Live,
    "FT" := Finished,
    "AET" := Finished,
    "PEN" := Finished,
    "PST" := Postponed,
    "CANC" := Cancelled,
    "ABD" := Cancelled,
    "AWD" := Finished,
    "WO" := Finished
  ]

  /** mapStatus: a table lookup that falls back to scheduled. */
  function MapStatus(code: string): (s: MatchStatus)
    ensures s == Finished <==> code in {"FT", "AET", "PEN", "AWD", "WO"}
    ensures s == Live <==> code in {"1H", "2H", "ET", "P"}
    ensures s == Halftime <==> code == "HT"
    ensures s == Postponed <==> code == "PST"
    ensures s == Cancelled <==> code in {"CANC", "ABD"}
    ensures s == Scheduled <==>
      code !in {"FT", "AET", "PEN", "AWD", "WO", "1H", "2H", "ET", "P", "HT", "PST", "CANC", "ABD"}
  {
    if code in StatusMap then StatusMap[code] else Scheduled
  }

  /** Only the finishing codes let predictions and coupons on the match settle. */
  lemma MappedFinishedSettles(code: string, date: int, home: int, away: int)
    ensures IsFinished(Match(MapStatus(code), date, Some(home), Some(away))) <==>
      code in {"FT", "AET", "PEN", "AWD", "WO"}
  {
  }
}
