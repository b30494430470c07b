/**
 * TeamStatistics.php: a team's season counters and the three figures
 * derived from them. The getters read the counters and change nothing.
 */
module TeamStats {
  /** The counters of one team in one league and season. */
  datatype TeamStatistics = TeamStatistics(
    matchesPlayed: int,
    wins: int,
    draws: int,
    losses: int,
    goalsFor: int,
    goalsAgainst: int,
    formScore: int,
    homeWins: int,
    homeDraws: int,
    homeLosses: int,
    awayWins: int,
    awayDraws: int,
    awayLosses: int)

  /** Every counter of a new row starts at 0. */
  const NewTeamStatistics := TeamStatistics(0, 0, 0, 0, 0, 0, 0, 0, 0, 0, 0, 0, 0)

  /** getPoints: three points a win, one a draw. */
  function Points(s: TeamStatistics): int
  {
    s.wins * 3 + s.draws
  }

  /** getGoalDifference: goals scored less goals conceded. */
  function GoalDifference(s: TeamStatistics): int
  {
    s.goalsFor - s.goalsAgainst
  }

  /**
   * getWinPercentage before its rounding to one decimal: 0 when no match
   * has been played, so there is no division by zero.
   */
  function WinPercentage(s: TeamStatistics): (pct: real)
    ensures s.matchesPlayed == 0 ==> pct == 0.0
    ensures s.matchesPlayed != 0 ==> pct * s.matchesPlayed as real == 100.0 * s.wins as real
    ensures 0 <= s.wins <= s.matchesPlayed ==> 0.0 <= pct <= 100.0
  {
    if s.matchesPlayed == 0 then 0.0 else (s.wins as real / s.matchesPlayed as real) * 100.0
  }

  // ---------------------------------------------------------------------------
  // The counters as the tally of a season's results
  // ---------------------------------------------------------------------------

  /** One played match, from the team's side. */
  datatype Result = Result(scored: nat, conceded: nat)

  /** The league points one result is worth. */
  function ResultPoints(r: Result): nat
  {
    if r.scored > r.conceded then 3 else if r.scored == r.conceded then 1 else 0
  }

  function SumPoints(rs: seq<Result>): nat
  {
    if rs == [] then 0 else SumPoints(rs[..|rs| - 1]) + ResultPoints(rs[|rs| - 1])
  }

  function SumMargins(rs: seq<Result>): int
  {
    if rs == [] then 0 else SumMargins(rs[..|rs| - 1]) + (rs[|rs| - 1].scored - rs[|rs| - 1].conceded)
  }

  /** The general counters (played, won, drawn, lost, goals) that a run of results adds up to. */
  function Record(rs: seq<Result>): (s: TeamStatistics)
    ensures s.matchesPlayed == |rs| == s.wins + s.draws + s.losses
    ensures 0 <= s.wins && 0 <= s.draws && 0 <= s.losses && 0 <= s.goalsFor && 0 <= s.goalsAgainst
  {
    if rs == [] then NewTeamStatistics
    else
      var s := Record(rs[..|rs| - 1]);
      var r := rs[|rs| - 1];
      s.(matchesPlayed := s.matchesPlayed + 1,
         wins := s.wins + (if r.scored > r.conceded then 1 else 0),
         draws := s.draws + (if r.scored == r.conceded then 1 else 0),
         losses := s.losses + (if r.scored < r.conceded then 1 else 0),
         goalsFor := s.goalsFor + r.scored,
         goalsAgainst := s.goalsAgainst + r.conceded)
  }

  /** getPoints of tallied counters is the points the results earned one by one. */
  lemma {:induction false} PointsOfRecord(rs: seq<Result>)
    ensures Points(Record(rs)) == SumPoints(rs)
    decreases |rs|
  {
    if rs != [] {
      PointsOfRecord(rs[..|rs| - 1]);
    }
  }

  /** getGoalDifference of tallied counters is the sum of the match margins. */
  lemma {:induction false} GoalDifferenceOfRecord(rs: seq<Result>)
    ensures GoalDifference(Record(rs)) == SumMargins(rs)
    decreases |rs|
  {
    if rs != [] {
      GoalDifferenceOfRecord(rs[..|rs| - 1]);
    }
  }

  /**
   * Consistent counters bound the figures: points lie between 0 and three a
   * match, and the win percentage is a percentage.
   */
  lemma PointsBounded(s: TeamStatistics)
    requires 0 <= s.wins && 0 <= s.draws && 0 <= s.losses
    requires s.matchesPlayed == s.wins + s.draws + s.losses
    ensures 0 <= Points(s) <= 3 * s.matchesPlayed
    ensures Points(s) == 3 * s.matchesPlayed <==> s.draws == 0 && s.losses == 0
    ensures 0.0 <= WinPercentage(s) <= 100.0
  {
  }

  /** Swapping the two teams' goals negates the goal difference. */
  lemma GoalDifferenceAntisymmetric(s: TeamStatistics)
    ensures GoalDifference(s.(goalsFor := s.goalsAgainst, goalsAgainst := s.goalsFor)) == -GoalDifference(s)
  {
  }
}
