/**
 * Team.php: the standings counters of a team and getFormPercentage.
 */
module Teams {
  import opened Common

  /** The standings part of a team row; the position is unknown until set. */
  datatype Team = Team(
    position: Option<int>,
    playedGames: int,
    won: int,
    draw: int,
    lost: int,
    points: int,
    goalsFor: int,
    goalsAgainst: int,
    goalDifference: int)

  /** A new team has no position and every standings counter at 0. */
  const NewTeam := Team(None, 0, 0, 0, 0, 0, 0, 0, 0)

  /**
   * getFormPercentage: the share of the available points (three a game)
   * the team has taken, in percent; 0 before any game.
   */
  function FormPercentage(t: Team): (pct: real)
    ensures t.playedGames == 0 ==> pct == 0.0
    ensures t.playedGames != 0 ==> pct * (3 * t.playedGames) as real == 100.0 * t.points as real
    ensures 0 <= t.points <= 3 * t.playedGames ==> 0.0 <= pct <= 100.0
  {
    if t.playedGames == 0 then 0.0 else (t.points as real / (t.playedGames * 3) as real) * 100.0
  }

  /**
   * With points counted three a win and one a draw over the games played,
   * the form is 100 exactly when every game was won and 0 exactly when none
   * was won or drawn.
   */
  lemma FormExtremes(t: Team)
    requires 0 <= t.won && 0 <= t.draw && 0 <= t.lost && 0 < t.playedGames == t.won + t.draw + t.lost
    requires t.points == 3 * t.won + t.draw
    ensures FormPercentage(t) == 100.0 <==> t.won == t.playedGames
    ensures FormPercentage(t) == 0.0 <==> t.won == 0 && t.draw == 0
  {
    var pct := FormPercentage(t);
    var n := (3 * t.playedGames) as real;
    assert pct * n == 100.0 * t.points as real;
    if pct == 100.0 {
      assert 100.0 * n == 100.0 * t.points as real;
    }
  }
}
