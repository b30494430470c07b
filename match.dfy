/**
 * Match.php: a fixture with its status, kick-off time and (possibly missing)
 * final score, and the predicates the rest of the application asks of it.
 */
module Matches {
  import opened Common

  /** The six values of matches.status. */
  datatype MatchStatus = Scheduled | Live | Halftime | Finished | Postponed | Cancelled

  function MatchStatusName(s: MatchStatus): string
  {
    match s
    case Scheduled => "scheduled"
    case Live => "live"
    case Halftime => "halftime"
    case Finished => "finished"
    case Postponed => "postponed"
    case Cancelled => "cancelled"
  }

  /**
   * The fields of a match the model needs. Times are seconds on one clock;
   * "now" is always passed in by the caller.
   */
  datatype Match = Match(status: MatchStatus, matchDate: int, homeScore: Option<int>, awayScore: Option<int>)

  /** A match row as the model class initialises it: scheduled, no score yet. */
  function NewMatch(matchDate: int): (m: Match)
    ensures m.status == Scheduled && m.matchDate == matchDate
    ensures m.homeScore == None && m.awayScore == None
  {
    Match(Scheduled, matchDate, None, None)
  }

  predicate IsLive(m: Match)
  {
    m.status == Live || m.status == Halftime
  }

  predicate IsFinished(m: Match)
  {
    m.status == Finished
  }

  predicate IsUpcoming(m: Match, now: int)
  {
    m.status == Scheduled && m.matchDate > now
  }

  /** The three status predicates partition no status twice. */
  lemma StatusPredicatesExclusive(m: Match, now: int)
    ensures !(IsLive(m) && IsFinished(m))
    ensures !(IsUpcoming(m, now) && (IsLive(m) || IsFinished(m)))
    ensures IsFinished(m) <==> m.status == Finished
    ensures m.status in {Postponed, Cancelled} ==> !IsFinished(m) && !IsLive(m) && !IsUpcoming(m, now)
  {
  }

  // ---------------------------------------------------------------------------
  // Score display
  // ---------------------------------------------------------------------------

  predicate IsDigit(c: char)
  {
    '0' <= c <= '9'
  }

  function DigitChar(d: nat): (c: char)
    requires d < 10
    ensures IsDigit(c) && c as int - '0' as int == d
  {
    ('0' as int + d) as char
  }

  /** PHP's decimal rendering of a non-negative integer. */
  function NatToString(n: nat): (s: string)
    ensures |s| >= 1 && forall i :: 0 <= i < |s| ==> IsDigit(s[i])
    decreases n
  {
    if n < 10 then [DigitChar(n)] else NatToString(n / 10) + [DigitChar(n % 10)]
  }

  /** PHP's decimal rendering of an integer: a '-' sign, then the digits. */
  function IntToString(i: int): (s: string)
    ensures |s| >= 1 && ' ' !in s
  {
    if i < 0 then "-" + NatToString(-i) else NatToString(i)
  }

  /** getScoreDisplay: "home - away" once both scores are known, else "vs". */
  function ScoreDisplay(m: Match): string
  {
    if m.homeScore.Some? && m.awayScore.Some? then
      IntToString(m.homeScore.value) + " - " + IntToString(m.awayScore.value)
    else
      "vs"
  }

  /** Scores are written in plain decimal, with no padding or leading zeros. */
  lemma ScoreDisplayExamples(now: int)
    ensures ScoreDisplay(Match(Finished, now, Some(2), Some(1))) == "2 - 1"
    ensures ScoreDisplay(Match(Finished, now, Some(10), Some(0))) == "10 - 0"
    ensures ScoreDisplay(Match(Live, now, Some(0), None)) == "vs"
  {
    assert NatToString(10) == NatToString(1) + [DigitChar(0)];
  }

  /** The value of a string of decimal digits. */
  function DigitsValue(s: string): nat
    requires forall i :: 0 <= i < |s| ==> IsDigit(s[i])
  {
    if s == [] then 0
    else
      assert IsDigit(s[|s| - 1]);
      DigitsValue(s[..|s| - 1]) * 10 + (s[|s| - 1] as int - '0' as int)
  }

  /** Reads back what IntToString writes; None for anything else. */
  function ParseInt(s: string): Option<int>
  {
    if |s| >= 2 && s[0] == '-' && forall i :: 1 <= i < |s| ==> IsDigit(s[i]) then
      var magnitude: int := DigitsValue(s[1..]);
      Some(-magnitude)
    else if |s| >= 1 && forall i :: 0 <= i < |s| ==> IsDigit(s[i]) then
      Some(DigitsValue(s))
    else
      None
  }

  function IndexOfSpace(s: string): (r: Option<nat>)
    ensures r.Some? ==> r.value < |s| && s[r.value] == ' ' && ' ' !in s[..r.value]
    ensures r.None? ==> ' ' !in s
  {
    if s == [] then None
    else if s[0] == ' ' then Some(0)
    else match IndexOfSpace(s[1..])
      case None => None
      case Some(i) => Some(i + 1)
  }

  /**
   * Reads a score display back into the two scores: the text before the
   * first space, the separator " - ", and the text after it.
   */
  function ParseScoreDisplay(s: string): Option<(int, int)>
  {
    match IndexOfSpace(s)
    case None => None
    case Some(i) =>
      if i + 3 <= |s| && s[i..i + 3] == " - " then
        match (ParseInt(s[..i]), ParseInt(s[i + 3..]))
        case (Some(h), Some(a)) => Some((h, a))
        case _ => None
      else None
  }

  lemma {:induction false} NatToStringRoundTrip(n: nat)
    ensures DigitsValue(NatToString(n)) == n
    decreases n
  {
    if n >= 10 {
      NatToStringRoundTrip(n / 10);
      var s := NatToString(n);
      assert s[..|s| - 1] == NatToString(n / 10);
    }
  }

  lemma {:induction false} IntToStringRoundTrip(i: int)
    ensures ParseInt(IntToString(i)) == Some(i)
  {
    if i < 0 {
      NegativeRoundTrip(i);
    } else {
      NatToStringRoundTrip(i);
      ParseDigits(NatToString(i));
    }
  }

  lemma NegativeRoundTrip(i: int)
    requires i < 0
    ensures ParseInt(IntToString(i)) == Some(i)
  {
    var digits := NatToString(-i);
    NatToStringRoundTrip(-i);
    ParseNegative(digits);
    calc {
      ParseInt(IntToString(i));
      { assert IntToString(i) == "-" + digits; }
      ParseInt("-" + digits);
      Some(-(DigitsValue(digits) as int));
      { assert DigitsValue(digits) == -i; }
      Some(i);
    }
  }

  lemma ParseNegative(digits: string)
    requires |digits| >= 1 && forall j :: 0 <= j < |digits| ==> IsDigit(digits[j])
    ensures ParseInt("-" + digits) == Some(-(DigitsValue(digits) as int))
  {
    var s := "-" + digits;
    assert s[1..] == digits;
    assert forall j :: 1 <= j < |s| ==> s[j] == digits[j - 1];
  }

  lemma ParseDigits(digits: string)
    requires |digits| >= 1 && forall j :: 0 <= j < |digits| ==> IsDigit(digits[j])
    ensures ParseInt(digits) == Some(DigitsValue(digits))
  {
    assert IsDigit(digits[0]);
  }

  /**
   * The display of a scored match reads back as exactly its two scores (so
   * distinct scores never display alike), and an unscored match shows "vs".
   */
  lemma ScoreDisplayRoundTrip(m: Match)
    ensures m.homeScore.Some? && m.awayScore.Some? ==>
      ParseScoreDisplay(ScoreDisplay(m)) == Some((m.homeScore.value, m.awayScore.value))
    ensures m.homeScore.None? || m.awayScore.None? ==> ScoreDisplay(m) == "vs"
  {
    if m.homeScore.Some? && m.awayScore.Some? {
      var h, a := IntToString(m.homeScore.value), IntToString(m.awayScore.value);
      var s := h + " - " + a;
      IntToStringRoundTrip(m.homeScore.value);
      IntToStringRoundTrip(m.awayScore.value);
      IndexOfSpaceAfterPrefix(h, " - " + a);
      assert s == h + (" - " + a);
      assert s[..|h|] == h;
      assert s[|h|..|h| + 3] == " - ";
      assert s[|h| + 3..] == a;
    }
  }

  lemma {:induction false} IndexOfSpaceAfterPrefix(h: string, rest: string)
    requires ' ' !in h && |rest| > 0 && rest[0] == ' '
    ensures IndexOfSpace(h + rest) == Some(|h|)
    decreases |h|
  {
    if h == [] {
      assert h + rest == rest;
    } else {
      IndexOfSpaceAfterPrefix(h[1..], rest);
      assert (h + rest)[1..] == h[1..] + rest;
    }
  }
}
