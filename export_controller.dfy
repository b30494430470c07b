/**
 * ExportController.php: the access guard of couponPdfAction, the coupon
 * tally behind userStatsPdfAction, and the two label tables of the PDFs.
 * Rendering is not part of this model.
 */
module ExportController {
  import opened Common
  import opened Users
  import opened BaseController
  import opened Coupons

  /**
   * couponPdfAction's checks: 401 without a user, 404 without the coupon,
   * 403 when the user neither owns it nor is it shared; None lets the PDF
   * be rendered.
   */
  function CouponPdfGuard(user: Option<User>, coupon: Coupon?): (r: Option<Response>)
    reads coupon
    ensures r.None? <==> user.Some? && coupon != null && (coupon.userId == user.value.id || coupon.isShared)
    ensures r.Some? ==> !Succeeded(r.value)
    ensures r.Some? && r.value.status == 401 <==> user.None?
    ensures r.Some? && r.value.status == 404 <==> user.Some? && coupon == null
    ensures r.Some? && r.value.status == 403 <==>
      user.Some? && coupon != null && coupon.userId != user.value.id && !coupon.isShared
  {
    if user.None? then Some(SendError("Not authenticated", 401, JNull))
    else if coupon == null then Some(SendError("Coupon not found", 404, JNull))
    else if coupon.userId != user.value.id && !coupon.isShared then Some(SendError("Access denied", 403, JNull))
    else None
  }

  // ---------------------------------------------------------------------------
  // Statistics tally
  // ---------------------------------------------------------------------------

  /** The fields of a coupon row the tally reads. */
  datatype CouponSummary = CouponSummary(stake: real, status: BetStatus, actualWin: real, profitLoss: real)

  datatype Stats = Stats(
    totalCoupons: nat,
    wonCoupons: nat,
    lostCoupons: nat,
    totalStake: real,
    totalWin: real,
    totalProfit: real)

  function CountWithStatus(cs: seq<CouponSummary>, s: BetStatus): nat
  {
    if cs == [] then 0
    else CountWithStatus(cs[..|cs| - 1], s) + (if cs[|cs| - 1].status == s then 1 else 0)
  }

  function SumStake(cs: seq<CouponSummary>): real
  {
    if cs == [] then 0.0 else SumStake(cs[..|cs| - 1]) + cs[|cs| - 1].stake
  }

  function SumProfit(cs: seq<CouponSummary>): real
  {
    if cs == [] then 0.0 else SumProfit(cs[..|cs| - 1]) + cs[|cs| - 1].profitLoss
  }

  /** actual_win summed over the won coupons only. */
  function SumWonWins(cs: seq<CouponSummary>): real
  {
    if cs == [] then 0.0
    else SumWonWins(cs[..|cs| - 1]) + (if cs[|cs| - 1].status == Won then cs[|cs| - 1].actualWin else 0.0)
  }

  /**
   * The tally loop of userStatsPdfAction: counts of all, won and lost
   * coupons, the stake and profit summed over all of them, and the
   * winnings summed over the won ones.
   */
  method Tally(coupons: seq<CouponSummary>) returns (stats: Stats)
    ensures stats.totalCoupons == |coupons|
    ensures stats.wonCoupons == CountWithStatus(coupons, Won)
    ensures stats.lostCoupons == CountWithStatus(coupons, Lost)
    ensures stats.totalStake == SumStake(coupons)
    ensures stats.totalWin == SumWonWins(coupons)
    ensures stats.totalProfit == SumProfit(coupons)
  {
    var totalCoupons := |coupons|;
    var wonCoupons, lostCoupons := 0, 0;
    var totalStake, totalWin, totalProfit := 0.0, 0.0, 0.0;
    var i := 0;
    while i < |coupons|
      invariant 0 <= i <= |coupons|
      invariant wonCoupons == CountWithStatus(coupons[..i], Won)
      invariant lostCoupons == CountWithStatus(coupons[..i], Lost)
      invariant totalStake == SumStake(coupons[..i])
      invariant totalWin == SumWonWins(coupons[..i])
      invariant totalProfit == SumProfit(coupons[..i])
    {
      var coupon := coupons[i];
      assert coupons[..i + 1][..i] == coupons[..i];
      totalStake := totalStake + coupon.stake;
      if coupon.status == Won {
        wonCoupons := wonCoupons + 1;
        totalWin := totalWin + coupon.actualWin;
      } else if coupon.status == Lost {
        lostCoupons := lostCoupons + 1;
      }
      totalProfit := totalProfit + coupon.profitLoss;
      i := i + 1;
    }
    assert coupons[..i] == coupons;
    stats := Stats(totalCoupons, wonCoupons, lostCoupons, totalStake, totalWin, totalProfit);
  }

  /**
   * Won and lost coupons never outnumber all coupons: pending, void and
   * partially won coupons count as neither.
   */
  lemma {:induction false} WonLostBounded(cs: seq<CouponSummary>)
    ensures CountWithStatus(cs, Won) + CountWithStatus(cs, Lost) + CountWithStatus(cs, Pending) +
            CountWithStatus(cs, Void) + CountWithStatus(cs, PartiallyWon) == |cs|
    decreases |cs|
  {
    if cs != [] {
      WonLostBounded(cs[..|cs| - 1]);
    }
  }

  /** Without a won coupon nothing has been won. */
  lemma {:induction false} NoWinsWithoutWonCoupons(cs: seq<CouponSummary>)
    requires CountWithStatus(cs, Won) == 0
    ensures SumWonWins(cs) == 0.0
    decreases |cs|
  {
    if cs != [] {
      NoWinsWithoutWonCoupons(cs[..|cs| - 1]);
    }
  }

  /** The win rate in percent before rounding; 0 with no coupons. */
  function WinRate(stats: Stats): (rate: real)
    requires stats.wonCoupons <= stats.totalCoupons
    ensures stats.totalCoupons == 0 ==> rate == 0.0
    ensures 0.0 <= rate <= 100.0
    ensures stats.totalCoupons > 0 ==> rate * stats.totalCoupons as real == 100.0 * stats.wonCoupons as real
  {
    if stats.totalCoupons > 0 then (stats.wonCoupons as real / stats.totalCoupons as real) * 100.0 else 0.0
  }

  /** The return on investment in percent before rounding; 0 without stake. */
  function Roi(stats: Stats): (roi: real)
    ensures stats.totalStake <= 0.0 ==> roi == 0.0
    ensures stats.totalStake > 0.0 ==> roi * stats.totalStake == 100.0 * stats.totalProfit
    ensures stats.totalStake > 0.0 ==> (roi >= 0.0 <==> stats.totalProfit >= 0.0)
  {
    if stats.totalStake > 0.0 then (stats.totalProfit / stats.totalStake) * 100.0 else 0.0
  }

  /** The win rate of a tally is a percentage. */
  lemma TallyWinRate(coupons: seq<CouponSummary>, stats: Stats)
    requires stats.totalCoupons == |coupons|
    requires stats.wonCoupons == CountWithStatus(coupons, Won) && stats.lostCoupons == CountWithStatus(coupons, Lost)
    ensures stats.wonCoupons + stats.lostCoupons <= stats.totalCoupons
    ensures 0.0 <= WinRate(stats) <= 100.0
  {
    WonLostBounded(coupons);
  }

  // ---------------------------------------------------------------------------
  // Labels
  // ---------------------------------------------------------------------------

  const StatusLabels: map<string, string> := map[
    "pending" := "Beklemede",
    "won" := "Kazand\U{0131}",
    "lost" := "Kaybetti",
    "void" := "\U{0130}ptal",
    "partially_won" := "K\U{0131}smen Kazand\U{0131}"
  ]

  /** getStatusText: the Turkish label of a known status; any other string as it is. */
  function GetStatusText(status: string): (text: string)
    ensures status in StatusLabels ==> text == StatusLabels[status]
    ensures status !in StatusLabels ==> text == status
  {
    if status in StatusLabels then StatusLabels[status] else status
  }

  const PeriodLabels: map<string, string> := map[
    "week" := "Son 7 G\U{00FC}n",
    "month" := "Son 30 G\U{00FC}n",
    "year" := "Son 1 Y\U{0131}l"
  ]

  /** getPeriodText: the label of week, month or year; the 30-day label otherwise. */
  function GetPeriodText(period: string): (text: string)
    ensures period in PeriodLabels ==> text == PeriodLabels[period]
    ensures period !in PeriodLabels ==> text == PeriodLabels["month"]
  {
    if period in PeriodLabels then PeriodLabels[period] else "Son 30 G\U{00FC}n"
  }

  /**
   * Every coupon status has its own label, and no label is a status name,
   * so a label never passes through unchanged.
   */
  lemma StatusLabelsDistinct(s1: BetStatus, s2: BetStatus)
    ensures s1 != s2 ==> GetStatusText(StatusName(s1)) != GetStatusText(StatusName(s2))
    ensures GetStatusText(StatusName(s1)) != StatusName(s1)
  {
  }

  /** Only week and year differ from the month label; every other period reads as month. */
  lemma PeriodLabelsDefault(period: string)
    ensures GetPeriodText(period) == GetPeriodText("month") <==> period != "week" && period != "year"
  {
  }
}
