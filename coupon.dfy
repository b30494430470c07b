/**
 * Coupon.php: a betting slip whose aggregate odds and settlement are
 * computed in place from its picks.
 *
 * getPicks() is a database query; the methods here receive its result: the
 * pick odds for the odds calculation, and for settlement one Leg per pick
 * holding its odds, its stored status and the match behind its prediction.
 */
module Coupons {
  import opened Common
  import opened Matches
  import opened CouponMath

  const TYPE_SINGLE := "single"
  const TYPE_MULTIPLE := "multiple"
  const TYPE_SYSTEM := "system"

  /** One pick as settlement reads it. */
  datatype Leg = Leg(odds: real, status: BetStatus, fixture: Match)

  /** The three fields settlement writes. */
  datatype Money = Money(status: BetStatus, actualWin: real, profitLoss: real)

  /**
   * The k that calculateSystemOdds uses: system_min_wins, where PHP's null
   * compares equal to 0 in both binomialCoefficient and combinations.
   */
  function MinWins(systemMinWins: Option<int>): int
  {
    if systemMinWins.None? then 0 else systemMinWins.value
  }

  // ---------------------------------------------------------------------------
  // Aggregate odds
  // ---------------------------------------------------------------------------

  /**
   * The total_odds calculateTotalOdds leaves behind, or None where
   * calculateSystemOdds divides by zero (a system coupon with picks and
   * k > n).
   */
  function NewTotalOdds(couponType: string, systemMinWins: Option<int>, odds: seq<real>, prior: real): Option<real>
  {
    if couponType == TYPE_SINGLE then
      Some(if |odds| > 0 then odds[0] else prior)
    else if couponType == TYPE_MULTIPLE then
      Some(Product(odds))
    else if couponType == TYPE_SYSTEM then
      var k := MinWins(systemMinWins);
      if odds == [] then Some(1.0)
      else if k > |odds| then None
      else Some(SystemAverage(odds, k))
    else
      Some(prior)
  }

  /** A multiple coupon's odds are the product of its pick odds; 1.0 with no picks. */
  lemma MultipleOddsAreProduct(k: Option<int>, odds: seq<real>, prior: real)
    ensures NewTotalOdds(TYPE_MULTIPLE, k, odds, prior) == Some(Product(odds))
    ensures NewTotalOdds(TYPE_MULTIPLE, k, [], prior) == Some(1.0)
  {
  }

  /**
   * A single coupon takes its first pick's odds and ignores the rest; with
   * no picks, and for an unknown coupon type, total_odds stays as it was.
   */
  lemma SingleOddsAreFirstPick(k: Option<int>, odds: seq<real>, prior: real, other: string)
    requires other !in {TYPE_SINGLE, TYPE_MULTIPLE, TYPE_SYSTEM}
    ensures |odds| > 0 ==> NewTotalOdds(TYPE_SINGLE, k, odds, prior) == Some(odds[0])
    ensures NewTotalOdds(TYPE_SINGLE, k, [], prior) == Some(prior)
    ensures NewTotalOdds(other, k, odds, prior) == Some(prior)
  {
  }

  /**
   * System odds: 1.0 with no picks, 1.0 with k = 0 (or null), the plain
   * product when every pick is required, the mean odds when one is, and no
   * result (division by zero) when more are required than there are picks.
   */
  lemma SystemOddsCases(odds: seq<real>, k: int, prior: real)
    ensures NewTotalOdds(TYPE_SYSTEM, Some(k), [], prior) == Some(1.0)
    ensures NewTotalOdds(TYPE_SYSTEM, None, odds, prior) == Some(1.0)
    ensures |odds| > 0 && k > |odds| ==> NewTotalOdds(TYPE_SYSTEM, Some(k), odds, prior) == None
    ensures NewTotalOdds(TYPE_SYSTEM, Some(|odds|), odds, prior) == Some(Product(odds))
    ensures |odds| > 0 ==> NewTotalOdds(TYPE_SYSTEM, Some(1), odds, prior) == Some(Sum(odds) / |odds| as real)
  {
    SystemAverageNoneRequired(odds);
    SystemAverageAllRequired(odds);
    if |odds| > 0 {
      SystemAverageOneRequired(odds);
    }
  }

  // ---------------------------------------------------------------------------
  // Settlement
  // ---------------------------------------------------------------------------

  predicate AllFinished(legs: seq<Leg>)
  {
    forall i :: 0 <= i < |legs| ==> IsFinished(legs[i].fixture)
  }

  /** How many legs carry status s. */
  function CountStatus(legs: seq<Leg>, s: BetStatus): nat
  {
    if legs == [] then 0
    else CountStatus(legs[..|legs| - 1], s) + (if legs[|legs| - 1].status == s then 1 else 0)
  }

  /** The odds of the legs that are not void, in pick order. */
  function NonVoidOdds(legs: seq<Leg>): seq<real>
  {
    if legs == [] then []
    else NonVoidOdds(legs[..|legs| - 1]) +
         (if legs[|legs| - 1].status != Void then [legs[|legs| - 1].odds] else [])
  }

  /**
   * What checkResult leaves in (status, actual_win, profit_loss). Nothing
   * changes without picks or while a pick's match is unfinished, and a
   * system coupon (or an unknown type) is never settled. The stored pick
   * statuses are read as they are, without resolving them again.
   */
  function Settle(couponType: string, stake: real, potentialWin: real, prior: Money, legs: seq<Leg>): Money
  {
    if |legs| == 0 || !AllFinished(legs) then prior
    else if couponType == TYPE_SINGLE then
      if CountStatus(legs, Won) == 1 then Money(Won, potentialWin, potentialWin - stake)
      else Money(Lost, prior.actualWin, -stake)
    else if couponType == TYPE_MULTIPLE then
      if CountStatus(legs, Lost) > 0 then Money(Lost, prior.actualWin, -stake)
      else if CountStatus(legs, Void) == |legs| then Money(Void, prior.actualWin, prior.profitLoss)
      else
        var win := stake * Product(NonVoidOdds(legs));
        Money(Won, win, win - stake)
    else prior
  }

  lemma {:induction false} CountStatusPositive(legs: seq<Leg>, s: BetStatus)
    ensures CountStatus(legs, s) > 0 <==> exists i :: 0 <= i < |legs| && legs[i].status == s
    decreases |legs|
  {
    if legs != [] {
      var init := legs[..|legs| - 1];
      CountStatusPositive(init, s);
      if exists i :: 0 <= i < |init| && init[i].status == s {
        var i :| 0 <= i < |init| && init[i].status == s;
        assert legs[i] == init[i];
      }
      if exists i :: 0 <= i < |legs| && legs[i].status == s {
        var i :| 0 <= i < |legs| && legs[i].status == s;
        if i < |init| {
          assert init[i] == legs[i];
        }
      }
    }
  }

  lemma {:induction false} CountStatusAll(legs: seq<Leg>, s: BetStatus)
    ensures CountStatus(legs, s) <= |legs|
    ensures CountStatus(legs, s) == |legs| <==> forall i :: 0 <= i < |legs| ==> legs[i].status == s
    decreases |legs|
  {
    if legs != [] {
      var init := legs[..|legs| - 1];
      CountStatusAll(init, s);
      if forall i :: 0 <= i < |legs| ==> legs[i].status == s {
        forall i | 0 <= i < |init| ensures init[i].status == s {
          assert init[i] == legs[i];
        }
      }
      if CountStatus(legs, s) == |legs| {
        forall i | 0 <= i < |legs| ensures legs[i].status == s {
          if i < |init| {
            assert init[i] == legs[i];
          }
        }
      }
    }
  }

  /** Won, lost and void legs together never outnumber the legs. */
  lemma {:induction false} CountsBounded(legs: seq<Leg>)
    ensures CountStatus(legs, Won) + CountStatus(legs, Lost) + CountStatus(legs, Void) <= |legs|
    decreases |legs|
  {
    if legs != [] {
      CountsBounded(legs[..|legs| - 1]);
    }
  }

  /** The non-void odds are exactly the odds of the legs that are not void. */
  lemma {:induction false} NonVoidOddsMembers(legs: seq<Leg>)
    ensures |NonVoidOdds(legs)| == |legs| - CountStatus(legs, Void)
    ensures forall i :: 0 <= i < |legs| && legs[i].status != Void ==> legs[i].odds in NonVoidOdds(legs)
    decreases |legs|
  {
    if legs != [] {
      var init := legs[..|legs| - 1];
      NonVoidOddsMembers(init);
      forall i | 0 <= i < |legs| && legs[i].status != Void
        ensures legs[i].odds in NonVoidOdds(legs)
      {
        if i < |init| {
          assert init[i] == legs[i];
          assert legs[i].odds in NonVoidOdds(init);
        }
      }
    }
  }

  /** No picks, or a pick whose match is unfinished: settlement is deferred. */
  lemma SettleDeferred(t: string, stake: real, pw: real, prior: Money, legs: seq<Leg>)
    requires |legs| == 0 || exists i :: 0 <= i < |legs| && !IsFinished(legs[i].fixture)
    ensures Settle(t, stake, pw, prior, legs) == prior
  {
  }

  /**
   * A single coupon is won exactly when exactly one pick is won, paying
   * potential_win; otherwise (a void pick included) it is lost for the stake
   * and actual_win is left as it was.
   */
  lemma SettleSingle(stake: real, pw: real, prior: Money, legs: seq<Leg>)
    requires |legs| > 0 && AllFinished(legs)
    ensures var r := Settle(TYPE_SINGLE, stake, pw, prior, legs);
      (r.status == Won <==> CountStatus(legs, Won) == 1) &&
      (r.status == Won ==> r.actualWin == pw && r.profitLoss == pw - stake) &&
      (r.status != Won ==> r == Money(Lost, prior.actualWin, -stake))
  {
  }

  /** A multiple coupon with any lost pick is lost for the whole stake. */
  lemma SettleMultipleLost(stake: real, pw: real, prior: Money, legs: seq<Leg>, i: nat)
    requires AllFinished(legs) && i < |legs| && legs[i].status == Lost
    ensures Settle(TYPE_MULTIPLE, stake, pw, prior, legs) == Money(Lost, prior.actualWin, -stake)
  {
    CountStatusPositive(legs, Lost);
  }

  /** A multiple coupon whose picks are all void is void; the money fields stay. */
  lemma SettleMultipleAllVoid(stake: real, pw: real, prior: Money, legs: seq<Leg>)
    requires |legs| > 0 && AllFinished(legs)
    requires forall i :: 0 <= i < |legs| ==> legs[i].status == Void
    ensures Settle(TYPE_MULTIPLE, stake, pw, prior, legs) == Money(Void, prior.actualWin, prior.profitLoss)
  {
    CountStatusAll(legs, Void);
    CountStatusPositive(legs, Lost);
  }

  /**
   * Otherwise a multiple coupon is won and pays the stake times the product
   * of the odds of its non-void picks; pending picks are paid like won ones.
   */
  lemma {:induction false} SettleMultipleWon(stake: real, pw: real, prior: Money, legs: seq<Leg>)
    requires AllFinished(legs)
    requires forall i :: 0 <= i < |legs| ==> legs[i].status != Lost
    requires exists i :: 0 <= i < |legs| && legs[i].status != Void
    ensures var r := Settle(TYPE_MULTIPLE, stake, pw, prior, legs);
      r.status == Won && r.actualWin == stake * Product(NonVoidOdds(legs)) &&
      r.profitLoss == r.actualWin - stake
  {
    var j :| 0 <= j < |legs| && legs[j].status != Void;
    CountStatusPositive(legs, Lost);
    assert CountStatus(legs, Lost) == 0;
    CountStatusAll(legs, Void);
    assert CountStatus(legs, Void) != |legs|;
  }

  /** A system coupon's status and money fields are never changed. */
  lemma SettleSystemUntouched(stake: real, pw: real, prior: Money, legs: seq<Leg>)
    ensures Settle(TYPE_SYSTEM, stake, pw, prior, legs) == prior
  {
  }

  /**
   * Settling twice gives the state settling once gives: settlement never
   * reads the fields it writes except to keep them.
   */
  lemma SettleIdempotent(t: string, stake: real, pw: real, prior: Money, legs: seq<Leg>)
    ensures var once := Settle(t, stake, pw, prior, legs);
      Settle(t, stake, pw, once, legs) == once
  {
  }

  /**
   * Once a single or multiple coupon with all matches finished is settled,
   * its books balance: a win earns actual_win minus the stake, a loss costs
   * the stake, and a void coupon keeps its earlier figures.
   */
  lemma SettledAccounting(t: string, stake: real, pw: real, prior: Money, legs: seq<Leg>)
    requires t == TYPE_SINGLE || t == TYPE_MULTIPLE
    requires |legs| > 0 && AllFinished(legs)
    ensures var r := Settle(t, stake, pw, prior, legs);
      (r.status == Won && r.profitLoss == r.actualWin - stake) ||
      (r.status == Lost && r.profitLoss == -stake && r.actualWin == prior.actualWin) ||
      (r.status == Void && t == TYPE_MULTIPLE && r.actualWin == prior.actualWin && r.profitLoss == prior.profitLoss)
  {
  }

  /** [won, void, won] as a multiple: won, paying the stake times the two won odds. */
  lemma VoidLegDropsOut(stake: real, pw: real, prior: Money, o1: real, o2: real, o3: real, m: Match)
    requires IsFinished(m)
    ensures Settle(TYPE_MULTIPLE, stake, pw, prior, [Leg(o1, Won, m), Leg(o2, Void, m), Leg(o3, Won, m)])
         == Money(Won, stake * (o1 * o3), stake * (o1 * o3) - stake)
  {
    var legs := [Leg(o1, Won, m), Leg(o2, Void, m), Leg(o3, Won, m)];
    assert legs[..2] == [Leg(o1, Won, m), Leg(o2, Void, m)];
    assert legs[..2][..1] == [Leg(o1, Won, m)];
    assert legs[..2][..1][..0] == [];
    assert NonVoidOdds(legs[..2][..1]) == [o1];
    assert NonVoidOdds(legs[..2]) == [o1];
    assert NonVoidOdds(legs) == [o1] + [o3];
    ProductSnoc([], o1);
    ProductSnoc([o1], o3);
    assert [] + [o1] == [o1];
    assert legs[0].status != Void;
    SettleMultipleWon(stake, pw, prior, legs);
  }

  class Coupon {
    var userId: int
    var name: Option<string>
    var couponType: string
    var systemMinWins: Option<int>
    var systemTotalPicks: Option<int>
    var stake: real
    var totalOdds: real
    var potentialWin: real
    var status: BetStatus
    var actualWin: real
    var profitLoss: real
    var isShared: bool

    /** A new coupon row: a pending multiple with odds 1.00 and no money yet. */
    constructor (userId: int)
      ensures this.userId == userId && name == None
      ensures couponType == TYPE_MULTIPLE && systemMinWins == None && systemTotalPicks == None
      ensures stake == 0.0 && totalOdds == 1.0 && potentialWin == 0.0
      ensures status == Pending && actualWin == 0.0 && profitLoss == 0.0 && !isShared
    {
      this.userId := userId;
      name := None;
      couponType := TYPE_MULTIPLE;
      systemMinWins := None;
      systemTotalPicks := None;
      stake := 0.0;
      totalOdds := 1.0;
      potentialWin := 0.0;
      status := Pending;
      actualWin := 0.0;
      profitLoss := 0.0;
      isShared := false;
    }

    function Books(): Money
      reads this
    {
      Money(status, actualWin, profitLoss)
    }

    /**
     * calculateTotalOdds: sets total_odds by coupon type and then
     * potential_win = stake * total_odds. On None (the division by zero of a
     * system coupon asking for more wins than it has picks) it has changed
     * nothing.
     */
    method CalculateTotalOdds(odds: seq<real>) returns (result: Option<real>)
      modifies this`totalOdds, this`potentialWin
      ensures result == NewTotalOdds(couponType, systemMinWins, odds, old(totalOdds))
      ensures result.Some? ==> totalOdds == result.value && potentialWin == stake * totalOdds
      ensures result.None? ==> totalOdds == old(totalOdds) && potentialWin == old(potentialWin)
    {
      if couponType == TYPE_SINGLE {
        if |odds| > 0 {
          totalOdds := odds[0];
        }
      } else if couponType == TYPE_MULTIPLE {
        totalOdds := MultiplyOdds(odds);
      } else if couponType == TYPE_SYSTEM {
        var systemOdds := SystemOdds(odds, MinWins(systemMinWins));
        if systemOdds.None? {
          return None;
        }
        totalOdds := systemOdds.value;
      }
      potentialWin := stake * totalOdds;
      return Some(totalOdds);
    }

    /**
     * checkResult: once every pick's match is finished, tallies the stored
     * pick statuses and settles a single or multiple coupon in place.
     */
    method CheckResult(legs: seq<Leg>)
      modifies this`status, this`actualWin, this`profitLoss
      ensures Books() == Settle(couponType, stake, potentialWin, old(Books()), legs)
    {
      if |legs| == 0 {
        return;
      }
      var allFinished := AllMatchesFinished(legs);
      if !allFinished {
        return;
      }
      var wonPicks, lostPicks, voidPicks := TallyStatuses(legs);
      var totalPicks := |legs|;

      if couponType == TYPE_SINGLE {
        SettleSingleCoupon(wonPicks);
      } else if couponType == TYPE_MULTIPLE {
        SettleMultipleCoupon(legs, lostPicks > 0, voidPicks == totalPicks);
      }
    }

    /** The single-coupon branch of checkResult, given the won count. */
    method SettleSingleCoupon(wonPicks: nat)
      modifies this`status, this`actualWin, this`profitLoss
      ensures wonPicks == 1 ==> Books() == Money(Won, potentialWin, potentialWin - stake)
      ensures wonPicks != 1 ==> Books() == Money(Lost, old(actualWin), -stake)
    {
      if wonPicks == 1 {
        status := Won;
        actualWin := potentialWin;
        profitLoss := actualWin - stake;
      } else {
        status := Lost;
        profitLoss := -stake;
      }
    }

    /** The multiple-coupon branch of checkResult, given whether a pick lost and whether all are void. */
    method SettleMultipleCoupon(legs: seq<Leg>, anyLost: bool, allVoid: bool)
      modifies this`status, this`actualWin, this`profitLoss
      ensures anyLost ==> Books() == Money(Lost, old(actualWin), -stake)
      ensures !anyLost && allVoid ==> Books() == old(Books()).(status := Void)
      ensures !anyLost && !allVoid ==>
        Books() == Money(Won, stake * Product(NonVoidOdds(legs)), stake * Product(NonVoidOdds(legs)) - stake)
    {
      if anyLost {
        status := Lost;
        profitLoss := -stake;
      } else if allVoid {
        status := Void;
      } else {
        status := Won;
        var validOdds := NonVoidProduct(legs);
        actualWin := stake * validOdds;
        profitLoss := actualWin - stake;
      }
    }
  }

  /** The running product 1.00 * o1 * o2 * ... of calculateTotalOdds' multiple branch. */
  method MultiplyOdds(odds: seq<real>) returns (product: real)
    ensures product == Product(odds)
  {
    product := 1.0;
    var i := 0;
    while i < |odds|
      invariant 0 <= i <= |odds|
      invariant product == Product(odds[..i])
    {
      assert odds[..i + 1][..i] == odds[..i];
      product := product * odds[i];
      i := i + 1;
    }
    assert odds[..i] == odds;
  }

  /** The scan over the picks' matches that stops at the first unfinished one. */
  method AllMatchesFinished(legs: seq<Leg>) returns (allFinished: bool)
    ensures allFinished <==> AllFinished(legs)
  {
    allFinished := true;
    var i := 0;
    while i < |legs|
      invariant 0 <= i <= |legs|
      invariant allFinished && AllFinished(legs[..i])
    {
      if !IsFinished(legs[i].fixture) {
        allFinished := false;
        break;
      }
      assert legs[..i + 1][..i] == legs[..i];
      i := i + 1;
    }
    if allFinished {
      assert legs[..i] == legs;
    }
  }

  /** The won, lost and void counts of the picks' stored statuses. */
  method TallyStatuses(legs: seq<Leg>) returns (wonPicks: nat, lostPicks: nat, voidPicks: nat)
    ensures wonPicks == CountStatus(legs, Won)
    ensures lostPicks == CountStatus(legs, Lost)
    ensures voidPicks == CountStatus(legs, Void)
    ensures wonPicks + lostPicks + voidPicks <= |legs|
  {
    wonPicks, lostPicks, voidPicks := 0, 0, 0;
    var i := 0;
    while i < |legs|
      invariant 0 <= i <= |legs|
      invariant wonPicks == CountStatus(legs[..i], Won)
      invariant lostPicks == CountStatus(legs[..i], Lost)
      invariant voidPicks == CountStatus(legs[..i], Void)
    {
      assert legs[..i + 1][..i] == legs[..i];
      if legs[i].status == Won { wonPicks := wonPicks + 1; }
      if legs[i].status == Lost { lostPicks := lostPicks + 1; }
      if legs[i].status == Void { voidPicks := voidPicks + 1; }
      i := i + 1;
    }
    assert legs[..i] == legs;
    CountsBounded(legs);
  }

  /** The product of the odds of the picks that are not void, left to right. */
  method NonVoidProduct(legs: seq<Leg>) returns (validOdds: real)
    ensures validOdds == Product(NonVoidOdds(legs))
  {
    validOdds := 1.0;
    var i := 0;
    while i < |legs|
      invariant 0 <= i <= |legs|
      invariant validOdds == Product(NonVoidOdds(legs[..i]))
    {
      assert legs[..i + 1][..i] == legs[..i];
      if legs[i].status != Void {
        assert NonVoidOdds(legs[..i + 1]) == NonVoidOdds(legs[..i]) + [legs[i].odds];
        ProductSnoc(NonVoidOdds(legs[..i]), legs[i].odds);
        validOdds := validOdds * legs[i].odds;
      } else {
        assert NonVoidOdds(legs[..i + 1]) == NonVoidOdds(legs[..i]);
      }
      i := i + 1;
    }
    assert legs[..i] == legs;
  }

  /**
   * The worked example: stake 10 on a multiple of odds 2.0, 1.5 and 3.0 has
   * total odds 9 and potential win 90; if all three legs win it pays 90 for
   * a profit of 80.
   */
  lemma WorkedExample(prior: Money, m: Match)
    requires IsFinished(m)
    ensures NewTotalOdds(TYPE_MULTIPLE, None, [2.0, 1.5, 3.0], 1.0) == Some(9.0)
    ensures Settle(TYPE_MULTIPLE, 10.0, 90.0, prior, [Leg(2.0, Won, m), Leg(1.5, Won, m), Leg(3.0, Won, m)])
         == Money(Won, 90.0, 80.0)
  {
    var odds := [2.0, 1.5, 3.0];
    ProductSnoc([], 2.0);
    assert [] + [2.0] == [2.0];
    ProductSnoc([2.0], 1.5);
    assert [2.0] + [1.5] == [2.0, 1.5];
    ProductSnoc([2.0, 1.5], 3.0);
    assert [2.0, 1.5] + [3.0] == odds;
    assert Product(odds) == 9.0;
    var legs := [Leg(2.0, Won, m), Leg(1.5, Won, m), Leg(3.0, Won, m)];
    assert legs[..2] == [Leg(2.0, Won, m), Leg(1.5, Won, m)];
    assert legs[..2][..1] == [Leg(2.0, Won, m)];
    assert legs[..2][..1][..0] == [];
    assert NonVoidOdds(legs[..2][..1]) == [2.0];
    assert NonVoidOdds(legs[..2]) == [2.0, 1.5];
    assert NonVoidOdds(legs) == odds;
    SettleMultipleWon(10.0, 90.0, prior, legs);
  }
}
