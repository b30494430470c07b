/**
 * CouponController.php: the validation and pick filtering of createAction,
 * and the guard order of updateAction and deleteAction.
 *
 * The request body arrives already decoded into typed fields; a field that
 * is absent or null is None. Prediction::findFirst and Coupon::findFirst
 * are a lookup function and a nullable coupon passed in, and whether the
 * coupon row saves is a parameter. Pick rows always save.
 */
module CouponController {
  import opened Common
  import opened Users
  import opened BaseController
  import opened CouponMath
  import opened Coupons

  /** One element of the request's picks list. */
  datatype PickRequest = PickRequest(predictionId: Option<int>, odds: Option<real>, isBanker: Option<bool>)

  /** The request's picks field: absent, something that is not a list, or a list. */
  datatype PicksField = Absent | Scalar(truthy: bool) | PickList(items: seq<PickRequest>)

  datatype CreateRequest = CreateRequest(
    couponType: Option<string>,
    picks: PicksField,
    name: Option<string>,
    stake: Option<real>,
    systemMinWins: Option<int>,
    systemTotalPicks: Option<int>)

  /** What findFirst on a prediction id yields: its id and premium flag. */
  datatype PredictionRow = PredictionRow(id: int, isPremium: bool)

  /** A coupon_picks row as createAction inserts it. */
  datatype NewPick = NewPick(predictionId: int, odds: real, isBanker: bool)

  /** PHP's empty() on an optional integer, real or string field. */
  predicate EmptyInt(v: Option<int>) { v.None? || v.value == 0 }
  predicate EmptyReal(v: Option<real>) { v.None? || v.value == 0.0 }
  predicate EmptyString(v: Option<string>) { v.None? || FalsyString(v.value) }

  predicate PicksEmpty(f: PicksField)
  {
    f.Absent? || (f.Scalar? && !f.truthy) || (f.PickList? && |f.items| == 0)
  }

  /**
   * The checks before anything is saved: 401 without a user, then 400 for an
   * empty coupon type or empty picks, then 400 for picks that are no list.
   */
  function CreateCheck(user: Option<User>, req: CreateRequest): (r: Option<Response>)
    ensures r.None? <==> user.Some? && !EmptyString(req.couponType) && req.picks.PickList? && |req.picks.items| > 0
    ensures user.None? ==> r == Some(SendError("Not authenticated", 401, JNull))
    ensures user.Some? && r.Some? ==> r.value.status == 400 && !Succeeded(r.value)
  {
    if user.None? then Some(SendError("Not authenticated", 401, JNull))
    else if EmptyString(req.couponType) || PicksEmpty(req.picks) then
      Some(SendError("Coupon type and picks are required", 400, JNull))
    else if !req.picks.PickList? || |req.picks.items| == 0 then
      Some(SendError("At least one pick is required", 400, JNull))
    else None
  }

  /**
   * One requested pick: skipped when its prediction id or odds is empty
   * (odds 0 included), when the prediction does not exist, or when it is
   * premium and the user is not; otherwise a row on the found prediction.
   */
  function Accept(p: PickRequest, find: int -> Option<PredictionRow>, premiumUser: bool): Option<NewPick>
  {
    if EmptyInt(p.predictionId) || EmptyReal(p.odds) then None
    else match find(p.predictionId.value)
      case None => None
      case Some(row) =>
        if row.isPremium && !premiumUser then None
        else Some(NewPick(row.id, p.odds.value, if p.isBanker.Some? then p.isBanker.value else false))
  }

  /** The picks createAction inserts, in request order. */
  function AcceptedPicks(reqs: seq<PickRequest>, find: int -> Option<PredictionRow>, premiumUser: bool): seq<NewPick>
  {
    if reqs == [] then []
    else
      var last := Accept(reqs[|reqs| - 1], find, premiumUser);
      AcceptedPicks(reqs[..|reqs| - 1], find, premiumUser) + (if last.Some? then [last.value] else [])
  }

  /** The pick loop of createAction, with its continue-based skipping. */
  method SelectPicks(reqs: seq<PickRequest>, find: int -> Option<PredictionRow>, premiumUser: bool)
    returns (picks: seq<NewPick>)
    ensures picks == AcceptedPicks(reqs, find, premiumUser)
  {
    picks := [];
    var i := 0;
    while i < |reqs|
      invariant 0 <= i <= |reqs|
      invariant picks == AcceptedPicks(reqs[..i], find, premiumUser)
    {
      var pickData := reqs[i];
      assert reqs[..i + 1][..i] == reqs[..i];
      i := i + 1;
      if EmptyInt(pickData.predictionId) || EmptyReal(pickData.odds) {
        continue;
      }
      var prediction := find(pickData.predictionId.value);
      if prediction.None? {
        continue;
      }
      if prediction.value.isPremium && !premiumUser {
        continue;
      }
      var isBanker := if pickData.isBanker.Some? then pickData.isBanker.value else false;
      picks := picks + [NewPick(prediction.value.id, pickData.odds.value, isBanker)];
    }
    assert reqs[..i] == reqs;
  }

  /** Filtering works request by request: the picks of a concatenation concatenate. */
  lemma {:induction false} AcceptedPicksAppend(a: seq<PickRequest>, b: seq<PickRequest>, find: int -> Option<PredictionRow>, premiumUser: bool)
    ensures AcceptedPicks(a + b, find, premiumUser) == AcceptedPicks(a, find, premiumUser) + AcceptedPicks(b, find, premiumUser)
    decreases |b|
  {
    if b == [] {
      assert a + b == a;
    } else {
      var b' := b[..|b| - 1];
      AcceptedPicksAppend(a, b', find, premiumUser);
      assert (a + b)[..|a + b| - 1] == a + b';
      assert (a + b)[|a + b| - 1] == b[|b| - 1];
    }
  }

  /**
   * Every inserted pick comes from some request with a non-empty prediction
   * id and non-zero odds whose prediction exists, carries that request's
   * odds, and is on a non-premium prediction unless the user is premium.
   */
  lemma {:induction false} AcceptedPicksSound(reqs: seq<PickRequest>, find: int -> Option<PredictionRow>, premiumUser: bool)
    ensures |AcceptedPicks(reqs, find, premiumUser)| <= |reqs|
    ensures forall p :: p in AcceptedPicks(reqs, find, premiumUser) ==>
      exists i :: 0 <= i < |reqs| && Accept(reqs[i], find, premiumUser) == Some(p)
    ensures forall i :: 0 <= i < |reqs| && Accept(reqs[i], find, premiumUser).Some? ==>
      Accept(reqs[i], find, premiumUser).value in AcceptedPicks(reqs, find, premiumUser)
    decreases |reqs|
  {
    if reqs != [] {
      var init := reqs[..|reqs| - 1];
      AcceptedPicksSound(init, find, premiumUser);
      forall p | p in AcceptedPicks(reqs, find, premiumUser)
        ensures exists i :: 0 <= i < |reqs| && Accept(reqs[i], find, premiumUser) == Some(p)
      {
        if p in AcceptedPicks(init, find, premiumUser) {
          var i :| 0 <= i < |init| && Accept(init[i], find, premiumUser) == Some(p);
          assert reqs[i] == init[i];
        } else {
          assert Accept(reqs[|reqs| - 1], find, premiumUser) == Some(p);
        }
      }
      forall i | 0 <= i < |reqs| && Accept(reqs[i], find, premiumUser).Some?
        ensures Accept(reqs[i], find, premiumUser).value in AcceptedPicks(reqs, find, premiumUser)
      {
        if i < |init| {
          assert reqs[i] == init[i];
        }
      }
    }
  }

  /** What one accepted request says: the conditions of the skip rules all passed. */
  lemma AcceptMeans(p: PickRequest, find: int -> Option<PredictionRow>, premiumUser: bool)
    ensures Accept(p, find, premiumUser).Some? <==>
      p.predictionId.Some? && p.predictionId.value != 0 &&
      p.odds.Some? && p.odds.value != 0.0 &&
      find(p.predictionId.value).Some? &&
      (premiumUser || !find(p.predictionId.value).value.isPremium)
    ensures Accept(p, find, premiumUser).Some? ==>
      var pick := Accept(p, find, premiumUser).value;
      pick.predictionId == find(p.predictionId.value).value.id && pick.odds == p.odds.value &&
      (pick.isBanker <==> p.isBanker == Some(true))
  {
  }

  /** A user who is not premium never gets a pick on a premium prediction. */
  lemma NoPremiumPicksForFreeUsers(reqs: seq<PickRequest>, find: int -> Option<PredictionRow>, pick: NewPick)
    requires pick in AcceptedPicks(reqs, find, false)
    ensures exists i :: (0 <= i < |reqs| && reqs[i].predictionId.Some? &&
      find(reqs[i].predictionId.value) == Some(PredictionRow(pick.predictionId, false)))
  {
    AcceptedPicksSound(reqs, find, false);
    var i :| 0 <= i < |reqs| && Accept(reqs[i], find, false) == Some(pick);
    AcceptMeans(reqs[i], find, false);
  }

  /** Zero odds never make it into a coupon. */
  lemma NoZeroOdds(reqs: seq<PickRequest>, find: int -> Option<PredictionRow>, premiumUser: bool, pick: NewPick)
    requires pick in AcceptedPicks(reqs, find, premiumUser)
    ensures pick.odds != 0.0
  {
    AcceptedPicksSound(reqs, find, premiumUser);
    var i :| 0 <= i < |reqs| && Accept(reqs[i], find, premiumUser) == Some(pick);
  }

  function OddsOf(picks: seq<NewPick>): (odds: seq<real>)
    ensures |odds| == |picks| && forall i :: 0 <= i < |picks| ==> odds[i] == picks[i].odds
  {
    if picks == [] then [] else [picks[0].odds] + OddsOf(picks[1..])
  }

  /** The coupon as toArray renders it, for the fields this model keeps. */
  function CouponJson(c: Coupon): Json
    reads c
  {
    JObject([
      ("user_id", JInt(c.userId)),
      ("name", if c.name.Some? then JStr(c.name.value) else JNull),
      ("coupon_type", JStr(c.couponType)),
      ("system_min_wins", if c.systemMinWins.Some? then JInt(c.systemMinWins.value) else JNull),
      ("system_total_picks", if c.systemTotalPicks.Some? then JInt(c.systemTotalPicks.value) else JNull),
      ("stake", JReal(c.stake)),
      ("total_odds", JReal(c.totalOdds)),
      ("potential_win", JReal(c.potentialWin)),
      ("status", JStr(StatusName(c.status))),
      ("actual_win", JReal(c.actualWin)),
      ("profit_loss", JReal(c.profitLoss)),
      ("is_shared", JBool(c.isShared))
    ])
  }

  /** The 201 answer carrying the saved coupon. */
  function CreatedResponse(c: Coupon): Response
    reads c
  {
    SendSuccess(JObject([("coupon", CouponJson(c))]), "Coupon created successfully", 201)
  }

  /** The coupon createAction fills in from the request before saving it. */
  method NewCoupon(userId: int, req: CreateRequest) returns (coupon: Coupon)
    requires req.couponType.Some?
    ensures fresh(coupon)
    ensures coupon.userId == userId && coupon.name == req.name && coupon.couponType == req.couponType.value
    ensures coupon.stake == (if req.stake.Some? then req.stake.value else 0.0)
    ensures coupon.systemMinWins == req.systemMinWins && coupon.systemTotalPicks == req.systemTotalPicks
    ensures coupon.status == Pending && coupon.actualWin == 0.0 && coupon.profitLoss == 0.0
    ensures coupon.totalOdds == 1.0 && coupon.potentialWin == 0.0 && !coupon.isShared
  {
    coupon := new Coupon(userId);
    coupon.name := req.name;
    coupon.couponType := req.couponType.value;
    coupon.stake := if req.stake.Some? then req.stake.value else 0.0;
    coupon.systemMinWins := req.systemMinWins;
    coupon.systemTotalPicks := req.systemTotalPicks;
  }

  /**
   * createAction. resp is None where calculateTotalOdds raises PHP's
   * DivisionByZeroError, which no handler turns into a response; the coupon
   * and its picks are saved by then.
   */
  method Create(user: Option<User>, req: CreateRequest, now: int, find: int -> Option<PredictionRow>, saveOk: bool)
    returns (resp: Option<Response>, coupon: Coupon?, picks: seq<NewPick>)
    ensures CreateCheck(user, req).Some? ==> resp == CreateCheck(user, req) && coupon == null && picks == []
    ensures CreateCheck(user, req).None? && !saveOk ==>
      resp == Some(SendError("Failed to create coupon", 400, JNull)) && coupon == null && picks == []
    ensures CreateCheck(user, req).None? && saveOk ==>
      coupon != null && fresh(coupon) &&
      coupon.userId == user.value.id && coupon.name == req.name &&
      coupon.couponType == req.couponType.value &&
      coupon.stake == (if req.stake.Some? then req.stake.value else 0.0) &&
      coupon.systemMinWins == req.systemMinWins && coupon.systemTotalPicks == req.systemTotalPicks &&
      coupon.status == Pending && coupon.actualWin == 0.0 && coupon.profitLoss == 0.0 &&
      picks == AcceptedPicks(req.picks.items, find, IsPremiumUser(user.value, now))
    ensures CreateCheck(user, req).None? && saveOk ==>
      var total := NewTotalOdds(coupon.couponType, coupon.systemMinWins, OddsOf(picks), 1.0);
      (total.None? ==> resp.None? && coupon.totalOdds == 1.0 && coupon.potentialWin == 0.0) &&
      (total.Some? ==> coupon.totalOdds == total.value && coupon.potentialWin == coupon.stake * total.value &&
                       resp == Some(CreatedResponse(coupon)))
  {
    var check := CreateCheck(user, req);
    if check.Some? {
      return check, null, [];
    }
    coupon := NewCoupon(user.value.id, req);
    if !saveOk {
      return Some(SendError("Failed to create coupon", 400, JNull)), null, [];
    }
    resp, picks := AddPicks(coupon, req.picks.items, find, IsPremiumUser(user.value, now));
  }

  /**
   * The second half of createAction, on the saved coupon: inserts the
   * accepted picks and computes the total odds.
   */
  method AddPicks(coupon: Coupon, reqs: seq<PickRequest>, find: int -> Option<PredictionRow>, premiumUser: bool)
    returns (resp: Option<Response>, picks: seq<NewPick>)
    modifies coupon`totalOdds, coupon`potentialWin
    ensures picks == AcceptedPicks(reqs, find, premiumUser)
    ensures var total := NewTotalOdds(coupon.couponType, coupon.systemMinWins, OddsOf(picks), old(coupon.totalOdds));
      (total.None? ==> resp.None? && coupon.totalOdds == old(coupon.totalOdds) && coupon.potentialWin == old(coupon.potentialWin)) &&
      (total.Some? ==> coupon.totalOdds == total.value && coupon.potentialWin == coupon.stake * total.value &&
                       resp == Some(CreatedResponse(coupon)))
  {
    picks := SelectPicks(reqs, find, premiumUser);
    var total := coupon.CalculateTotalOdds(OddsOf(picks));
    if total.None? {
      return None, picks;
    }
    resp := Some(CreatedResponse(coupon));
  }

  /** No pick is inserted exactly when every requested pick is skipped. */
  lemma {:induction false} AcceptedPicksEmpty(reqs: seq<PickRequest>, find: int -> Option<PredictionRow>, premiumUser: bool)
    ensures AcceptedPicks(reqs, find, premiumUser) == [] <==>
      forall i :: 0 <= i < |reqs| ==> Accept(reqs[i], find, premiumUser).None?
    decreases |reqs|
  {
    if reqs != [] {
      var init := reqs[..|reqs| - 1];
      AcceptedPicksEmpty(init, find, premiumUser);
      if forall i :: 0 <= i < |reqs| ==> Accept(reqs[i], find, premiumUser).None? {
        forall i | 0 <= i < |init| ensures Accept(init[i], find, premiumUser).None? {
          assert init[i] == reqs[i];
        }
      }
      if AcceptedPicks(reqs, find, premiumUser) == [] {
        forall i | 0 <= i < |reqs| ensures Accept(reqs[i], find, premiumUser).None? {
          if i < |init| {
            assert init[i] == reqs[i];
          }
        }
      }
    }
  }

  /**
   * A valid request whose every pick names a missing prediction, or has an
   * empty id or zero odds, inserts no pick, yet the coupon is still created
   * and its odds computed (1.0 for every coupon type that sets them).
   */
  lemma CreatedWithoutPicks(user: User, req: CreateRequest, now: int, find: int -> Option<PredictionRow>)
    requires CreateCheck(Some(user), req).None?
    requires forall i :: 0 <= i < |req.picks.items| ==>
      var p := req.picks.items[i];
      EmptyInt(p.predictionId) || EmptyReal(p.odds) || find(p.predictionId.value).None?
    ensures AcceptedPicks(req.picks.items, find, IsPremiumUser(user, now)) == []
    ensures NewTotalOdds(req.couponType.value, req.systemMinWins, [], 1.0) == Some(1.0)
  {
    AcceptedPicksEmpty(req.picks.items, find, IsPremiumUser(user, now));
  }

  // ---------------------------------------------------------------------------
  // Update and delete
  // ---------------------------------------------------------------------------

  datatype Denial = Denial(code: int, message: string)

  /**
   * The checks updateAction and deleteAction share, first failure deciding:
   * 401 without a user, 404 without the coupon, 403 when it is someone
   * else's, 400 once it is no longer pending. verb names the action in the
   * last message.
   */
  function Guard(user: Option<User>, coupon: Coupon?, verb: string): (d: Option<Denial>)
    reads coupon
    ensures d.None? <==> user.Some? && coupon != null && coupon.userId == user.value.id && coupon.status == Pending
    ensures d.Some? && d.value.code == 401 <==> user.None?
    ensures d.Some? && d.value.code == 404 <==> user.Some? && coupon == null
    ensures d.Some? && d.value.code == 403 <==> user.Some? && coupon != null && coupon.userId != user.value.id
    ensures d.Some? && d.value.code == 400 <==>
      user.Some? && coupon != null && coupon.userId == user.value.id && coupon.status != Pending
  {
    if user.None? then Some(Denial(401, "Not authenticated"))
    else if coupon == null then Some(Denial(404, "Coupon not found"))
    else if coupon.userId != user.value.id then Some(Denial(403, "Access denied"))
    else if coupon.status != Pending then Some(Denial(400, "Cannot " + verb + " completed coupon"))
    else None
  }

  /**
   * updateAction: after the guard, a given name and a given stake are
   * written; a new stake recomputes the odds from the coupon's picks. None
   * is the uncaught division by zero of a system coupon.
   */
  method Update(user: Option<User>, coupon: Coupon?, name: Option<string>, stake: Option<real>, odds: seq<real>)
    returns (resp: Option<Response>)
    modifies coupon
    ensures old(Guard(user, coupon, "update")).Some? ==>
      var d := old(Guard(user, coupon, "update")).value;
      resp == Some(SendError(d.message, d.code, JNull)) && (coupon != null ==> unchanged(coupon))
    ensures old(Guard(user, coupon, "update")).None? ==>
      coupon.name == (if name.Some? then name else old(coupon.name)) &&
      coupon.stake == (if stake.Some? then stake.value else old(coupon.stake)) &&
      coupon.couponType == old(coupon.couponType) && coupon.systemMinWins == old(coupon.systemMinWins) &&
      coupon.userId == old(coupon.userId) && coupon.status == old(coupon.status) &&
      coupon.actualWin == old(coupon.actualWin) && coupon.profitLoss == old(coupon.profitLoss) &&
      coupon.systemTotalPicks == old(coupon.systemTotalPicks) && coupon.isShared == old(coupon.isShared)
    ensures old(Guard(user, coupon, "update")).None? && stake.None? ==>
      coupon.totalOdds == old(coupon.totalOdds) && coupon.potentialWin == old(coupon.potentialWin) &&
      resp == Some(SendSuccess(JObject([("coupon", CouponJson(coupon))]), "Coupon updated successfully", 200))
    ensures old(Guard(user, coupon, "update")).None? && stake.Some? ==>
      var total := NewTotalOdds(coupon.couponType, coupon.systemMinWins, odds, old(coupon.totalOdds));
      (total.None? ==> resp.None? && coupon.totalOdds == old(coupon.totalOdds) && coupon.potentialWin == old(coupon.potentialWin)) &&
      (total.Some? ==> coupon.totalOdds == total.value && coupon.potentialWin == stake.value * total.value &&
                       resp == Some(SendSuccess(JObject([("coupon", CouponJson(coupon))]), "Coupon updated successfully", 200)))
  {
    var denial := Guard(user, coupon, "update");
    if denial.Some? {
      return Some(SendError(denial.value.message, denial.value.code, JNull));
    }
    if name.Some? {
      coupon.name := name;
    }
    if stake.Some? {
      coupon.stake := stake.value;
      var total := coupon.CalculateTotalOdds(odds);
      if total.None? {
        return None;
      }
    }
    resp := Some(SendSuccess(JObject([("coupon", CouponJson(coupon))]), "Coupon updated successfully", 200));
  }

  /** deleteAction: the guard, then the row is deleted; deleted says whether it was. */
  function Delete(user: Option<User>, coupon: Coupon?): (r: (Response, bool))
    reads coupon
    ensures r.1 <==> Guard(user, coupon, "delete").None?
    ensures r.1 ==> r.0 == SendSuccess(JNull, "Coupon deleted successfully", 200)
    ensures !r.1 ==> !Succeeded(r.0) && r.0.status == Guard(user, coupon, "delete").value.code
  {
    match Guard(user, coupon, "delete")
    case Some(d) => (SendError(d.message, d.code, JNull), false)
    case None => (SendSuccess(JNull, "Coupon deleted successfully", 200), true)
  }

  /** Only the owner of a pending coupon can delete it, and never anonymously. */
  lemma DeleteOnlyOwnPending(user: Option<User>, coupon: Coupon?)
    requires Delete(user, coupon).1
    ensures user.Some? && coupon != null && coupon.userId == user.value.id && coupon.status == Pending
  {
  }
}
