# Coupon engine of coinhit-phalcon, modelled in Dafny

This project models the betting-coupon core of the coinhit-phalcon backend (a PHP/Phalcon
football-prediction platform) and proves properties of it. The model has one module per PHP
file of the core. Coupon.php is split into two modules: `CouponMath` holds the binomial
coefficient, the k-combinations and the system average, and `Coupons` holds the coupon itself.

- **Coupons.**
  - `CalculateTotalOdds` computes a coupon's total odds and potential win for the single,
    multiple and system bet types.
  - `CheckResult` settles a coupon in place (status, actual win, profit/loss) from its picks.
  - The system odds are the average, over every k-subset of the picks, of the product of their
    odds. They rest on a recursive k-combination enumerator and an iterative binomial
    coefficient.
- **Outcome resolution** (`Predictions`, `CouponPicks`, `Matches`, `DataCollector`).
  - A finished match's score decides a 1X2, both-teams-to-score or over/under prediction.
  - A pick copies its prediction's status.
  - Provider status codes map onto the six match statuses.
- **Access control** (`Users`, `Jwt`, `AuthMiddleware`, `CorsMiddleware`).
  - Roles, membership tiers and the permission table.
  - The bearer-token pattern of the Authorization header.
  - The order of the authentication checks.
  - The CORS headers and the preflight answer.
- **Controllers and small rules** (`BaseController`, `CouponController`, `ExportController`,
  `TeamStats`, `Teams`, `Formulas`).
  - Response envelopes and pagination.
  - Coupon creation with its pick filtering, and the update and delete guards.
  - The PDF access guard, the coupon statistics tally and the label tables.
  - Team points, goal difference and form, and a formula's success rate.

Odds and money are exact `real`s. Scores and counters are unbounded integers. "Now" is a
parameter. The database is abstracted away:
- a coupon's pick rows are passed to the methods as values;
- the prediction lookup and the token-to-user resolution are passed as functions.

PHP `null` for `system_min_wins` behaves as 0. A division by zero in the system odds (more
required wins than picks) is an uncaught PHP error, and the model returns it as `None` with no
field changed.

Settlement details worth knowing, as the code has them:
- An all-void multiple coupon gets status void and keeps its previous `actual_win` and
  `profit_loss` (Coupon.php:178-179). No zero profit/loss is recorded.
- A lost single coupon gets profit/loss −stake and keeps its previous `actual_win`
  (Coupon.php:170-173). No zero payout is recorded.
- Settlement reads the stored pick statuses without resolving them again. A pending pick
  therefore counts as neither won, lost nor void. On a multiple coupon with no lost pick, its
  odds join the product and the coupon settles as won (`Coupons.SettleMultipleWon`).
- Settlement does not check whether the coupon already has a final status. It is idempotent
  all the same (`Coupons.SettleIdempotent`).
- Predictions of a type that has no rule keep their status and actual result.

## Model

| member | source | states |
|---|---|---|
| CouponMath.Choose | backend/app/models/Coupon/Coupon.php:198-211 | the binomial coefficient is positive exactly when 0 ≤ k ≤ n (Pascal's rule, with 0 outside that range) |
| CouponMath.ChooseEdges | backend/app/models/Coupon/Coupon.php:200-203 | C(n,0) = C(n,n) = 1 |
| CouponMath.ChooseSymmetric | backend/app/models/Coupon/Coupon.php:198-211 | C(n,k) = C(n,n−k) |
| CouponMath.ChooseStep | backend/app/models/Coupon/Coupon.php:205-208 | (i+1)·C(n,i+1) = (n−i)·C(n,i), the step that keeps the running value integral |
| CouponMath.ChooseOne | backend/app/models/Coupon/Coupon.php:198-211 | C(n,1) = n |
| CouponMath.BinomialCoefficient | backend/app/models/Coupon/Coupon.php:198-211 | the loop returns 0 for k > n, C(n,k) for 0 ≤ k ≤ n, and 1 for negative k (the loop does not run) |
| CouponMath.Prepend | backend/app/models/Coupon/Coupon.php:225-229 | every combination of the tail gets the head in front, in order |
| CouponMath.Combinations | backend/app/models/Coupon/Coupon.php:213-234 | the k-element combinations in the recursion's order: with the head, then without it; their count, shape, top-level head-first order, distinctness and completeness are the lemmas CombinationsCount, CombinationsShape, CombinationsHeadFirst, CombinationsDistinct and CombinationsComplete; k = n gives [s] (CombinationsAll) |
| CouponMath.Product | backend/app/models/Coupon/Coupon.php:90-93 | the odds multiplied from 1.0, one factor per pick (ProductSnoc, ProductAtLeastOne) |
| CouponMath.SumOfProducts | backend/app/models/Coupon/Coupon.php:118-126 | the sum over the combinations of each combination's product (SumOfProductsAppend, SumOfProductsSingle, SumAtLeastCount) |
| CouponMath.SystemAverage | backend/app/models/Coupon/Coupon.php:107-129 | the summed products divided by C(n,k), the reference SystemOdds is proved against; its values at k = 0, 1, n and below 0 are the SystemAverage* lemmas |
| CouponMath.CombinationsCount | backend/app/models/Coupon/Coupon.php:213-234 | the enumerator returns exactly C(\|s\|,k) lists, and none for negative k |
| CouponMath.CombinationsShape | backend/app/models/Coupon/Coupon.php:213-234 | every list returned has length k and is a subsequence of s |
| CouponMath.SubsequenceMembers | backend/app/models/Coupon/Coupon.php:213-234 | a subsequence only holds elements of s |
| CouponMath.CombinationsComplete | backend/app/models/Coupon/Coupon.php:213-234 | every k-element subsequence of the picks is among the combinations of length k |
| CouponMath.CombinationsHeadFirst | backend/app/models/Coupon/Coupon.php:225-233 | at the top level, the lists that hold the head come first, then those drawn from the tail alone |
| CouponMath.CombinationsDistinct | backend/app/models/Coupon/Coupon.php:213-234 | with distinct picks no combination is listed twice |
| CouponMath.CombinationsNoRepeatedPick | backend/app/models/Coupon/Coupon.php:213-234 | with distinct picks no combination uses a pick twice |
| CouponMath.CombinationsAll | backend/app/models/Coupon/Coupon.php:213-234 | choosing all n picks gives the one list s itself |
| CouponMath.CombinationsSingletons | backend/app/models/Coupon/Coupon.php:213-234 | choosing 1 pick gives each pick alone, in order |
| CouponMath.ProductSnoc | backend/app/models/Coupon/Coupon.php:90-93 | multiplying in one more pick's odds extends the product |
| CouponMath.SumOfProductsAppend | backend/app/models/Coupon/Coupon.php:120-126 | the summed combination odds split over concatenated lists |
| CouponMath.ProductAtLeastOne | backend/app/models/Coupon/Coupon.php:120-125 | odds of at least 1 multiply to at least 1 |
| CouponMath.SystemOdds | backend/app/models/Coupon/Coupon.php:107-129 | 1.0 with no picks; the division-by-zero error when k exceeds the picks; otherwise the summed combination products divided by C(n,k) |
| CouponMath.SystemAverageNoneRequired | backend/app/models/Coupon/Coupon.php:107-129 | with k = 0 the system odds are 1.0 |
| CouponMath.SystemAverageAllRequired | backend/app/models/Coupon/Coupon.php:107-129 | with k = n the system odds are the product of all odds |
| CouponMath.SystemAverageOneRequired | backend/app/models/Coupon/Coupon.php:107-129 | with k = 1 the system odds are the mean of the odds |
| CouponMath.SumOfProductsSingle | backend/app/models/Coupon/Coupon.php:120-126 | one combination contributes its own product |
| CouponMath.SumOfSingletons | backend/app/models/Coupon/Coupon.php:120-126 | summing one-pick combinations sums the odds |
| CouponMath.SystemAverageNegative | backend/app/models/Coupon/Coupon.php:115-128 | a negative k gives no combination, so the odds are 0 |
| CouponMath.SystemAverageAtLeastOne | backend/app/models/Coupon/Coupon.php:107-129 | odds all at least 1 give system odds at least 1 |
| CouponMath.CombinationsAtLeastOne | backend/app/models/Coupon/Coupon.php:213-234 | combinations only hold odds taken from the picks |
| CouponMath.SumAtLeastCount | backend/app/models/Coupon/Coupon.php:120-126 | each combination adds at least 1 to the sum |
| Coupons.MultipleOddsAreProduct | backend/app/models/Coupon/Coupon.php:89-93 | a multiple coupon's odds are the product of its pick odds, 1.0 with no picks |
| Coupons.NewTotalOdds | backend/app/models/Coupon/Coupon.php:81-102 | the total odds calculateTotalOdds stores for each coupon type, None on the system division by zero; its cases are MultipleOddsAreProduct, SingleOddsAreFirstPick and SystemOddsCases |
| Coupons.SingleOddsAreFirstPick | backend/app/models/Coupon/Coupon.php:85-88 | a single coupon takes the first pick's odds; with no picks, and for an unknown type, the odds stay as they were |
| Coupons.SystemOddsCases | backend/app/models/Coupon/Coupon.php:94-96 | a system coupon: 1.0 without picks or without min wins, an error when k exceeds the picks, the product when k = n, the mean when k = 1 |
| Coupons.Coupon.CalculateTotalOdds | backend/app/models/Coupon/Coupon.php:81-102 | stores the new total odds and potential win = stake × total odds, or changes nothing on the division error |
| Coupons.CountStatusPositive | backend/app/models/Coupon/Coupon.php:154-163 | a status is counted iff some pick has it |
| Coupons.CountStatusAll | backend/app/models/Coupon/Coupon.php:154-163 | a count reaches the number of picks iff every pick has that status |
| Coupons.CountsBounded | backend/app/models/Coupon/Coupon.php:154-163 | won + lost + void counts never exceed the picks |
| Coupons.NonVoidOddsMembers | backend/app/models/Coupon/Coupon.php:183-188 | the product runs over exactly the non-void picks |
| Coupons.SettleDeferred | backend/app/models/Coupon/Coupon.php:136-152 | with no picks, or with any match unfinished, nothing changes |
| Coupons.Settle | backend/app/models/Coupon/Coupon.php:134-195 | the status and money fields checkResult leaves, as a function of the old ones and the picks; each branch is one of the Settle* lemmas, and SettleIdempotent and SettledAccounting relate them |
| Coupons.SettleSingle | backend/app/models/Coupon/Coupon.php:165-173 | single: exactly one won pick → won, actual win = potential win, profit = potential win − stake; otherwise lost with −stake |
| Coupons.SettleMultipleLost | backend/app/models/Coupon/Coupon.php:174-178 | multiple: any lost pick → lost, profit −stake, actual win kept |
| Coupons.SettleMultipleAllVoid | backend/app/models/Coupon/Coupon.php:178-179 | multiple: all picks void → void, money fields kept |
| Coupons.SettleMultipleWon | backend/app/models/Coupon/Coupon.php:180-191 | multiple: no lost and some non-void pick → won with stake × product of non-void odds, pending picks included |
| Coupons.SettleSystemUntouched | backend/app/models/Coupon/Coupon.php:154-194 | a system coupon is never settled |
| Coupons.SettleIdempotent | backend/app/models/Coupon/Coupon.php:134-195 | settling twice gives the state of settling once |
| Coupons.SettledAccounting | backend/app/models/Coupon/Coupon.php:165-191 | a coupon settled as won or lost has profit = actual win − stake, or −stake |
| Coupons.VoidLegDropsOut | backend/app/models/Coupon/Coupon.php:180-191 | won, void, won settles as won on the two won legs' odds |
| Coupons.WorkedExample | backend/app/models/Coupon/Coupon.php:89-98 | odds 2.0, 1.5, 3.0 with stake 10 give total odds 9.0 and, all won, 90 won and 80 profit |
| Coupons.Coupon.constructor | backend/app/models/Coupon/Coupon.php:12-24 | a new coupon is a pending multiple with odds 1.0 and zero money fields |
| Coupons.Coupon.CheckResult | backend/app/models/Coupon/Coupon.php:134-195 | the new status and money fields are the settlement of the old ones |
| Coupons.Coupon.SettleSingleCoupon | backend/app/models/Coupon/Coupon.php:165-173 | exactly one won pick: won with the potential win; otherwise lost with −stake and the actual win kept |
| Coupons.Coupon.SettleMultipleCoupon | backend/app/models/Coupon/Coupon.php:174-191 | a lost pick: lost with −stake; all void: status void only; otherwise won with stake × the non-void product |
| Coupons.MultiplyOdds | backend/app/models/Coupon/Coupon.php:89-93 | the loop's running product is the product of the odds |
| Coupons.AllMatchesFinished | backend/app/models/Coupon/Coupon.php:141-152 | the loop answers whether every pick's match has finished |
| Coupons.TallyStatuses | backend/app/models/Coupon/Coupon.php:154-163 | the loop counts won, lost and void picks |
| Coupons.NonVoidProduct | backend/app/models/Coupon/Coupon.php:183-188 | the loop multiplies the odds of the non-void picks |
| Predictions.ActualResult | backend/app/models/Prediction/Prediction.php:112-131 | 1X2 gives 1/X/2 by comparing scores, BTTS gives yes iff both scored, over/under gives over iff at least 3 goals; other types give nothing |
| Predictions.Resolve | backend/app/models/Prediction/Prediction.php:102-134 | without a finished match nothing changes; otherwise won iff the actual result equals the predicted one, else lost |
| Predictions.ResolveNeverVoid | backend/app/models/Prediction/Prediction.php:102-134 | resolution yields won or lost, never void |
| Predictions.ResolveIdempotent | backend/app/models/Prediction/Prediction.php:102-134 | resolving again on the same score changes nothing |
| Predictions.UnruledTypesStayPending | backend/app/models/Prediction/Prediction.php:27-33 | double chance, correct score and the team over/under types are left unchanged |
| Predictions.Prediction.IsHighConfidence | backend/app/models/Prediction/Prediction.php:94-97 | high confidence iff the score is at least 75 |
| Predictions.Prediction.CheckResult | backend/app/models/Prediction/Prediction.php:102-134 | the stored status and actual result become the resolution of the old ones |
| Predictions.Prediction.constructor | backend/app/models/Prediction/Prediction.php:13-22 | a new prediction is pending, unresolved and not premium |
| CouponPicks.CouponPick.constructor | backend/app/models/Coupon/CouponPick.php:11-16 | a new pick is pending and not a banker |
| CouponPicks.CouponPick.CheckResult | backend/app/models/Coupon/CouponPick.php:48-56 | without a prediction nothing changes; otherwise the prediction is resolved and its status copied, even when still pending; odds and banker flag untouched |
| CouponPicks.PickStatusAfterCheck | backend/app/models/Coupon/CouponPick.php:50-54 | a pick on a resolvable type of a finished match ends won or lost |
| Matches.NewMatch | backend/app/models/Match/Match.php:17 | a new match is scheduled with no score |
| Matches.IsLive | backend/app/models/Match/Match.php:114-117 | the status is live or halftime; exclusive with finished and upcoming (StatusPredicatesExclusive) |
| Matches.IsFinished | backend/app/models/Match/Match.php:122-125 | the status is finished; exclusive with live and upcoming (StatusPredicatesExclusive) |
| Matches.IsUpcoming | backend/app/models/Match/Match.php:130-133 | scheduled and kicking off after now; exclusive with live and finished (StatusPredicatesExclusive) |
| Matches.ScoreDisplay | backend/app/models/Match/Match.php:138-144 | "home - away" when both scores are known, "vs" otherwise; the display parses back to the scores (ScoreDisplayRoundTrip) |
| Matches.StatusPredicatesExclusive | backend/app/models/Match/Match.php:114-133 | live and finished exclude each other and upcoming; finished iff status finished; postponed and cancelled are none of them |
| Matches.NatToStringRoundTrip | backend/app/models/Match/Match.php:138-144 | a score's decimal digits read back as the score |
| Matches.IntToStringRoundTrip | backend/app/models/Match/Match.php:138-144 | an integer printed in decimal parses back to itself |
| Matches.ScoreDisplayExamples | backend/app/models/Match/Match.php:138-144 | scores 2 and 1 display as "2 - 1", 10 and 0 as "10 - 0", a missing score as "vs" |
| Matches.ScoreDisplayRoundTrip | backend/app/models/Match/Match.php:138-144 | "h - a" parses back to both scores; a missing score gives "vs" |
| Matches.IndexOfSpaceAfterPrefix | backend/app/models/Match/Match.php:138-144 | the first space of the display follows the home score |
| DataCollector.MapStatus | backend/app/services/DataCollectorService.php:184-204 | FT/AET/PEN/AWD/WO finished, 1H/2H/ET/P live, HT halftime, PST postponed, CANC/ABD cancelled, anything else scheduled, each iff |
| DataCollector.MappedFinishedSettles | backend/app/services/DataCollectorService.php:194-201 | a match built from a code is finished iff the code is one of the five final codes |
| Users.NewUser | backend/app/models/User.php:12-24 | a new user is an active, free, non-staff plain user |
| Users.IsAdmin | backend/app/models/User.php:110-113 | the role is admin or the user is staff; every admin is a moderator (AdminIsModerator) and holds every permission (AdminHoldsEverything) |
| Users.IsModerator | backend/app/models/User.php:118-121 | the role is moderator or admin, or the user is staff (AdminIsModerator) |
| Users.IsPremiumUser | backend/app/models/User.php:126-134 | a paid tier whose expiry is after now, or a moderator (PremiumCharacterization, PremiumEarlier) |
| Users.HasPermission | backend/app/models/User.php:139-157 | admins hold everything, others what their role's list grants (PermissionCharacterization, AdminOnlyPermissions, PlainUsersHoldNothing) |
| Users.AdminIsModerator | backend/app/models/User.php:110-121 | admin iff role admin or staff; moderator iff role admin or moderator or staff; admin implies moderator |
| Users.PermissionCharacterization | backend/app/models/User.php:139-158 | a permission is held iff admin, or listed for the role |
| Users.AdminOnlyPermissions | backend/app/models/User.php:147-152 | managing users, triggering the collector and managing subscriptions are held iff admin |
| Users.AdminHoldsEverything | backend/app/models/User.php:141-143 | an admin holds every permission, named or not |
| Users.PlainUsersHoldNothing | backend/app/models/User.php:145-157 | a non-staff plain or premium user holds no permission |
| Users.PremiumCharacterization | backend/app/models/User.php:126-134 | premium iff moderator, or a paid tier with an expiry after now; a free non-moderator is never premium |
| Users.PremiumEarlier | backend/app/models/User.php:126-134 | premium now implies premium at any earlier time |
| BaseController.SendSuccess | backend/app/controllers/BaseController.php:23-37 | success true, the message, and a data key only for non-null data |
| BaseController.SendError | backend/app/controllers/BaseController.php:42-56 | success false, the message, and an errors key only for non-null errors |
| BaseController.EnvelopesDistinct | backend/app/controllers/BaseController.php:23-56 | a success envelope is never an error envelope |
| BaseController.Paginate | backend/app/controllers/BaseController.php:61-83 | limit defaults to 20 and is capped at 100, page is at least 1, offset = (page − 1) × limit |
| BaseController.PagesCoverTotal | backend/app/controllers/BaseController.php:74-81 | the page count is the least number of pages that hold all items |
| BaseController.CeilDivPositive | backend/app/controllers/BaseController.php:74 | ceil(total / limit) for a positive limit |
| BaseController.CeilDivNegative | backend/app/controllers/BaseController.php:74 | ceil(total / limit) for a negative limit |
| BaseController.PagesExamples | backend/app/controllers/BaseController.php:61-83 | 0, 20, 21 and 250 items give 0, 1, 2 and 3 pages; page −3 becomes 1 |
| CouponController.CreateCheck | backend/app/controllers/CouponController.php:86-101 | 401 unauthenticated, then 400 for an empty type or empty or non-list picks; passes iff none applies |
| CouponController.SelectPicks | backend/app/controllers/CouponController.php:117-138 | the loop keeps, in order, exactly the accepted picks |
| CouponController.Accept | backend/app/controllers/CouponController.php:118-130 | the filters one request pick must pass; what acceptance means is AcceptMeans, NoPremiumPicksForFreeUsers and NoZeroOdds |
| CouponController.AcceptedPicks | backend/app/controllers/CouponController.php:117-138 | the accepted picks in request order, the reference SelectPicks is proved against (AcceptedPicksAppend, AcceptedPicksSound) |
| CouponController.AcceptedPicksAppend | backend/app/controllers/CouponController.php:117-138 | filtering distributes over concatenated requests |
| CouponController.AcceptedPicksSound | backend/app/controllers/CouponController.php:117-138 | every kept pick comes from an accepted request, and every accepted request is kept |
| CouponController.AcceptMeans | backend/app/controllers/CouponController.php:117-130 | a request is accepted iff its id and odds are non-empty, its prediction exists, and the user may see it |
| CouponController.NoPremiumPicksForFreeUsers | backend/app/controllers/CouponController.php:128-130 | a non-premium user never gets a pick on a premium prediction |
| CouponController.NoZeroOdds | backend/app/controllers/CouponController.php:119-121 | no kept pick has odds 0 |
| CouponController.OddsOf | backend/app/controllers/CouponController.php:141 | the odds handed to the total-odds computation are the kept picks' odds in order |
| CouponController.NewCoupon | backend/app/controllers/CouponController.php:104-110 | the new coupon has the requested type, name and limits, stake defaulting to 0 |
| CouponController.Create | backend/app/controllers/CouponController.php:86-146 | validation failures save nothing; otherwise the coupon is saved with the accepted picks and its odds computed |
| CouponController.AddPicks | backend/app/controllers/CouponController.php:117-145 | the accepted picks are inserted and the total odds computed, with the 201 answer, or no answer on the division error |
| CouponController.AcceptedPicksEmpty | backend/app/controllers/CouponController.php:117-138 | no pick is kept iff no request is accepted |
| CouponController.CreatedWithoutPicks | backend/app/controllers/CouponController.php:112-141 | a coupon whose every pick is skipped is still created, with total odds 1.0 |
| CouponController.Guard | backend/app/controllers/CouponController.php:153-172 | 401, 404, 403, 400 in that order, each iff its condition; passes iff own pending coupon |
| CouponController.Update | backend/app/controllers/CouponController.php:151-187 | a refused update changes nothing; otherwise name and stake are set and a new stake recomputes the odds |
| CouponController.Delete | backend/app/controllers/CouponController.php:192-218 | deletes iff the guard passes, with the guard's status otherwise |
| CouponController.DeleteOnlyOwnPending | backend/app/controllers/CouponController.php:194-213 | only the owner's pending coupon is deleted |
| Jwt.SpaceRun | backend/app/services/JwtService.php:83 | the whitespace run after the keyword is maximal |
| Jwt.ExtractTokenFromHeader | backend/app/services/JwtService.php:81-87 | the capture of the leftmost match of the case-insensitive pattern, or None; its behaviour is BearerToken, PrefixIgnored, NoKeywordNoToken and TokenShape |
| Jwt.LeftmostAt | backend/app/services/JwtService.php:83 | the match taken is the leftmost one |
| Jwt.LeftmostNone | backend/app/services/JwtService.php:83-86 | no token iff no position matches |
| Jwt.LeftmostFound | backend/app/services/JwtService.php:83-84 | a token comes from a matching position with no match before it |
| Jwt.BearerToken | backend/app/services/JwtService.php:81-87 | keyword in any case, whitespace, then a token: the token |
| Jwt.SpaceRunOver | backend/app/services/JwtService.php:83 | the whole whitespace run is dropped |
| Jwt.BearerExamples | backend/app/services/JwtService.php:83-84 | "Bearer abc.def" gives abc.def; "BEARER abc" gives abc |
| Jwt.WhitespaceRunDropped | backend/app/services/JwtService.php:83 | a run of mixed whitespace after the keyword is dropped |
| Jwt.KeywordOnlyGivesEmptyToken | backend/app/services/JwtService.php:83-84 | "Bearer " gives the empty token |
| Jwt.LaterKeywordsKept | backend/app/services/JwtService.php:83-84 | later keywords stay in the token |
| Jwt.PrefixIgnored | backend/app/services/JwtService.php:83 | text before the first match is skipped |
| Jwt.NoKeywordNoToken | backend/app/services/JwtService.php:86 | no keyword followed by whitespace: null |
| Jwt.TokenShape | backend/app/services/JwtService.php:81-87 | a token has no line feed, does not start with whitespace, is the header's tail, and follows a keyword |
| AuthMiddleware.PublicEndpointsExact | backend/app/middleware/AuthMiddleware.php:18-27 | exactly auth/login, auth/register, auth/refresh and index/index pass unchecked |
| AuthMiddleware.Authorize | backend/app/middleware/AuthMiddleware.php:11-82 | the decision of beforeExecuteRoute; its order of checks and outcomes are CheckOrder, AllowedMeansAuthenticated and DenialsAreErrors |
| AuthMiddleware.CheckOrder | backend/app/middleware/AuthMiddleware.php:29-81 | missing header 401, bad format 401, unknown token 401, inactive user 403, in that order; else the user is allowed |
| AuthMiddleware.AllowedMeansAuthenticated | backend/app/middleware/AuthMiddleware.php:43-81 | a protected request runs only with the active user its token resolves to |
| AuthMiddleware.DenialsAreErrors | backend/app/middleware/AuthMiddleware.php:30-76 | every refusal is an error envelope with 401 or 403 |
| AuthMiddleware.BearerHeaderAllowed | backend/app/middleware/AuthMiddleware.php:29-81 | "Bearer abc" for an active user is allowed |
| CorsMiddleware.CorsHeaders | backend/app/middleware/CorsMiddleware.php:16-25 | the origin header iff the origin or "*" is allowed, echoing the origin; credentials, methods, headers and max age always |
| CorsMiddleware.Join | backend/app/middleware/CorsMiddleware.php:23-24 | implode with ", " (JoinLength) |
| CorsMiddleware.WithCorsHeaders | backend/app/middleware/CorsMiddleware.php:17-25 | the headers after the five setHeader calls in order; equal to the prior headers overlaid by CorsHeaders (WithCorsHeadersMerge) |
| CorsMiddleware.HttpResponse.constructor | backend/app/middleware/CorsMiddleware.php:10-35 | a response holds the given status, content and headers |
| CorsMiddleware.HttpResponse.SetHeader | backend/app/middleware/CorsMiddleware.php:19-25 | a header write replaces that header only |
| CorsMiddleware.HttpResponse.BeforeSendResponse | backend/app/middleware/CorsMiddleware.php:10-35 | headers become the five writes over the old ones; OPTIONS gets 204 and empty content, others keep theirs |
| CorsMiddleware.WithCorsHeadersMerge | backend/app/middleware/CorsMiddleware.php:18-25 | the writes equal the old headers overlaid with the CORS headers |
| CorsMiddleware.OtherHeadersKept | backend/app/middleware/CorsMiddleware.php:18-25 | other headers keep their values |
| CorsMiddleware.WildcardEchoesOrigin | backend/app/middleware/CorsMiddleware.php:18-20 | with "*" allowed the header echoes the request's origin |
| CorsMiddleware.DefaultOrigins | backend/app/config/config.php:52-57 | the default configuration allows exactly its two origins, with credentials |
| CorsMiddleware.JoinLength | backend/app/middleware/CorsMiddleware.php:23-24 | joining with ", " adds two characters per separator |
| ExportController.CouponPdfGuard | backend/app/controllers/ExportController.php:18-33 | 401, 404, 403 (not owner and not shared) in that order, each iff; passes iff owner or shared |
| ExportController.Tally | backend/app/controllers/ExportController.php:235-251 | counts all, won and lost coupons, sums stake and profit over all, and winnings over won coupons |
| ExportController.WonLostBounded | backend/app/controllers/ExportController.php:242-251 | the five status counts add up to the coupons, so won + lost ≤ total |
| ExportController.NoWinsWithoutWonCoupons | backend/app/controllers/ExportController.php:244-247 | no won coupon means no winnings |
| ExportController.WinRate | backend/app/controllers/ExportController.php:253 | 0 with no coupons, else won / total × 100, a percentage |
| ExportController.Roi | backend/app/controllers/ExportController.php:254 | 0 without stake, else profit / stake × 100, with the profit's sign |
| ExportController.TallyWinRate | backend/app/controllers/ExportController.php:235-254 | a tally's win rate is a percentage |
| ExportController.GetStatusText | backend/app/controllers/ExportController.php:322-333 | the five statuses get their labels, any other string is returned as is |
| ExportController.GetPeriodText | backend/app/controllers/ExportController.php:349-358 | week, month and year get their labels, anything else the 30-day label |
| ExportController.StatusLabelsDistinct | backend/app/controllers/ExportController.php:322-333 | every coupon status gets its own label, and none is shown as its raw name |
| ExportController.PeriodLabelsDefault | backend/app/controllers/ExportController.php:349-358 | every period other than week and year reads as the 30-day label |
| TeamStats.Points | backend/app/models/Match/TeamStatistics.php:68-71 | three per win plus one per draw (PointsOfRecord, PointsBounded) |
| TeamStats.GoalDifference | backend/app/models/Match/TeamStatistics.php:76-79 | goals for minus goals against (GoalDifferenceOfRecord, GoalDifferenceAntisymmetric) |
| TeamStats.WinPercentage | backend/app/models/Match/TeamStatistics.php:84-90 | 0 with no match played, else wins / played × 100, a percentage |
| TeamStats.Record | backend/app/models/Match/TeamStatistics.php:16-23 | counters tallied from results, starting from the zero defaults |
| TeamStats.PointsOfRecord | backend/app/models/Match/TeamStatistics.php:68-71 | points equal three a win and one a draw summed over the results |
| TeamStats.GoalDifferenceOfRecord | backend/app/models/Match/TeamStatistics.php:76-79 | goal difference equals the summed match margins |
| TeamStats.PointsBounded | backend/app/models/Match/TeamStatistics.php:68-90 | points lie in 0..3 per match, maximal iff no draw or loss |
| TeamStats.GoalDifferenceAntisymmetric | backend/app/models/Match/TeamStatistics.php:76-79 | swapping goals for and against negates the difference |
| Teams.FormPercentage | backend/app/models/Match/Team.php:71-77 | 0 with no game, else points / (3 × games) × 100, a percentage |
| Teams.FormExtremes | backend/app/models/Match/Team.php:71-77 | form is 100 iff every game was won, 0 iff none was won or drawn |
| Formulas.SuccessRate | backend/app/models/Formula.php:77 | success / total × 100, in 0..100, 100 iff no failure, 0 iff no success |
| Formulas.Formula.constructor | backend/app/models/Formula.php:16-20 | a new formula is active, not public, with zero counts and rate |
| Formulas.Formula.CalculateSuccessRate | backend/app/models/Formula.php:72-81 | 0 and the stored rate kept with no result; otherwise the rate is stored and returned |
| Formulas.RateMonotone | backend/app/models/Formula.php:72-81 | one more success never lowers the rate, one more failure never raises it |
| Common.StatusNameInjective | backend/app/models/Coupon/Coupon.php:33-37 | distinct statuses have distinct names |

## Left out

- Persistence: `save()`, `getPicks()`, `findFirst()` and the other ORM queries are left out. Methods receive the rows as values, and a save is "the fields are the new state". `Create` takes the save's success as a parameter.
- Token signing and verification (firebase/php-jwt) and the user lookup behind getUserFromToken are one function parameter of `AuthMiddleware.Authorize`.
- `round()` and `number_format()` are left out. Win rate, ROI, win percentage and form are exact, unrounded reals, and odds and money are exact reals rather than floats.
- PDF and spreadsheet rendering, and the rest of ExportController, are left out. So are the data collector's HTTP ingestion, PredictionService, the installer and bootstrap files, and the list and show actions.
- Dates, the clock, share codes, UUIDs and password hashing are left out. "Now" is a parameter where a comparison needs it.
- `Coupons.Coupon.CheckResult`: every pick is assumed to have its prediction and that prediction its match (`Leg.fixture` is a `Match`, not an option). In PHP a pick whose prediction or match is missing makes `isFinished()` fail with an uncaught Error; that failure is not modelled.
- `Predictions.Resolve`: a finished match is required to carry both scores. Null scores on a finished match are not modelled.
- `CouponController.AcceptMeans`: PHP's loose `in_array` comparison and `empty()` are taken at their values for ids, odds and non-numeric strings. Numeric-string coercions are not modelled.
- `CouponController.Create`: the JSON response body only carries the coupon's fields. The picks' JSON serialisation is not modelled.
- `Matches.ScoreDisplayRoundTrip`: the display is proved to parse back, and the digit strings are pinned only by worked examples (`Matches.ScoreDisplayExamples`). No general lemma states that a score is written without leading zeros.
- `CorsMiddleware.JoinLength`: the joined method and header lists are characterised by length and by their definition. Literal joined strings are not stated.
- The 32- and 64-bit integer limits of PHP are not modelled. Counters and scores are unbounded.
