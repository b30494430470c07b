/**
 * AuthMiddleware.php: the decision taken before every route runs. Token
 * verification and the user lookup behind getUserFromToken are one
 * function passed in.
 */
module AuthMiddleware {
  import opened Common
  import opened Users
  import opened BaseController
  import opened Jwt

  /** The endpoints that skip authentication, by controller and action. */
  const PublicEndpoints: map<string, seq<string>> := map[
    "auth" := ["login", "register", "refresh"],
    "index" := ["index"]
  ]

  predicate IsPublic(controller: string, action: string)
  {
    controller in PublicEndpoints && action in PublicEndpoints[controller]
  }

  /**
   * The outcome: the route runs (with the user stored as currentUser, or
   * none for a public endpoint), or a response is sent and the route is
   * refused.
   */
  datatype Decision = Allow(currentUser: Option<User>) | Deny(response: Response)

  /**
   * beforeExecuteRoute: public endpoints pass; then the header must be
   * present, yield a token, resolve to a user, and that user must be
   * active. The first failing check answers.
   */
  function Authorize(controller: string, action: string, authHeader: string, resolve: string -> Option<User>): Decision
  {
    if IsPublic(controller, action) then Allow(None)
    else if FalsyString(authHeader) then Deny(SendError("Authorization header missing", 401, JNull))
    else
      var token := ExtractTokenFromHeader(authHeader);
      if token.None? || FalsyString(token.value) then Deny(SendError("Invalid authorization header format", 401, JNull))
      else
        var user := resolve(token.value);
        if user.None? then Deny(SendError("Invalid or expired token", 401, JNull))
        else if !user.value.isActive then Deny(SendError("User account is inactive", 403, JNull))
        else Allow(user)
  }

  /** Exactly auth/login, auth/register, auth/refresh and index/index are public. */
  lemma PublicEndpointsExact(controller: string, action: string)
    ensures IsPublic(controller, action) <==>
      (controller, action) in {("auth", "login"), ("auth", "register"), ("auth", "refresh"), ("index", "index")}
    ensures IsPublic(controller, action) ==> forall h, r :: Authorize(controller, action, h, r) == Allow(None)
  {
  }

  /**
   * Each check in turn: the status code a refused request gets is decided
   * by the first check it fails, and later checks are never consulted.
   */
  lemma CheckOrder(controller: string, action: string, h: string, resolve: string -> Option<User>)
    requires !IsPublic(controller, action)
    ensures FalsyString(h) ==>
      Authorize(controller, action, h, resolve) == Deny(SendError("Authorization header missing", 401, JNull))
    ensures !FalsyString(h) && (ExtractTokenFromHeader(h).None? || FalsyString(ExtractTokenFromHeader(h).value)) ==>
      Authorize(controller, action, h, resolve) == Deny(SendError("Invalid authorization header format", 401, JNull))
    ensures !FalsyString(h) && ExtractTokenFromHeader(h).Some? && !FalsyString(ExtractTokenFromHeader(h).value) ==>
      var user := resolve(ExtractTokenFromHeader(h).value);
      (user.None? ==> Authorize(controller, action, h, resolve).response.status == 401) &&
      (user.Some? && !user.value.isActive ==> Authorize(controller, action, h, resolve).response.status == 403) &&
      (user.Some? && user.value.isActive ==> Authorize(controller, action, h, resolve) == Allow(user))
  {
  }

  /**
   * A request to a protected endpoint runs only with an active user that
   * the header's non-empty token resolves to, and that user is the one
   * stored as currentUser.
   */
  lemma AllowedMeansAuthenticated(controller: string, action: string, h: string, resolve: string -> Option<User>)
    requires !IsPublic(controller, action)
    requires Authorize(controller, action, h, resolve).Allow?
    ensures var u := Authorize(controller, action, h, resolve).currentUser;
      u.Some? && u.value.isActive && !FalsyString(h) &&
      exists token :: ExtractTokenFromHeader(h) == Some(token) && !FalsyString(token) && resolve(token) == u
  {
    var token := ExtractTokenFromHeader(h).value;
    assert ExtractTokenFromHeader(h) == Some(token);
  }

  /** Every refusal is an error envelope with status 401 or 403. */
  lemma DenialsAreErrors(controller: string, action: string, h: string, resolve: string -> Option<User>)
    requires Authorize(controller, action, h, resolve).Deny?
    ensures var r := Authorize(controller, action, h, resolve).response;
      !Succeeded(r) && (r.status == 401 || r.status == 403)
  {
  }

  /** "Bearer abc" with a resolver that knows abc as an active user lets the request through. */
  lemma BearerHeaderAllowed(u: User, resolve: string -> Option<User>)
    requires u.isActive && resolve("abc") == Some(u)
    ensures Authorize("coupon", "create", "Bearer abc", resolve) == Allow(Some(u))
  {
    BearerToken("Bearer", " ", "abc");
    assert "Bearer" + " " + "abc" == "Bearer abc";
    assert "coupon" !in PublicEndpoints;
    assert !FalsyString("Bearer abc") && !FalsyString("abc");
  }
}
