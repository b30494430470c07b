/**
 * CorsMiddleware.php: the cross-origin headers set on every response, and
 * the empty 204 answer to a preflight (OPTIONS) request.
 */
module CorsMiddleware {
  /** The cors section of the configuration. */
  datatype CorsConfig = CorsConfig(
    allowedOrigins: seq<string>,
    allowedHeaders: seq<string>,
    allowedMethods: seq<string>,
    allowCredentials: bool)

  /** The configured defaults, with no CORS_ORIGINS in the environment. */
  const DefaultCors := CorsConfig(
    ["http://localhost:3000", "https://tahmin1x2.com"],
    ["Content-Type", "Authorization", "X-Requested-With", "Accept", "Origin"],
    ["GET", "POST", "PUT", "PATCH", "DELETE", "OPTIONS"],
    true)

  /** The request as the middleware reads it; a missing Origin header is "". */
  datatype Request = Request(origin: string, httpMethod: string)

  const ALLOW_ORIGIN := "Access-Control-Allow-Origin"
  const ALLOW_CREDENTIALS := "Access-Control-Allow-Credentials"
  const ALLOW_METHODS := "Access-Control-Allow-Methods"
  const ALLOW_HEADERS := "Access-Control-Allow-Headers"
  const MAX_AGE := "Access-Control-Max-Age"

  /** implode(', ', items). */
  function Join(items: seq<string>): string
  {
    if items == [] then ""
    else if |items| == 1 then items[0]
    else items[0] + ", " + Join(items[1..])
  }

  /** The origin is allowed when it is listed or when "*" is. */
  predicate OriginAllowed(cfg: CorsConfig, origin: string)
  {
    origin in cfg.allowedOrigins || "*" in cfg.allowedOrigins
  }

  /** The headers beforeSendResponse writes, by name. */
  function CorsHeaders(cfg: CorsConfig, origin: string): (h: map<string, string>)
    ensures ALLOW_ORIGIN in h <==> OriginAllowed(cfg, origin)
    ensures ALLOW_ORIGIN in h ==> h[ALLOW_ORIGIN] == origin
    ensures h.Keys - {ALLOW_ORIGIN} == {ALLOW_CREDENTIALS, ALLOW_METHODS, ALLOW_HEADERS, MAX_AGE}
    ensures h[ALLOW_CREDENTIALS] == (if cfg.allowCredentials then "true" else "false")
    ensures h[ALLOW_METHODS] == Join(cfg.allowedMethods) && h[ALLOW_HEADERS] == Join(cfg.allowedHeaders)
    ensures h[MAX_AGE] == "86400"
  {
    var always := map[
      ALLOW_CREDENTIALS := if cfg.allowCredentials then "true" else "false",
      ALLOW_METHODS := Join(cfg.allowedMethods),
      ALLOW_HEADERS := Join(cfg.allowedHeaders),
      MAX_AGE := "86400"
    ];
    if OriginAllowed(cfg, origin) then always[ALLOW_ORIGIN := origin] else always
  }

  class HttpResponse {
    var status: int
    var content: string
    var headers: map<string, string>

    constructor (status: int, content: string, headers: map<string, string>)
      ensures this.status == status && this.content == content && this.headers == headers
    {
      this.status := status;
      this.content := content;
      this.headers := headers;
    }

    /** setHeader: the named header now has this value, replacing any earlier one. */
    method SetHeader(name: string, value: string)
      modifies this`headers
      ensures headers == old(headers)[name := value]
    {
      headers := headers[name := value];
    }

    /**
     * beforeSendResponse: sets the CORS headers one by one, over whatever the
     * response already carried, and turns an OPTIONS request's response
     * into an empty 204; any other response keeps its status and content.
     */
    method BeforeSendResponse(cfg: CorsConfig, request: Request)
      modifies this
      ensures headers == WithCorsHeaders(old(headers), cfg, request.origin)
      ensures request.httpMethod == "OPTIONS" ==> status == 204 && content == ""
      ensures request.httpMethod != "OPTIONS" ==> status == old(status) && content == old(content)
    {
      var origin := request.origin;
      if origin in cfg.allowedOrigins || "*" in cfg.allowedOrigins {
        SetHeader(ALLOW_ORIGIN, origin);
      }
      SetHeader(ALLOW_CREDENTIALS, if cfg.allowCredentials then "true" else "false");
      SetHeader(ALLOW_METHODS, Join(cfg.allowedMethods));
      SetHeader(ALLOW_HEADERS, Join(cfg.allowedHeaders));
      SetHeader(MAX_AGE, "86400");
      if request.httpMethod == "OPTIONS" {
        status := 204;
        content := "";
      }
    }
  }

  /** The response headers after the five writes, in the order the middleware makes them. */
  function WithCorsHeaders(prior: map<string, string>, cfg: CorsConfig, origin: string): map<string, string>
  {
    var withOrigin := if OriginAllowed(cfg, origin) then prior[ALLOW_ORIGIN := origin] else prior;
    withOrigin[ALLOW_CREDENTIALS := if cfg.allowCredentials then "true" else "false"]
              [ALLOW_METHODS := Join(cfg.allowedMethods)]
              [ALLOW_HEADERS := Join(cfg.allowedHeaders)]
              [MAX_AGE := "86400"]
  }

  /**
   * The writes amount to laying the CORS headers over the prior ones: every
   * CORS header takes its computed value and every other header is kept.
   */
  lemma WithCorsHeadersMerge(prior: map<string, string>, cfg: CorsConfig, origin: string)
    ensures WithCorsHeaders(prior, cfg, origin) == prior + CorsHeaders(cfg, origin)
  {
    var a, b := WithCorsHeaders(prior, cfg, origin), prior + CorsHeaders(cfg, origin);
    assert a.Keys == b.Keys;
    forall k | k in a.Keys ensures a[k] == b[k] {
    }
  }

  /** Headers the middleware does not write keep the value they had. */
  lemma OtherHeadersKept(prior: map<string, string>, cfg: CorsConfig, origin: string, name: string)
    requires name in prior && name !in {ALLOW_ORIGIN, ALLOW_CREDENTIALS, ALLOW_METHODS, ALLOW_HEADERS, MAX_AGE}
    ensures name in prior + CorsHeaders(cfg, origin) && (prior + CorsHeaders(cfg, origin))[name] == prior[name]
  {
  }

  /**
   * A wildcard in the list does not send "*": the header echoes whatever
   * Origin the request carried, the empty string when it carried none.
   */
  lemma WildcardEchoesOrigin(cfg: CorsConfig, origin: string)
    requires "*" in cfg.allowedOrigins
    ensures CorsHeaders(cfg, origin)[ALLOW_ORIGIN] == origin
  {
  }

  /** With the default configuration only the two listed origins get the header. */
  lemma DefaultOrigins(origin: string)
    ensures ALLOW_ORIGIN in CorsHeaders(DefaultCors, origin) <==>
      origin == "http://localhost:3000" || origin == "https://tahmin1x2.com"
    ensures CorsHeaders(DefaultCors, origin)[ALLOW_CREDENTIALS] == "true"
  {
  }

  /**
   * Join writes every item in order with ", " between them: its length is
   * the items' lengths plus two per separator.
   */
  lemma {:induction false} JoinLength(items: seq<string>)
    ensures |Join(items)| == SumLengths(items) + (if items == [] then 0 else 2 * (|items| - 1))
    decreases |items|
  {
    if |items| > 1 {
      JoinLength(items[1..]);
    }
  }

  function SumLengths(items: seq<string>): nat
  {
    if items == [] then 0 else |items[0]| + SumLengths(items[1..])
  }
}
