/**
 * BaseController.php: the JSON envelopes every controller answers with, and
 * the parameter arithmetic of paginate.
 */
module BaseController {
  import opened Common

  /** A JSON value as the controllers build it; JNull is PHP's null. */
  datatype Json =
    | JNull
    | JBool(b: bool)
    | JInt(i: int)
    | JReal(r: real)
    | JStr(s: string)
    | JList(items: seq<Json>)
    | JObject(fields: seq<(string, Json)>)

  /** A response: its status code and the JSON object sent as content, keys in order. */
  datatype Response = Response(status: int, body: seq<(string, Json)>)

  function Keys(body: seq<(string, Json)>): seq<string>
  {
    if body == [] then [] else [body[0].0] + Keys(body[1..])
  }

  /** The value under a key; the first one wins, as a PHP array has each key once. */
  function Lookup(body: seq<(string, Json)>, key: string): Option<Json>
  {
    if body == [] then None
    else if body[0].0 == key then Some(body[0].1)
    else Lookup(body[1..], key)
  }

  /**
   * sendSuccess: {success: true, message, data?} with the given status; the
   * data key is there exactly when data is not null.
   */
  function SendSuccess(data: Json, message: string, statusCode: int): (r: Response)
    ensures r.status == statusCode
    ensures Lookup(r.body, "success") == Some(JBool(true))
    ensures Lookup(r.body, "message") == Some(JStr(message))
    ensures Lookup(r.body, "data") == (if data == JNull then None else Some(data))
    ensures Lookup(r.body, "errors") == None
    ensures Keys(r.body) == if data == JNull then ["success", "message"] else ["success", "message", "data"]
  {
    var base := [("success", JBool(true)), ("message", JStr(message))];
    EnvelopeFields(base[0], base[1], ("data", data));
    Response(statusCode, if data != JNull then base + [("data", data)] else base)
  }

  /**
   * sendError: {success: false, message, errors?} with the given status; the
   * errors key is there exactly when errors is not null.
   */
  function SendError(message: string, statusCode: int, errors: Json): (r: Response)
    ensures r.status == statusCode
    ensures Lookup(r.body, "success") == Some(JBool(false))
    ensures Lookup(r.body, "message") == Some(JStr(message))
    ensures Lookup(r.body, "errors") == (if errors == JNull then None else Some(errors))
    ensures Lookup(r.body, "data") == None
    ensures Keys(r.body) == if errors == JNull then ["success", "message"] else ["success", "message", "errors"]
  {
    var base := [("success", JBool(false)), ("message", JStr(message))];
    EnvelopeFields(base[0], base[1], ("errors", errors));
    Response(statusCode, if errors != JNull then base + [("errors", errors)] else base)
  }

  /** Keys and lookups of the two- and three-entry objects the envelopes are. */
  lemma EnvelopeFields(a: (string, Json), b: (string, Json), c: (string, Json))
    requires a.0 != b.0 && a.0 != c.0 && b.0 != c.0
    ensures Keys([a, b]) == [a.0, b.0] && Keys([a, b] + [c]) == [a.0, b.0, c.0]
    ensures forall k :: (Lookup([a, b], k) ==
      if k == a.0 then Some(a.1) else if k == b.0 then Some(b.1) else None)
    ensures forall k :: (Lookup([a, b] + [c], k) ==
      if k == a.0 then Some(a.1) else if k == b.0 then Some(b.1) else if k == c.0 then Some(c.1) else None)
  {
    var two, three := [a, b], [a, b] + [c];
    assert two[1..] == [b] && [b][1..] == [];
    assert three[1..] == [b, c] && [b, c][1..] == [c];
    var none: seq<(string, Json)> := [];
    assert [b][1..] == none && [c][1..] == none;
    assert Keys([b]) == [b.0] + Keys(none);
    assert Keys([c]) == [c.0] + Keys(none);
    assert Keys([b, c]) == [b.0, c.0];
    forall k
      ensures Lookup(two, k) == if k == a.0 then Some(a.1) else if k == b.0 then Some(b.1) else None
      ensures Lookup(three, k) ==
        if k == a.0 then Some(a.1) else if k == b.0 then Some(b.1) else if k == c.0 then Some(c.1) else None
    {
      assert Lookup([c], k) == if k == c.0 then Some(c.1) else None;
      assert Lookup([b], k) == if k == b.0 then Some(b.1) else None;
    }
  }

  /** Whether a response is a success envelope. */
  function Succeeded(r: Response): bool
  {
    Lookup(r.body, "success") == Some(JBool(true))
  }

  /** The two envelopes can never be confused: success is true in one and false in the other. */
  lemma EnvelopesDistinct(data: Json, m1: string, c1: int, m2: string, c2: int, errors: Json)
    ensures Succeeded(SendSuccess(data, m1, c1)) && !Succeeded(SendError(m2, c2, errors))
    ensures SendSuccess(data, m1, c1) != SendError(m2, c2, errors)
  {
    assert SendSuccess(data, m1, c1).body[0] != SendError(m2, c2, errors).body[0];
  }

  // ---------------------------------------------------------------------------
  // Pagination
  // ---------------------------------------------------------------------------

  /** pagination.limit and pagination.maxLimit of the configuration. */
  const DEFAULT_LIMIT := 20
  const MAX_LIMIT := 100

  /** What paginate hands back besides the rows, and the offset it queries at. */
  datatype Page = Page(total: nat, page: int, limit: int, pages: int, offset: int)

  /**
   * PHP's ceil of total / limit for a non-zero limit; with a negative limit
   * (nothing rejects one) the quotient is negative.
   */
  function CeilDiv(total: nat, limit: int): int
    requires limit != 0
  {
    if limit > 0 then (total + limit - 1) / limit else -(total / -limit)
  }

  /**
   * paginate's arithmetic: the limit falls back to the default when zero and
   * is capped at the maximum; the page is clamped to at least 1; the offset
   * skips the earlier pages; pages counts the pages needed for total rows.
   */
  function Paginate(total: nat, page: int, limit: int): (p: Page)
    ensures p.total == total
    ensures p.limit == (if limit == 0 then DEFAULT_LIMIT else if limit < MAX_LIMIT then limit else MAX_LIMIT)
    ensures p.limit != 0 && p.limit <= MAX_LIMIT
    ensures p.page == (if page < 1 then 1 else page)
    ensures p.offset == (p.page - 1) * p.limit
    ensures p.limit > 0 ==> p.offset >= 0
  {
    var effectiveLimit := Min(if limit != 0 then limit else DEFAULT_LIMIT, MAX_LIMIT);
    var effectivePage := Max(page, 1);
    var offset := (effectivePage - 1) * effectiveLimit;
    Page(total, effectivePage, effectiveLimit, CeilDiv(total, effectiveLimit), offset)
  }

  function Min(a: int, b: int): int { if a <= b then a else b }
  function Max(a: int, b: int): int { if a >= b then a else b }

  /**
   * For a positive limit, pages is the least page count whose pages hold
   * every row: pages * limit covers total, and one page fewer does not.
   */
  lemma PagesCoverTotal(total: nat, page: int, limit: int)
    requires limit >= 0
    ensures var p := Paginate(total, page, limit);
      p.limit > 0 && p.pages * p.limit >= total &&
      (total > 0 ==> (p.pages - 1) * p.limit < total) && (total == 0 ==> p.pages == 0)
  {
    var p := Paginate(total, page, limit);
    CeilDivPositive(total, p.limit);
  }

  /** The ceiling of a quotient by a positive divisor, stated by multiplication. */
  lemma CeilDivPositive(total: nat, limit: int)
    requires limit > 0
    ensures var c := CeilDiv(total, limit);
      c >= 0 && c * limit >= total && (total > 0 ==> (c - 1) * limit < total) && (total == 0 ==> c == 0)
  {
    var c := CeilDiv(total, limit);
    var n := total + limit - 1;
    assert n == c * limit + n % limit;
    assert 0 <= n % limit < limit;
  }

  /** With a negative limit the page count is the (non-positive) ceiling of the negative quotient. */
  lemma CeilDivNegative(total: nat, limit: int)
    requires limit < 0
    ensures var c := CeilDiv(total, limit);
      c <= 0 && c * limit <= total && (c - 1) * limit > total
  {
    var d := -limit;
    var q := total / d;
    assert total == q * d + total % d;
    assert 0 <= total % d < d;
    var c := CeilDiv(total, limit);
    assert c == -q;
    assert c * limit == q * d;
    assert (c - 1) * limit == q * d + d;
  }

  /** With no rows there are no pages; one row more than a full page needs one page more. */
  lemma PagesExamples(page: int)
    ensures Paginate(0, page, 0).pages == 0
    ensures Paginate(20, page, 0).pages == 1
    ensures Paginate(21, page, 0).pages == 2
    ensures Paginate(250, page, 500).limit == 100 && Paginate(250, page, 500).pages == 3
    ensures Paginate(5, -3, 10) == Page(5, 1, 10, 1, 0)
  {
  }
}
