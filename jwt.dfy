/**
 * JwtService.php, extractTokenFromHeader only: the bearer token of an
 * Authorization header, found by the case-insensitive PCRE pattern
 * `Bearer\s+(.*)$` and returned as its capture, or null.
 *
 * PCRE semantics modelled: the match starts at the leftmost position that
 * can match; `\s` is space, tab, line feed, vertical tab, form feed or
 * carriage return; `.` is any character but a line feed; `$` (without the
 * multiline flag) matches at the end or just before a final line feed.
 * Greedy `\s+` gives back nothing a later part could use, because `.*`
 * cannot cross a line feed and `$` only sits at the end, so at each start
 * position the match takes the whole whitespace run.
 */
module Jwt {
  import opened Common

  const KEYWORD := "bearer"

  predicate IsSpace(c: char)
  {
    c == ' ' || c == '\t' || c == '\n' || c == '\U{000B}' || c == '\U{000C}' || c == '\r'
  }

  /** ASCII case folding, as the /i flag applies it without the u flag. */
  function Lower(c: char): char
  {
    if 'A' <= c <= 'Z' then (c as int + 32) as char else c
  }

  /** Six characters that spell the keyword in any letter case. */
  predicate KeywordAt(h: string, p: nat)
  {
    p + |KEYWORD| <= |h| && forall j :: 0 <= j < |KEYWORD| ==> Lower(h[p + j]) == KEYWORD[j]
  }

  /** The length of the whitespace run starting at index q. */
  function SpaceRun(h: string, q: nat): (n: nat)
    requires q <= |h|
    ensures q + n <= |h|
    ensures forall j :: q <= j < q + n ==> IsSpace(h[j])
    ensures q + n == |h| || !IsSpace(h[q + n])
    decreases |h| - q
  {
    if q < |h| && IsSpace(h[q]) then 1 + SpaceRun(h, q + 1) else 0
  }

  /** `(.*)$` on what follows the whitespace: the text before a final line feed. */
  function CaptureRest(rest: string): Option<string>
  {
    if '\n' !in rest then Some(rest)
    else if rest[|rest| - 1] == '\n' && '\n' !in rest[..|rest| - 1] then Some(rest[..|rest| - 1])
    else None
  }

  /** The capture of a match starting at p, if one does. */
  function MatchAt(h: string, p: nat): Option<string>
  {
    if KeywordAt(h, p) && p + 6 < |h| && IsSpace(h[p + 6]) then
      CaptureRest(h[p + 6 + SpaceRun(h, p + 6)..])
    else None
  }

  /** The matcher of a header: the capture of a match at each start position. */
  function Matcher(h: string): nat -> Option<string>
  {
    (p: nat) => MatchAt(h, p)
  }

  /** The value of the leftmost position in [p, end) where f succeeds. */
  function Leftmost(f: nat -> Option<string>, p: nat, end: nat): Option<string>
    decreases end - p
  {
    if p >= end then None
    else if f(p).Some? then f(p)
    else Leftmost(f, p + 1, end)
  }

  /** extractTokenFromHeader: the capture of the leftmost match, or None (null). */
  function ExtractTokenFromHeader(authHeader: string): Option<string>
  {
    Leftmost(Matcher(authHeader), 0, |authHeader|)
  }

  /** A success at m with none before it is what the search finds. */
  lemma {:induction false} LeftmostAt(f: nat -> Option<string>, p: nat, m: nat, end: nat)
    requires p <= m < end && f(m).Some?
    requires forall q: nat :: p <= q < m ==> f(q).None?
    ensures Leftmost(f, p, end) == f(m)
    decreases m - p
  {
    if p < m {
      LeftmostAt(f, p + 1, m, end);
    }
  }

  /** The search fails iff no position in range succeeds. */
  lemma {:induction false} LeftmostNone(f: nat -> Option<string>, p: nat, end: nat)
    ensures Leftmost(f, p, end).None? <==> forall q: nat :: p <= q < end ==> f(q).None?
    decreases end - p
  {
    if p < end {
      LeftmostNone(f, p + 1, end);
    }
  }

  /** A found value comes from a succeeding position with no success before it. */
  lemma {:induction false} LeftmostFound(f: nat -> Option<string>, p: nat, end: nat)
    requires Leftmost(f, p, end).Some?
    ensures exists q: nat :: (p <= q < end && Leftmost(f, p, end) == f(q) &&
      forall r: nat :: p <= r < q ==> f(r).None?)
    decreases end - p
  {
    if f(p).Some? {
      assert forall r: nat :: p <= r < p ==> f(r).None?;
    } else {
      LeftmostFound(f, p + 1, end);
    }
  }

  /**
   * A keyword at the very start, any non-empty whitespace run, then a token
   * that has no line feed and does not begin with whitespace: the token.
   */
  lemma BearerToken(keyword: string, spaces: string, token: string)
    requires |keyword| == 6 && forall j :: 0 <= j < 6 ==> Lower(keyword[j]) == KEYWORD[j]
    requires |spaces| > 0 && forall j :: 0 <= j < |spaces| ==> IsSpace(spaces[j])
    requires '\n' !in token && (token == [] || !IsSpace(token[0]))
    ensures ExtractTokenFromHeader(keyword + spaces + token) == Some(token)
  {
    var h := keyword + spaces + token;
    assert KeywordAt(h, 0) by {
      forall j | 0 <= j < 6 ensures Lower(h[j]) == KEYWORD[j] {
        assert h[j] == keyword[j];
      }
    }
    SpaceRunOver(h, 6, spaces, token);
    assert h[6 + |spaces|..] == token;
  }

  lemma {:induction false} SpaceRunOver(h: string, q: nat, spaces: string, token: string)
    requires q + |spaces| + |token| == |h| && h[q..] == spaces + token
    requires forall j :: 0 <= j < |spaces| ==> IsSpace(spaces[j])
    requires token == [] || !IsSpace(token[0])
    ensures SpaceRun(h, q) == |spaces|
    decreases |spaces|
  {
    if spaces != [] {
      assert h[q] == spaces[0];
      assert h[q + 1..] == spaces[1..] + token;
      SpaceRunOver(h, q + 1, spaces[1..], token);
    } else {
      assert h[q..] == token;
      if q < |h| {
        assert h[q] == token[0];
      }
    }
  }

  /** "Bearer <tok>" yields tok, and "bearer" in any case is the same keyword. */
  lemma BearerExamples()
    ensures ExtractTokenFromHeader("Bearer abc.def") == Some("abc.def")
    ensures ExtractTokenFromHeader("BEARER abc") == Some("abc")
  {
    BearerToken("Bearer", " ", "abc.def");
    assert "Bearer" + " " + "abc.def" == "Bearer abc.def";
    BearerToken("BEARER", " ", "abc");
    assert "BEARER" + " " + "abc" == "BEARER abc";
  }

  /** The whole whitespace run after the keyword is dropped, whatever it is made of. */
  lemma WhitespaceRunDropped()
    ensures ExtractTokenFromHeader("bearer \t  abc") == Some("abc")
  {
    BearerToken("bearer", " \t  ", "abc");
    assert "bearer" + " \t  " + "abc" == "bearer \t  abc";
  }

  /** A keyword followed only by whitespace yields the empty token. */
  lemma KeywordOnlyGivesEmptyToken()
    ensures ExtractTokenFromHeader("Bearer ") == Some("")
  {
    BearerToken("Bearer", " ", "");
    assert "Bearer" + " " + "" == "Bearer ";
  }

  /** Later keywords are part of the token. */
  lemma LaterKeywordsKept()
    ensures ExtractTokenFromHeader("Bearer x Bearer y") == Some("x Bearer y")
  {
    BearerToken("Bearer", " ", "x Bearer y");
    assert "Bearer" + " " + "x Bearer y" == "Bearer x Bearer y";
  }

  /**
   * The pattern is unanchored: text before the first keyword-and-whitespace
   * is skipped, and the capture runs on to the end of the header.
   */
  lemma PrefixIgnored(prefix: string, spaces: string, token: string)
    requires |spaces| > 0 && forall j :: 0 <= j < |spaces| ==> IsSpace(spaces[j])
    requires '\n' !in token && (token == [] || !IsSpace(token[0]))
    requires forall p :: 0 <= p < |prefix| ==> MatchAt(prefix + "Bearer" + spaces + token, p).None?
    ensures ExtractTokenFromHeader(prefix + "Bearer" + spaces + token) == Some(token)
  {
    var h := prefix + "Bearer" + spaces + token;
    var m := |prefix|;
    assert KeywordAt(h, m) by {
      forall j | 0 <= j < 6 ensures Lower(h[m + j]) == KEYWORD[j] {
        assert h[m + j] == "Bearer"[j];
      }
    }
    assert h[m + 6..] == spaces + token;
    SpaceRunOver(h, m + 6, spaces, token);
    assert h[m + 6 + |spaces|..] == token;
    LeftmostAt(Matcher(h), 0, m, |h|);
  }

  /** A header with no keyword followed by whitespace yields None. */
  lemma NoKeywordNoToken(h: string)
    requires forall p :: 0 <= p < |h| ==> !(KeywordAt(h, p) && p + 6 < |h| && IsSpace(h[p + 6]))
    ensures ExtractTokenFromHeader(h) == None
  {
    LeftmostNone(Matcher(h), 0, |h|);
  }

  predicate IsSuffix(t: string, h: string)
  {
    |t| <= |h| && h[|h| - |t|..] == t
  }

  /**
   * Whatever is returned follows a keyword and whitespace in the header,
   * holds no line feed, does not begin with whitespace, and is the
   * header's tail, before at most one final line feed.
   */
  lemma TokenShape(h: string)
    requires ExtractTokenFromHeader(h).Some?
    ensures var t := ExtractTokenFromHeader(h).value;
      '\n' !in t && (t == [] || !IsSpace(t[0])) && (IsSuffix(t, h) || IsSuffix(t + "\n", h)) &&
      exists p :: 0 <= p < |h| && KeywordAt(h, p) && p + 6 < |h| && IsSpace(h[p + 6])
  {
    LeftmostFound(Matcher(h), 0, |h|);
    var p: nat :| p < |h| && ExtractTokenFromHeader(h) == Matcher(h)(p);
    CaptureShape(h, p);
  }

  /** The capture of one match: the tail after the whitespace run, less a final line feed. */
  lemma CaptureShape(h: string, p: nat)
    requires MatchAt(h, p).Some?
    ensures var t := MatchAt(h, p).value;
      '\n' !in t && (t == [] || !IsSpace(t[0])) && (IsSuffix(t, h) || IsSuffix(t + "\n", h)) &&
      KeywordAt(h, p) && p + 6 < |h| && IsSpace(h[p + 6])
  {
    var q := p + 6 + SpaceRun(h, p + 6);
    var rest := h[q..];
    var t := MatchAt(h, p).value;
    if '\n' in rest {
      assert rest == t + "\n";
    } else {
      assert t == rest;
    }
    if t != [] {
      assert t[0] == h[q];
    }
  }
}
