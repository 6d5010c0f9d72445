/**
 * The bearer-token gate in front of every protected route, and its ordering
 * with body validation on POST and PUT routes. Signing and verifying tokens
 * is the `jsonwebtoken` library's business; here it is a pair of functions
 * supplied from outside (a token that is malformed, badly signed or older
 * than 24 hours is one that `verify` maps to `None`).
 */
module Auth {
  import opened Lists
  import opened Http

  /** The payload a token carries: `{ id, email, role }`. */
  datatype Claims = Claims(id: string, email: string, role: string)

  datatype Jwt = Jwt(verify: string -> Option<Claims>, sign: Claims -> string)

  /** The outcome of a route's guards: the request goes on, or this response ends it. */
  datatype Gate = Admit(claims: Claims) | Refuse(response: Response)

  /** The text before the first space (all of `s` when it has none). */
  function UpToSpace(s: string): (r: string)
    ensures r <= s
    ensures ' ' !in r
    ensures |r| < |s| ==> s[|r|] == ' '
  {
    if s == [] || s[0] == ' ' then [] else [s[0]] + UpToSpace(s[1..])
  }

  /** The field before a space, or before the end, is read back whole. */
  lemma {:induction false} UpToSpaceStopsAtSpace(a: string, rest: string)
    requires ' ' !in a
    requires rest == [] || rest[0] == ' '
    ensures UpToSpace(a + rest) == a
  {
    if a != [] {
      assert (a + rest)[1..] == a[1..] + rest;
      UpToSpaceStopsAtSpace(a[1..], rest);
    }
  }

  /** `h` is `a`, a space, the field `t` and a tail that is empty or starts a further field. */
  ghost predicate SecondFieldIs(h: string, a: string, t: string, b: string) {
    h == a + " " + t + b && ' ' !in a && (b == [] || b[0] == ' ')
  }

  /**
   * `authHeader && authHeader.split(' ')[1]`, kept only when truthy: the
   * second space-separated field of the Authorization header, if non-empty.
   */
  function BearerToken(header: Option<string>): (t: Option<string>)
    ensures t.Some? ==> t.value != "" && ' ' !in t.value
    ensures t.Some? ==> header.Some? && exists a, b :: SecondFieldIs(header.value, a, t.value, b)
    ensures header.None? || ' ' !in header.value ==> t.None?
  {
    if header.None? then None
    else
      var h := header.value;
      var scheme := UpToSpace(h);
      if |scheme| == |h| then None
      else
        var rest := h[|scheme| + 1..];
        var token := UpToSpace(rest);
        if token == "" then None
        else
          SecondField(h, scheme, rest, token);
          assert SecondFieldIs(h, scheme, token, rest[|token|..]);
          Some(token)
  }

  /** A header with a space is its first field, that space, its second field and what follows. */
  lemma SecondField(h: string, scheme: string, rest: string, token: string)
    requires scheme <= h && |scheme| < |h| && h[|scheme|] == ' '
    requires rest == h[|scheme| + 1..] && token <= rest
    ensures h == scheme + " " + token + rest[|token|..]
  {
    assert h == h[..|scheme|] + [h[|scheme|]] + rest;
    assert rest == token + rest[|token|..];
  }

  /**
   * The header a client builds, `Bearer ${token}`, yields exactly that token
   * back, whatever follows it after a further space; a header whose second
   * field is empty yields none.
   */
  lemma BearerTokenRoundTrip(scheme: string, token: string, rest: string)
    requires ' ' !in scheme && ' ' !in token
    requires rest == [] || rest[0] == ' '
    ensures BearerToken(Some(scheme + " " + token + rest)) == if token == "" then None else Some(token)
  {
    var h := scheme + " " + token + rest;
    UpToSpaceStopsAtSpace(scheme, " " + token + rest);
    assert h == scheme + (" " + token + rest);
    assert h[|scheme| + 1..] == token + rest;
    UpToSpaceStopsAtSpace(token, rest);
  }

  /** `authenticateToken`: 401 without a token, 403 when it does not verify. */
  function Authenticate(jwt: Jwt, header: Option<string>): (g: Gate)
    ensures g.Refuse? <==> BearerToken(header).None? || jwt.verify(BearerToken(header).value).None?
    ensures g.Refuse? && BearerToken(header).None? ==>
      g.response == Response(UNAUTHORIZED, Message("Access token required"))
    ensures g.Refuse? && BearerToken(header).Some? ==>
      g.response == Response(FORBIDDEN, Message("Invalid or expired token"))
    ensures g.Admit? ==> jwt.verify(BearerToken(header).value) == Some(g.claims)
  {
    match BearerToken(header)
    case None => Refuse(Response(UNAUTHORIZED, Message("Access token required")))
    case Some(token) =>
      match jwt.verify(token)
      case None => Refuse(Response(FORBIDDEN, Message("Invalid or expired token")))
      case Some(claims) => Admit(claims)
  }

  /**
   * The guards of a POST or PUT route: `handleValidationErrors` runs before
   * `authenticateToken`, so a bad body is answered with 400 whatever the
   * Authorization header holds.
   */
  function Guard(errors: seq<string>, jwt: Jwt, header: Option<string>): (g: Gate)
    ensures errors != [] ==> g == Refuse(Response(BAD_REQUEST, FieldErrors(errors)))
    ensures errors == [] ==> g == Authenticate(jwt, header)
  {
    if errors != [] then Refuse(Response(BAD_REQUEST, FieldErrors(errors)))
    else Authenticate(jwt, header)
  }

  /** A request without a bearer token never passes a protected route's guards. */
  lemma NoHeaderIsUnauthorized(jwt: Jwt, errors: seq<string>, header: Option<string>)
    requires header.None? || ' ' !in header.value
    ensures Guard(errors, jwt, header).Refuse?
    ensures Guard(errors, jwt, header).response.status ==
      if errors == [] then UNAUTHORIZED else BAD_REQUEST
  {
  }
}
