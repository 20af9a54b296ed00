/**
 * `protectRoute` (server/middleware/auth.js): pick a token from the request
 * (cookie, then a raw `token` header, then `Authorization: Bearer <t>`),
 * verify it, load the user it names without the password, and either pass
 * the request on with `next()` or answer 401 / 404.
 * `jwt.verify` and `User.findById` are collaborators given as functions.
 */
module Auth {
  import opened Wrappers
  import opened Js
  import opened Http

  /** The parts of an Express request the guard reads. */
  datatype Request = Request(
    cookieToken: Option<string>,     // req.cookies?.token
    tokenHeader: Option<string>,     // req.headers.token
    authorization: Option<string>)   // req.headers.authorization

  /** What `jwt.verify(token, secret)` does: returns the payload's `userId`
      (absent when the payload has none) or throws an error with a message. */
  datatype Verification = Decoded(userId: Option<string>) | VerifyError(message: string)

  /** What awaiting `User.findById(id).select("-password")` does. */
  datatype Lookup = Found(record: UserRecord) | NotFound | LookupError(message: string)

  /** The collaborator calls the guard makes, in order. */
  datatype Call = VerifyCall(token: string) | FindCall(userId: Option<string>) | NextCall

  /** The three ways the guard answers a request itself. */
  datatype Rejection = TokenMissing | Threw(message: string) | UserGone

  datatype GuardOutcome = Rejected(reason: Rejection) | Admitted(user: PublicUser)

  const BearerPrefix: string := "Bearer "

  /** The response for a rejection: 401 for a missing token and for anything
      thrown after extraction, 404 for a user that no longer exists. */
  function Reply(reason: Rejection): (r: Response)
    ensures r.cookies == [] && r.body.Failure?
    ensures r.status == 404 <==> reason == UserGone
    ensures r.status == 401 <==> reason != UserGone
    ensures reason == TokenMissing ==> r.body == Failure("Not authorized, token missing")
    ensures reason.Threw? ==> r.body == Failure(reason.message)
    ensures reason == UserGone ==> r.body == Failure("User not found")
  {
    match reason
    case TokenMissing => Response(401, Failure("Not authorized, token missing"), [])
    case Threw(msg) => Response(401, Failure(msg), [])
    case UserGone => Response(404, Failure("User not found"), [])
  }

  /** `authHeader.split(' ')[1]` for a header that starts with "Bearer ". */
  function BearerToken(h: string): Option<string>
  {
    At(Split(h, ' '), 1)
  }

  /** The token the extraction steps settle on, in precedence order. */
  function Candidate(req: Request): Option<string>
  {
    if Truthy(req.cookieToken) then req.cookieToken
    else if Truthy(req.tokenHeader) then req.tokenHeader
    else if Truthy(req.authorization) && StartsWith(req.authorization.value, BearerPrefix) then
      BearerToken(req.authorization.value)
    else None
  }

  /** Lines 8-16: `let token` reassigned through the precedence chain. */
  method ExtractToken(req: Request) returns (token: Option<string>)
    ensures token == Candidate(req)
    ensures Truthy(req.cookieToken) ==> token == req.cookieToken
    ensures !Truthy(req.cookieToken) && Truthy(req.tokenHeader) ==> token == req.tokenHeader
  {
    token := if Truthy(req.cookieToken) then req.cookieToken else None;
    if !Truthy(token) {
      var authHeader := req.authorization;
      var tokenHeader := req.tokenHeader;
      if Truthy(tokenHeader) {
        token := tokenHeader;
      } else if Truthy(authHeader) && StartsWith(authHeader.value, BearerPrefix) {
        token := BearerToken(authHeader.value);
      }
    }
  }

  /** The guard. `calls` lists the collaborator calls in the order made. */
  method ProtectRoute(req: Request, verify: string -> Verification, findById: Option<string> -> Lookup)
    returns (out: GuardOutcome, calls: seq<Call>)
    ensures !Truthy(Candidate(req)) ==> out == Rejected(TokenMissing) && calls == []
    ensures Truthy(Candidate(req)) ==>
      var t := Candidate(req).value;
      match verify(t)
      case VerifyError(msg) =>
        out == Rejected(Threw(msg)) && calls == [VerifyCall(t)]
      case Decoded(uid) =>
        match findById(uid)
        case LookupError(msg) => out == Rejected(Threw(msg)) && calls == [VerifyCall(t), FindCall(uid)]
        case NotFound => out == Rejected(UserGone) && calls == [VerifyCall(t), FindCall(uid)]
        case Found(rec) => out == Admitted(WithoutPassword(rec)) && calls == [VerifyCall(t), FindCall(uid), NextCall]
    ensures out.Admitted? <==> NextCall in calls
    ensures out.Admitted? ==> calls[|calls| - 1] == NextCall && NextCall !in calls[..|calls| - 1]
  {
    calls := [];
    var token := ExtractToken(req);
    if !Truthy(token) {
      return Rejected(TokenMissing), calls;
    }
    calls := calls + [VerifyCall(token.value)];
    var decoded := verify(token.value);
    if decoded.VerifyError? {
      return Rejected(Threw(decoded.message)), calls;
    }
    calls := calls + [FindCall(decoded.userId)];
    var user := findById(decoded.userId);
    match user
    case LookupError(msg) =>
      out := Rejected(Threw(msg));
    case NotFound =>
      out := Rejected(UserGone);
    case Found(rec) =>
      out := Admitted(WithoutPassword(rec));
      calls := calls + [NextCall];
  }

  /** A non-empty cookie token wins, whatever the headers say. */
  lemma CookieWins(req: Request)
    requires Truthy(req.cookieToken)
    ensures Candidate(req) == req.cookieToken
  {
  }

  /** An empty or absent cookie falls through to the headers, and a raw
      `token` header beats `Authorization`. */
  lemma TokenHeaderBeatsAuthorization(cookie: Option<string>, t: string, auth: Option<string>)
    requires !Truthy(cookie) && t != ""
    ensures Candidate(Request(cookie, Some(t), auth)) == Some(t)
  {
  }

  /** Without "Bearer " at its start, `Authorization` yields no token. */
  lemma AuthorizationNeedsBearer(cookie: Option<string>, header: Option<string>, h: string)
    requires !Truthy(cookie) && !Truthy(header) && !StartsWith(h, BearerPrefix)
    ensures Candidate(Request(cookie, header, Some(h))) == None
  {
  }

  /** `Bearer <t>` yields `t` when `t` has no space. */
  lemma {:induction false} BearerPlainToken(t: string)
    requires ' ' !in t
    ensures StartsWith(BearerPrefix + t, BearerPrefix)
    ensures BearerToken(BearerPrefix + t) == Some(t)
  {
    assert BearerPrefix + t == "Bearer" + [' '] + t;
    SplitAfterField("Bearer", ' ', t);
    SplitWithoutSeparator(t, ' ');
  }

  /** Only the first word after "Bearer " is taken: `Bearer a b` yields `a`. */
  lemma {:induction false} BearerFirstWordOnly(t: string, u: string)
    requires ' ' !in t
    ensures BearerToken(BearerPrefix + t + " " + u) == Some(t)
  {
    assert BearerPrefix + t + " " + u == "Bearer" + [' '] + (t + [' '] + u);
    SplitAfterField("Bearer", ' ', t + [' '] + u);
    SplitAfterField(t, ' ', u);
  }

  /** `Bearer  x` (two spaces) yields the empty token, so the request is
      rejected as having no token. */
  lemma {:induction false} BearerDoubleSpaceIsMissing(x: string)
    ensures BearerToken("Bearer  " + x) == Some("")
    ensures !Truthy(Candidate(Request(None, None, Some("Bearer  " + x))))
  {
    assert "Bearer  " + x == "Bearer" + [' '] + ("" + [' '] + x);
    SplitAfterField("Bearer", ' ', "" + [' '] + x);
    SplitAfterField("", ' ', x);
    assert StartsWith("Bearer  " + x, BearerPrefix);
  }

  /** Whatever a header-borne token is, the guard only ever verifies the text
      that stood between the first and the second space of the header. */
  lemma {:induction false} BearerTokenIsAField(h: string)
    requires StartsWith(h, BearerPrefix)
    ensures BearerToken(h).Some?
    ensures ' ' !in BearerToken(h).value
  {
    var rest := h[|BearerPrefix|..];
    assert h == "Bearer" + [' '] + rest;
    SplitAfterField("Bearer", ' ', rest);
    SplitPiecesFree(h, ' ');
  }
}
