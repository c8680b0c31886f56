/** Bearer credentials: how every guard and `/me` route reads the token out of
    the Authorization header, and the four ways `jwt.verify` can end. Signing
    and verification themselves are not modelled: a token is represented by
    the claims it carries, and verification is a function supplied by the
    caller. */
module Bearer {
  import opened Wrappers
  import opened Text

  /** The payload every token in the system is signed with: `{ id, role }`. */
  datatype Claims = Claims(id: string, role: string)

  /** Outcome of `jwt.verify(token, secret)`: the decoded claims, or the
      error it throws, by name. */
  datatype Verdict =
    | Verified(claims: Claims)
    | Malformed     // JsonWebTokenError
    | Expired       // TokenExpiredError
    | Faulted       // any other error

  /** `req.headers.authorization?.split(' ')[1]`, treated as missing when it is
      undefined or empty (both falsy). The scheme word is not checked. */
  function BearerToken(header: Option<string>): (t: Option<string>)
    ensures t.Some? ==> t.value != "" && ' ' !in t.value
    ensures header.None? ==> t.None?
  {
    match header
    case None => None
    case Some(h) =>
      var parts := Split(h, ' ');
      if |parts| >= 2 && parts[1] != "" then Some(parts[1]) else None
  }

  /** Every header is the space-join of space-free pieces; the token is the
      second piece exactly when there is one and it is non-empty. In
      particular `"Bearer " + t` yields `t`, while a header without a space,
      `"Bearer "` and `"Bearer  t"` (two spaces) yield no token. */
  lemma BearerTokenOfPieces(parts: seq<string>)
    requires |parts| >= 1
    requires forall k :: 0 <= k < |parts| ==> ' ' !in parts[k]
    ensures BearerToken(Some(Join(parts, ' '))) ==
              if |parts| >= 2 && parts[1] != "" then Some(parts[1]) else None
  {
    SplitJoin(parts, ' ');
  }

  /** The usual header `"Bearer <token>"` gives back the token. */
  lemma BearerRoundTrip(scheme: string, token: string)
    requires ' ' !in scheme && ' ' !in token && token != ""
    ensures BearerToken(Some(scheme + " " + token)) == Some(token)
  {
    var parts := [scheme, token];
    assert Join(parts, ' ') == scheme + " " + token by {
      assert Join(parts[1..], ' ') == token;
    }
    BearerTokenOfPieces(parts);
  }

  /** Why a credential was refused before any store was consulted. */
  datatype AuthFailure =
    | NoToken        // header absent, without a second piece, or empty piece
    | InvalidToken   // JsonWebTokenError
    | TokenExpired   // TokenExpiredError
    | VerifyFault    // any other error thrown by verification

  /** Token extraction followed by verification, the prefix shared by
      `protectAdmin`, `protectUser` and the three `/me` handlers. */
  function Authenticate(header: Option<string>, verify: string -> Verdict): (r: Result<Claims, AuthFailure>)
    ensures BearerToken(header).None? <==> r == Err(NoToken)
    ensures r.Ok? <==> BearerToken(header).Some? && verify(BearerToken(header).value).Verified?
    ensures r.Ok? ==> r.value == verify(BearerToken(header).value).claims
    ensures BearerToken(header).Some? ==>
      var v := verify(BearerToken(header).value);
      && (v.Malformed? <==> r == Err(InvalidToken))
      && (v.Expired? <==> r == Err(TokenExpired))
      && (v.Faulted? <==> r == Err(VerifyFault))
  {
    match BearerToken(header)
    case None => Err(NoToken)
    case Some(token) =>
      match verify(token)
      case Verified(claims) => Ok(claims)
      case Malformed => Err(InvalidToken)
      case Expired => Err(TokenExpired)
      case Faulted => Err(VerifyFault)
  }

  /** Status code of a refused credential in the handlers that distinguish the
      errors: 401 for missing, malformed or expired tokens, 500 otherwise. */
  function FailureCode(f: AuthFailure): (code: int)
    ensures code == 500 <==> f.VerifyFault?
    ensures code == 401 <==> !f.VerifyFault?
  {
    if f.VerifyFault? then 500 else 401
  }

  /** Message of a refused credential; the missing-token wording differs per
      handler and is passed in. */
  function FailureMessage(f: AuthFailure, noToken: string): string
  {
    match f
    case NoToken => noToken
    case InvalidToken => "Invalid token"
    case TokenExpired => "Token expired"
    case VerifyFault => "Server error"
  }
}
