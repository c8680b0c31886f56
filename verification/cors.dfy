/** The CORS rule of middleware/corsMiddleware.js: the allowlist read from
    CLIENT_URL (comma-separated, each piece trimmed) or a default pair, and
    the `origin` callback's allow/deny decision. The environment variable is
    a parameter. */
module Cors {
  import opened Wrappers
  import opened Text

  const DefaultOrigins: seq<string> := ["http://localhost:5173", "http://localhost:3000"]

  /** Each piece trimmed, in order: `.map((url) => url.trim())`. */
  function TrimAll(pieces: seq<string>): (r: seq<string>)
    ensures |r| == |pieces|
    ensures forall k :: 0 <= k < |r| ==> r[k] == Trim(pieces[k])
  {
    seq(|pieces|, k requires 0 <= k < |pieces| => Trim(pieces[k]))
  }

  /** `allowedOrigins`: CLIENT_URL unset or empty (falsy) gives the default
      pair; otherwise its comma-separated pieces, trimmed. */
  function AllowedOrigins(clientUrl: Option<string>): (r: seq<string>)
    ensures clientUrl.None? || clientUrl == Some("") ==> r == DefaultOrigins
    ensures clientUrl.Some? && clientUrl.value != "" ==>
      |r| >= 1 && forall k :: 0 <= k < |r| ==> ',' !in r[k] && Trim(r[k]) == r[k]
  {
    match clientUrl
    case None => DefaultOrigins
    case Some(url) =>
      if url == "" then DefaultOrigins
      else
        var pieces := Split(url, ',');
        forall k | 0 <= k < |pieces| ensures Trim(Trim(pieces[k])) == Trim(pieces[k]) && ',' !in Trim(pieces[k]) {
          TrimIdempotent(pieces[k]);
          TrimInside(pieces[k]);
        }
        TrimAll(pieces)
  }

  /** A trimmed piece is a slice of the piece, so it holds no character the
      piece does not. */
  lemma TrimInside(s: string)
    ensures forall c :: c in Trim(s) ==> c in s
  {
    var t := TrimStart(s);
    var r := TrimEnd(t);
    assert forall i :: 0 <= i < |r| ==> r[i] == t[i];
    assert forall i :: 0 <= i < |t| ==> t[i] == s[|s| - |t| + i];
  }

  /** CLIENT_URL written as the comma-join of comma-free pieces gives back
      those pieces, trimmed, in order. */
  lemma AllowedOriginsOfPieces(pieces: seq<string>)
    requires |pieces| >= 1
    requires forall k :: 0 <= k < |pieces| ==> ',' !in pieces[k]
    requires Join(pieces, ',') != ""
    ensures AllowedOrigins(Some(Join(pieces, ','))) == TrimAll(pieces)
  {
    var url := Join(pieces, ',');
    SplitJoin(pieces, ',');
    SetOrigins(url);
  }

  /** A non-empty CLIENT_URL gives its comma-separated pieces, trimmed. */
  lemma SetOrigins(url: string)
    requires url != ""
    ensures AllowedOrigins(Some(url)) == TrimAll(Split(url, ','))
  {
  }

  /** The outcome of the `origin` callback: allowed, or the error. */
  datatype Decision = Allow | Deny(message: string)

  const NotAllowedMessage := "Not allowed by CORS"

  /** A missing or empty origin (falsy) is allowed; otherwise the origin is
      allowed exactly when it equals an allowlist entry character for
      character. */
  function OriginDecision(allowed: seq<string>, origin: Option<string>): (d: Decision)
    ensures origin.None? || origin == Some("") ==> d == Allow
    ensures origin.Some? && origin.value != "" ==> (d == Allow <==> exists k :: 0 <= k < |allowed| && allowed[k] == origin.value)
    ensures d != Allow ==> d == Deny(NotAllowedMessage)
  {
    match origin
    case None => Allow
    case Some(o) =>
      if o == "" || o in allowed then Allow else Deny(NotAllowedMessage)
  }

  /** With CLIENT_URL unset, the two local development origins are allowed
      and an origin that differs only by a trailing slash is not. */
  lemma DefaultDecisions()
    ensures OriginDecision(AllowedOrigins(None), Some("http://localhost:5173")) == Allow
    ensures OriginDecision(AllowedOrigins(None), Some("http://localhost:3000")) == Allow
    ensures OriginDecision(AllowedOrigins(None), Some("http://localhost:3000/")) == Deny(NotAllowedMessage)
  {
    assert DefaultOrigins[0] == "http://localhost:5173";
    assert DefaultOrigins[1] == "http://localhost:3000";
    assert "http://localhost:3000/" != DefaultOrigins[0] && "http://localhost:3000/" != DefaultOrigins[1] by {
      assert |"http://localhost:3000/"| == 22;
    }
  }

  /** The methods the middleware permits. */
  const AllowedMethods: seq<string> := ["GET", "POST", "PUT", "DELETE", "PATCH"]

  /** `PATCH` is permitted, so the order status route passes preflight. */
  lemma PatchPermitted()
    ensures "PATCH" in AllowedMethods && |AllowedMethods| == 5
  {
  }
}
