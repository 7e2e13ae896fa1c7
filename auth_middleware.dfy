/**
 * The bearer-token check in front of the order routes
 * (src/middleware/authMiddleware.js): the request passes with the token
 * when its Authorization header is "Bearer " followed by a non-empty
 * token; otherwise it is answered with 401 and one of two messages.
 */
module AuthMiddleware {
  import opened Wrappers
  import opened JsStrings

  /** The scheme prefix the header must start with, space included. */
  const BearerPrefix: string := "Bearer "

  const MissingHeaderMessage: string := "Missing or invalid Authorization header"
  const EmptyTokenMessage: string := "Invalid authentication token"

  /** The request is answered with 401 and `message`, or passed on with `token`. */
  datatype AuthOutcome = Unauthorized(message: string) | Authenticated(token: string)

  /**
   * `authenticate(req, res, next)` for the header `authorization` (absent
   * when the request has none): an absent or empty header, or one without
   * the exact prefix "Bearer ", is refused first; then everything after the
   * seven prefix characters is the token, and an empty token is refused.
   */
  function Authenticate(authorization: Option<string>): (r: AuthOutcome)
    ensures r.Authenticated? <==>
      authorization.Some? && StartsWith(authorization.value, BearerPrefix) && |authorization.value| > |BearerPrefix|
    ensures r.Authenticated? ==> r.token != [] && BearerPrefix + r.token == authorization.value
    ensures r.Unauthorized? ==>
      r.message == (if authorization.Some? && StartsWith(authorization.value, BearerPrefix)
                    then EmptyTokenMessage else MissingHeaderMessage)
  {
    if authorization.None? || authorization.value == "" || !StartsWith(authorization.value, BearerPrefix) then
      Unauthorized(MissingHeaderMessage)
    else
      var token := authorization.value[7..];
      assert BearerPrefix + token == authorization.value;
      if token == "" then Unauthorized(EmptyTokenMessage)
      else Authenticated(token)
  }

  /**
   * A header built from a non-empty token gives that token back; only the
   * prefix is checked, so a token of blanks passes too.
   */
  lemma BearerRoundTrip(token: string)
    requires token != []
    ensures Authenticate(Some(BearerPrefix + token)) == Authenticated(token)
  {
    var h := BearerPrefix + token;
    assert h[..|BearerPrefix|] == BearerPrefix;
    assert h[7..] == token;
  }

  /** "Bearer " with nothing after it gets the empty-token message. */
  lemma PrefixAloneRefused()
    ensures Authenticate(Some(BearerPrefix)) == Unauthorized(EmptyTokenMessage)
  {
    assert BearerPrefix[..|BearerPrefix|] == BearerPrefix;
  }

  /** The scheme is matched case-sensitively: "bearer " is refused as a missing header. */
  lemma LowerCaseSchemeRefused(token: string)
    ensures Authenticate(Some("bearer " + token)) == Unauthorized(MissingHeaderMessage)
  {
    var h := "bearer " + token;
    assert h[0] != BearerPrefix[0];
  }
}
