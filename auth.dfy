/** `requireApiKey`, the bearer-secret middleware of
    server/src/middleware/auth.ts. server/src/index.ts does not mount it on
    any router, so the model states what it decides for a request, not which
    routes it protects. */
module Auth {
  import opened Common

  const BearerPrefix: string := "Bearer "

  /** What the middleware does with a request: pass it on (`next()`), or
      answer it with a status and an error message. */
  datatype Decision = Next | Deny(status: int, error: string)

  /** `requireApiKey`: `authorization` is the request's Authorization header
      and `apiSecret` the configured API_SECRET, each possibly absent. */
  function RequireApiKey(authorization: Option<string>, apiSecret: Option<string>): (d: Decision)
    // No usable secret: the server is misconfigured and nothing gets through.
    ensures !Truthy(apiSecret) ==> d == Deny(500, "Server misconfigured")
    // A secret, but no "Bearer " header.
    ensures Truthy(apiSecret) && !(authorization.Some? && StartsWith(authorization.value, BearerPrefix))
      ==> d == Deny(401, "Missing authorization")
    // A "Bearer " header whose token is not the secret.
    ensures Truthy(apiSecret) && authorization.Some? && StartsWith(authorization.value, BearerPrefix)
      && authorization.value[7..] != apiSecret.value
      ==> d == Deny(401, "Invalid authorization")
    // The request passes exactly when the header is "Bearer " followed by the secret.
    ensures d.Next? <==> Truthy(apiSecret) && authorization == Some(BearerPrefix + apiSecret.value)
  {
    if !Truthy(apiSecret) then Deny(500, "Server misconfigured")
    else if !(authorization.Some? && StartsWith(authorization.value, BearerPrefix)) then
      Deny(401, "Missing authorization")
    else
      var header := authorization.value;
      var token := header[7..];
      assert header == header[..7] + token;
      if token != apiSecret.value then Deny(401, "Invalid authorization")
      else Next
  }
}
