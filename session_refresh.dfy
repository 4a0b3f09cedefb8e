/** The expiry-with-buffer check and the refresh-or-destroy update that
    app/api/auth/me, app/api/customer and app/api/customer/update each carry a
    copy of. The copies differ in one point: the customer route also stores the
    refreshed id token. */
module SessionRefresh {
  import opened Wrappers
  import opened Session
  import opened ShopifyAuth

  /** Five minutes, in milliseconds. */
  const ExpiryBufferMs: int := 5 * 60 * 1000

  /** `session.expiresAt ? Date.now() > session.expiresAt - 5 * 60 * 1000 : false`.
      An undefined or zero `expiresAt` is falsy and never counts as expired. */
  predicate IsExpired(expiresAt: Option<int>, now: int) {
    expiresAt.Some? && expiresAt.value != 0 && now > expiresAt.value - ExpiryBufferMs
  }

  /** The token counts as expired exactly when less than five minutes remain:
      with five minutes left it is still fresh, one millisecond later it is not. */
  lemma ExpiryBoundary(t: int)
    requires t != 0
    ensures !IsExpired(Some(t), t - ExpiryBufferMs)
    ensures IsExpired(Some(t), t - ExpiryBufferMs + 1)
    ensures forall now :: IsExpired(Some(t), now) <==> t - now < ExpiryBufferMs
    ensures forall now :: !IsExpired(None, now) && !IsExpired(Some(0), now)
  {
  }

  /** Whether the refreshed `id_token` is stored too. */
  datatype IdTokenPolicy = KeepIdToken | ReplaceIdToken

  /** The session after a successful refresh: the new access and refresh tokens,
      the new expiry, and the new id token only under `ReplaceIdToken`. */
  function Refreshed(d: SessionData, t: TokenResponse, now: int, policy: IdTokenPolicy): (r: SessionData)
    ensures r.accessToken == Some(t.access_token) && r.refreshToken == Some(t.refresh_token)
    ensures r.expiresAt == Some(now + t.expires_in * 1000)
    ensures r.idToken == (if policy == ReplaceIdToken then Some(t.id_token) else d.idToken)
    ensures r.customerId == d.customerId
    ensures r.codeVerifier == d.codeVerifier && r.state == d.state && r.nonce == d.nonce
  {
    d.(accessToken := Some(t.access_token),
       refreshToken := Some(t.refresh_token),
       idToken := if policy == ReplaceIdToken then Some(t.id_token) else d.idToken,
       expiresAt := Some(now + t.expires_in * 1000))
  }

  /** The session and its cookie after the step, whether the session survived,
      and the refresh token handed to `refreshAccessToken`, if it was called. */
  datatype RefreshStep = RefreshStep(data: SessionData, stored: SessionData, alive: bool, refreshRequested: Option<string>)

  /** The step for a session whose access token is present; `refresh` is what
      `refreshAccessToken` returns or throws. */
  function Refresh(d: SessionData, stored: SessionData, refresh: Result<TokenResponse, string>,
                   now: int, policy: IdTokenPolicy): (r: RefreshStep)
    // the token endpoint is called exactly for an expired token with a refresh token, and with that token
    ensures r.refreshRequested.Some? <==> IsExpired(d.expiresAt, now) && Truthy(d.refreshToken)
    ensures r.refreshRequested.Some? ==> r.refreshRequested == d.refreshToken
    // without a call nothing changes, even for an expired token
    ensures r.refreshRequested.None? ==> r.data == d && r.stored == stored && r.alive
    // the session dies exactly when the refresh throws, and is then destroyed
    ensures !r.alive <==> r.refreshRequested.Some? && refresh.Err?
    ensures !r.alive ==> r.data == Empty && r.stored == Empty
    // a successful refresh is saved
    ensures r.alive && r.refreshRequested.Some? ==> r.data == Refreshed(d, refresh.value, now, policy) && r.stored == r.data
    ensures d.accessToken.Some? && TemporariesCleared(d) ==> TemporariesCleared(r.data)
  {
    if IsExpired(d.expiresAt, now) && Truthy(d.refreshToken) then
      match refresh
      case Ok(t) =>
        var d' := Refreshed(d, t, now, policy);
        RefreshStep(d', d', true, d.refreshToken)
      case Err(_) => RefreshStep(Empty, Empty, false, d.refreshToken)
    else
      RefreshStep(d, stored, true, None)
  }

  /** The expiry check and refresh block each route runs, acting on the live
      session object. */
  method RefreshIfExpired(session: IronSession, refresh: Result<TokenResponse, string>, now: int, policy: IdTokenPolicy)
    returns (alive: bool, refreshRequested: Option<string>)
    modifies session
    ensures RefreshStep(session.Data(), session.stored, alive, refreshRequested)
         == Refresh(old(session.Data()), old(session.stored), refresh, now, policy)
  {
    var isExpired := IsExpired(session.expiresAt, now);
    if !(isExpired && Truthy(session.refreshToken)) {
      return true, None;
    }
    refreshRequested := session.refreshToken;
    match refresh
    case Ok(newTokens) =>
      session.accessToken := Some(newTokens.access_token);
      session.refreshToken := Some(newTokens.refresh_token);
      if policy == ReplaceIdToken {
        session.idToken := Some(newTokens.id_token);
      }
      session.expiresAt := Some(now + newTokens.expires_in * 1000);
      session.Save();
      alive := true;
    case Err(_) =>
      session.Destroy();
      alive := false;
  }
}
