/** The callback that ends the authorization-code flow (section 4.1.2 of
    RFC 6749): a chain of guards, then the token exchange, then the session
    update. The exchange and the decoding of the id token's payload are inputs. */
module AuthCallback {
  import opened Wrappers
  import opened Session
  import opened ShopifyAuth

  /** The `code`, `state` and `error` search parameters; `None` is an absent one. */
  datatype Query = Query(code: Option<string>, state: Option<string>, error: Option<string>)

  /** The second segment of the id token, decoded and parsed; `sub` may be absent. */
  datatype IdTokenPayload = Undecodable | Payload(sub: Option<string>)

  /** The message the returned page posts to its opener. */
  datatype Message = AuthSuccess(customerId: Option<string>) | AuthError(error: string)

  /** What `exchangeCodeForTokens` was called with. */
  datatype ExchangeArgs = ExchangeArgs(code: string, codeVerifier: string, redirectUri: string)

  datatype CallbackOutcome = CallbackOutcome(
    data: SessionData, stored: SessionData, message: Message, exchangeRequested: Option<ExchangeArgs>)

  const MissingCodeOrState := "Missing code or state"
  const StateMismatch := "State mismatch \U{2014} possible CSRF attack"
  const MissingCodeVerifier := "Missing code verifier"
  const TokenExchangeFailed := "Token exchange failed"

  /** Every guard before the exchange passes. */
  predicate GuardsPass(q: Query, d: SessionData) {
    !Truthy(q.error) && Truthy(q.code) && Truthy(q.state) && q.state == d.state && Truthy(d.codeVerifier)
  }

  /** The session after a successful exchange: tokens, owner and expiry stored,
      the PKCE temporaries cleared. */
  function Authenticated(t: TokenResponse, sub: Option<string>, now: int): SessionData {
    SessionData(Some(t.access_token), Some(t.refresh_token), Some(t.id_token), sub,
                Some(now + t.expires_in * 1000), None, None, None)
  }

  /** `GET` for session `d` whose cookie holds `stored`. */
  function Callback(q: Query, d: SessionData, stored: SessionData, redirectUri: string,
                    exchange: Result<TokenResponse, string>, payload: IdTokenPayload, now: int): (r: CallbackOutcome)
    // the guards, in order, each with its message
    ensures Truthy(q.error) ==> r.message == AuthError(q.error.value)
    ensures !Truthy(q.error) && !(Truthy(q.code) && Truthy(q.state)) ==> r.message == AuthError(MissingCodeOrState)
    ensures !Truthy(q.error) && Truthy(q.code) && Truthy(q.state) && q.state != d.state
            ==> r.message == AuthError(StateMismatch)
    ensures !Truthy(q.error) && Truthy(q.code) && Truthy(q.state) && q.state == d.state && !Truthy(d.codeVerifier)
            ==> r.message == AuthError(MissingCodeVerifier)
    // the exchange happens exactly when every guard passes, with the query's code and the stored verifier
    ensures r.exchangeRequested.Some? <==> GuardsPass(q, d)
    ensures r.exchangeRequested.Some? ==> r.exchangeRequested.value == ExchangeArgs(q.code.value, d.codeVerifier.value, redirectUri)
    ensures GuardsPass(q, d) && (exchange.Err? || payload.Undecodable?) ==> r.message == AuthError(TokenExchangeFailed)
    // an error leaves the session and its cookie as they were
    ensures r.message.AuthError? ==> r.data == d && r.stored == stored
    ensures r.message.AuthSuccess? <==> GuardsPass(q, d) && exchange.Ok? && payload.Payload?
    // a success stores the tokens, the owner and the expiry, clears the temporaries and saves
    ensures r.message.AuthSuccess? ==>
      && r.data.accessToken == Some(exchange.value.access_token)
      && r.data.refreshToken == Some(exchange.value.refresh_token)
      && r.data.idToken == Some(exchange.value.id_token)
      && r.data.customerId == payload.sub
      && r.data.expiresAt == Some(now + exchange.value.expires_in * 1000)
      && r.data.codeVerifier.None? && r.data.state.None? && r.data.nonce.None?
      && r.stored == r.data
      // the posted message names the same customer that was stored
      && r.message.customerId == r.data.customerId
    ensures TemporariesCleared(d) ==> TemporariesCleared(r.data)
  {
    if Truthy(q.error) then CallbackOutcome(d, stored, AuthError(q.error.value), None)
    else if !Truthy(q.code) || !Truthy(q.state) then CallbackOutcome(d, stored, AuthError(MissingCodeOrState), None)
    else if q.state != d.state then CallbackOutcome(d, stored, AuthError(StateMismatch), None)
    else if !Truthy(d.codeVerifier) then CallbackOutcome(d, stored, AuthError(MissingCodeVerifier), None)
    else
      var sent := Some(ExchangeArgs(q.code.value, d.codeVerifier.value, redirectUri));
      if exchange.Err? || payload.Undecodable? then CallbackOutcome(d, stored, AuthError(TokenExchangeFailed), sent)
      else
        var d' := Authenticated(exchange.value, payload.sub, now);
        CallbackOutcome(d', d', AuthSuccess(payload.sub), sent)
  }

  /** An `error` parameter is answered before the session is looked at: the
      message is the same whatever the session holds. */
  lemma ErrorIgnoresSession(q: Query, d1: SessionData, s1: SessionData, d2: SessionData, s2: SessionData,
                            redirectUri: string, exchange: Result<TokenResponse, string>, payload: IdTokenPayload, now: int)
    requires Truthy(q.error) || !Truthy(q.code) || !Truthy(q.state)
    ensures Callback(q, d1, s1, redirectUri, exchange, payload, now).message
         == Callback(q, d2, s2, redirectUri, exchange, payload, now).message
    ensures Callback(q, d1, s1, redirectUri, exchange, payload, now).exchangeRequested.None?
  {
  }

  /** A state the session never issued (or an empty stored state) cannot
      reach the exchange: this is the CSRF check. */
  lemma ForeignStateRejected(q: Query, d: SessionData, stored: SessionData, redirectUri: string,
                             exchange: Result<TokenResponse, string>, payload: IdTokenPayload, now: int)
    requires d.state.None? || q.state != d.state
    ensures Callback(q, d, stored, redirectUri, exchange, payload, now).message.AuthError?
    ensures Callback(q, d, stored, redirectUri, exchange, payload, now).data == d
  {
  }

  /** `GET` on the live session. A null `session` stands for `getSession()`
      throwing, which the handler's `catch` turns into the exchange-failure message. */
  method Get(q: Query, session: IronSession?, redirectUri: string,
             exchange: Result<TokenResponse, string>, payload: IdTokenPayload, now: int)
    returns (message: Message, exchangeRequested: Option<ExchangeArgs>)
    modifies session
    ensures session == null ==>
      message == (if Truthy(q.error) then AuthError(q.error.value)
                  else if !Truthy(q.code) || !Truthy(q.state) then AuthError(MissingCodeOrState)
                  else AuthError(TokenExchangeFailed))
      && exchangeRequested.None?
    ensures session != null ==>
      CallbackOutcome(session.Data(), session.stored, message, exchangeRequested)
      == Callback(q, old(session.Data()), old(session.stored), redirectUri, exchange, payload, now)
  {
    exchangeRequested := None;
    if Truthy(q.error) {
      return AuthError(q.error.value), None;
    }
    if !Truthy(q.code) || !Truthy(q.state) {
      return AuthError(MissingCodeOrState), None;
    }
    if session == null {
      return AuthError(TokenExchangeFailed), None;
    }
    if q.state != session.state {
      return AuthError(StateMismatch), None;
    }
    var codeVerifier := session.codeVerifier;
    if !Truthy(codeVerifier) {
      return AuthError(MissingCodeVerifier), None;
    }
    exchangeRequested := Some(ExchangeArgs(q.code.value, codeVerifier.value, redirectUri));
    if exchange.Err? || payload.Undecodable? {
      return AuthError(TokenExchangeFailed), exchangeRequested;
    }
    var tokens := exchange.value;
    session.accessToken := Some(tokens.access_token);
    session.refreshToken := Some(tokens.refresh_token);
    session.idToken := Some(tokens.id_token);
    session.customerId := payload.sub;
    session.expiresAt := Some(now + tokens.expires_in * 1000);
    session.codeVerifier := None;
    session.state := None;
    session.nonce := None;
    session.Save();
    message := AuthSuccess(payload.sub);
  }
}

/** `GET /api/auth/me`: whether the browser's session is logged in, refreshing
    an access token that is about to expire. */
module AuthMe {
  import opened Wrappers
  import opened Session
  import opened ShopifyAuth
  import opened SessionRefresh

  /** `{authenticated, customerId}`; an undefined `customerId` is left out of the JSON. */
  datatype MeResponse = MeResponse(authenticated: bool, customerId: Option<string>)

  datatype MeOutcome = MeOutcome(data: SessionData, stored: SessionData, response: MeResponse, refreshRequested: Option<string>)

  function Me(d: SessionData, stored: SessionData, refresh: Result<TokenResponse, string>, now: int): (r: MeOutcome)
    // no access token: logged out, nothing called, nothing changed
    ensures !Truthy(d.accessToken) ==> r == MeOutcome(d, stored, MeResponse(false, None), None)
    ensures Truthy(d.accessToken) ==>
      (r.refreshRequested.Some? <==> IsExpired(d.expiresAt, now) && Truthy(d.refreshToken))
    // logged out after a token was present exactly when the refresh failed, and then the session is gone
    ensures Truthy(d.accessToken) ==>
      (r.response.authenticated <==> !(r.refreshRequested.Some? && refresh.Err?))
    ensures Truthy(d.accessToken) && !r.response.authenticated ==>
      r.data == Empty && r.stored == Empty && r.response.customerId.None?
    // an expired token with no refresh token is still reported as logged in, unchanged
    ensures Truthy(d.accessToken) && r.refreshRequested.None? ==> r.response.authenticated && r.data == d
    // the refresh keeps the id token and the owner
    ensures r.refreshRequested.Some? && refresh.Ok? ==>
      r.data == Refreshed(d, refresh.value, now, KeepIdToken) && r.stored == r.data
    ensures r.response.authenticated ==> r.response.customerId == d.customerId == r.data.customerId
  {
    if !Truthy(d.accessToken) then MeOutcome(d, stored, MeResponse(false, None), None)
    else
      var step := Refresh(d, stored, refresh, now, KeepIdToken);
      if !step.alive then MeOutcome(step.data, step.stored, MeResponse(false, None), step.refreshRequested)
      else MeOutcome(step.data, step.stored, MeResponse(true, step.data.customerId), step.refreshRequested)
  }

  method Get(session: IronSession, refresh: Result<TokenResponse, string>, now: int)
    returns (response: MeResponse, refreshRequested: Option<string>)
    modifies session
    ensures MeOutcome(session.Data(), session.stored, response, refreshRequested)
         == Me(old(session.Data()), old(session.stored), refresh, now)
  {
    if !Truthy(session.accessToken) {
      return MeResponse(false, None), None;
    }
    var alive;
    alive, refreshRequested := RefreshIfExpired(session, refresh, now, KeepIdToken);
    if !alive {
      return MeResponse(false, None), refreshRequested;
    }
    response := MeResponse(true, session.customerId);
  }
}

/** `POST /api/auth/logout`: forget the session locally, then ask the provider
    to end its own session with the id token captured beforehand. */
module AuthLogout {
  import opened Wrappers
  import opened Session

  /** `{success: true}`, or status 500 `{error: 'Logout failed'}`. */
  datatype LogoutReply = LoggedOut | LogoutFailed

  datatype LogoutOutcome = LogoutOutcome(data: SessionData, stored: SessionData, reply: LogoutReply, revokeRequested: Option<string>)

  function Logout(d: SessionData): (r: LogoutOutcome)
    ensures r.data == Empty && r.stored == Empty
    ensures r.reply == LoggedOut
    // the revocation uses the id token read before the session was destroyed
    ensures r.revokeRequested.Some? <==> Truthy(d.idToken)
    ensures r.revokeRequested.Some? ==> r.revokeRequested == d.idToken
  {
    LogoutOutcome(Empty, Empty, LoggedOut, if Truthy(d.idToken) then d.idToken else None)
  }

  /** A second logout succeeds too, and has nothing left to revoke. */
  lemma LogoutTwice(d: SessionData)
    ensures Logout(Logout(d).data).reply == LoggedOut
    ensures Logout(Logout(d).data).revokeRequested.None?
    ensures Logout(Logout(d).data).data == Logout(d).data
  {
  }

  /** `POST`. A null `session` stands for `getSession()` throwing; `revoke` is
      what `revokeSession` did, and its failure is swallowed. */
  method Post(session: IronSession?, revoke: Result<(), string>) returns (reply: LogoutReply, revokeRequested: Option<string>)
    modifies session
    ensures session == null ==> reply == LogoutFailed && revokeRequested.None?
    ensures session != null ==>
      LogoutOutcome(session.Data(), session.stored, reply, revokeRequested) == Logout(old(session.Data()))
  {
    if session == null {
      return LogoutFailed, None;
    }
    var idToken := session.idToken;
    session.Destroy();
    revokeRequested := None;
    if Truthy(idToken) {
      revokeRequested := idToken;
      match revoke
      case Ok(_) =>
      case Err(_) =>  // logged and ignored
    }
    reply := LoggedOut;
  }
}
