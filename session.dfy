/** The server-side session: the `SessionData` record of lib/session.ts and the
    mutable object `getSession()` hands to each request. The cookie encryption
    is not modelled; `stored` is what the response's cookie will hold. */
module Session {
  import opened Wrappers

  datatype SessionData = SessionData(
    accessToken: Option<string>,
    refreshToken: Option<string>,
    idToken: Option<string>,
    customerId: Option<string>,
    expiresAt: Option<int>,      // epoch milliseconds
    codeVerifier: Option<string>, // PKCE temporaries, cleared after the callback
    state: Option<string>,
    nonce: Option<string>)

  /** A new or destroyed session: every field undefined. */
  const Empty := SessionData(None, None, None, None, None, None, None, None)

  /** Once tokens are stored the PKCE temporaries are gone. */
  predicate TemporariesCleared(d: SessionData) {
    d.accessToken.Some? ==> d.codeVerifier.None? && d.state.None? && d.nonce.None?
  }

  /** The object returned by `getIronSession`: its fields are assigned one by one,
      `save()` writes them to the cookie, `destroy()` clears both. */
  class IronSession {
    var accessToken: Option<string>
    var refreshToken: Option<string>
    var idToken: Option<string>
    var customerId: Option<string>
    var expiresAt: Option<int>
    var codeVerifier: Option<string>
    var state: Option<string>
    var nonce: Option<string>
    /** The cookie contents the response will carry. */
    var stored: SessionData

    function Data(): SessionData
      reads this
    {
      SessionData(accessToken, refreshToken, idToken, customerId, expiresAt, codeVerifier, state, nonce)
    }

    /** `getSession()`: the fields are read from the request's cookie. */
    constructor Load(cookie: SessionData)
      ensures Data() == cookie && stored == cookie
    {
      accessToken, refreshToken, idToken := cookie.accessToken, cookie.refreshToken, cookie.idToken;
      customerId, expiresAt := cookie.customerId, cookie.expiresAt;
      codeVerifier, state, nonce := cookie.codeVerifier, cookie.state, cookie.nonce;
      stored := cookie;
    }

    /** `session.save()`. */
    method Save()
      modifies this
      ensures Data() == old(Data()) && stored == Data()
    {
      stored := Data();
    }

    /** `session.destroy()`: the object is emptied and the cookie cleared. */
    method Destroy()
      modifies this
      ensures Data() == Empty && stored == Empty
    {
      accessToken, refreshToken, idToken, customerId, expiresAt := None, None, None, None, None;
      codeVerifier, state, nonce := None, None, None;
      stored := Empty;
    }
  }
}
