/** The browser-side login controller of contexts/AuthContext.tsx. The auth
    triple is React state replaced as a whole. Each `login()` call opens the
    window named `shopify-auth-popup` (reusing it while it is open), keeps the
    window it got, and registers its own message listener and poll; both are
    torn down together by that call's `cleanup`, which closes only that window. Network replies,
    the popup's closing and the arrival of messages are the events of this
    class. */
module AuthContext {
  import opened Wrappers

  /** `{isAuthenticated, customerId, isLoading}`; a null `customerId` is `None`. */
  datatype AuthState = AuthState(isAuthenticated: bool, customerId: Option<string>, isLoading: bool)

  const Initial := AuthState(false, None, true)
  const LoggedOut := AuthState(false, None, false)

  /** The JSON of `/api/auth/me`, or `None` when the fetch or its parsing threw. */
  datatype MeJson = MeJson(authenticated: bool, customerId: Option<string>)

  /** The state `fetchAuthState` sets from the reply; `customerId ?? null`. */
  function FetchedState(reply: Option<MeJson>): (s: AuthState)
    ensures !s.isLoading
    ensures reply.None? ==> s == LoggedOut
    ensures reply.Some? ==> s.isAuthenticated == reply.value.authenticated && s.customerId == reply.value.customerId
  {
    match reply
    case None => LoggedOut
    case Some(json) => AuthState(json.authenticated, json.customerId, false)
  }

  /** The JSON of `/api/auth/login`. */
  datatype LoginUrlJson = LoginUrlJson(authUrl: Option<string>, error: Option<string>)

  datatype LoginOutcome = NoLoginUrl | PopupBlocked | PopupOpened

  /** `event.data.type`. */
  datatype MessageKind = AuthSuccessMessage | AuthErrorMessage | OtherMessage

  /** Whether a login call's listener is registered and its poll is running,
      and which window `window.open` returned to that call. */
  datatype Attempt = Attempt(listening: bool, polling: bool, window: nat)

  /** Where `logout` sends the page. */
  datatype Navigation = Redirect(url: string) | Reload

  class AuthProvider {
    var state: AuthState
    /** `window.location.origin`. */
    const windowOrigin: string
    /** One entry per popup-opening `login()` call, in call order. */
    var attempts: seq<Attempt>
    /** How many popup windows have been created; window `w` is the `w`-th. */
    var windowsCreated: nat
    /** The open window named `shopify-auth-popup`, if any. A window that has
        closed, by `popup.close()` or otherwise, stays closed, so every other
        window is closed. */
    var openWindow: Option<nat>
    /** How many `fetchAuthState` calls were started and how many have settled,
        and how many `popup.close()` calls were made. */
    var fetchesStarted: nat
    var fetchesSettled: nat
    var popupCloses: nat

    /** Every attempt's listener and poll are alive together or gone together,
        and every window named is one that was created. */
    predicate Valid()
      reads this
    {
      && (forall k :: 0 <= k < |attempts| ==> attempts[k].listening == attempts[k].polling)
      && (forall k :: 0 <= k < |attempts| ==> attempts[k].window < windowsCreated)
      && (openWindow.Some? ==> openWindow.value < windowsCreated)
      && fetchesSettled <= fetchesStarted
    }

    /** `popup.closed` is false for window `w`. */
    predicate IsOpen(w: nat)
      reads this
    {
      openWindow == Some(w)
    }

    /** Mounting: the initial triple, and the effect that starts the first fetch. */
    constructor(windowOrigin: string)
      ensures state == Initial && this.windowOrigin == windowOrigin
      ensures attempts == [] && windowsCreated == 0 && openWindow.None?
      ensures fetchesStarted == 1 && fetchesSettled == 0 && popupCloses == 0
      ensures Valid()
    {
      state := Initial;
      this.windowOrigin := windowOrigin;
      attempts := [];
      windowsCreated := 0;
      openWindow := None;
      fetchesStarted := 1;
      fetchesSettled := 0;
      popupCloses := 0;
    }

    /** A started `fetchAuthState` settles with `reply`. */
    method FetchAuthStateSettled(reply: Option<MeJson>)
      requires Valid() && fetchesSettled < fetchesStarted
      modifies this
      ensures Valid()
      ensures state == FetchedState(reply) && fetchesSettled == old(fetchesSettled) + 1
      ensures attempts == old(attempts) && windowsCreated == old(windowsCreated) && openWindow == old(openWindow)
      ensures fetchesStarted == old(fetchesStarted) && popupCloses == old(popupCloses)
    {
      state := FetchedState(reply);
      fetchesSettled := fetchesSettled + 1;
    }

    /** `login()` once the login URL reply has arrived; `popupAllowed` is whether
        `window.open` returned a window. Opening by name reuses the named
        window while it is open and creates a new one otherwise. */
    method Login(reply: LoginUrlJson, popupAllowed: bool) returns (outcome: LoginOutcome)
      requires Valid()
      modifies this
      ensures Valid()
      ensures outcome == (if Truthy(reply.error) || !Truthy(reply.authUrl) then NoLoginUrl
                          else if !popupAllowed then PopupBlocked
                          else PopupOpened)
      // without a popup nothing is registered and nothing changes
      ensures outcome != PopupOpened ==>
        attempts == old(attempts) && windowsCreated == old(windowsCreated) && openWindow == old(openWindow)
      // the new attempt holds the window now open: the old one if it was open, else a fresh one
      ensures outcome == PopupOpened ==>
        var w := if old(openWindow).Some? then old(openWindow).value else old(windowsCreated);
        && attempts == old(attempts) + [Attempt(true, true, w)]
        && openWindow == Some(w)
        && windowsCreated == old(windowsCreated) + (if old(openWindow).Some? then 0 else 1)
      ensures state == old(state) && fetchesStarted == old(fetchesStarted) && fetchesSettled == old(fetchesSettled) && popupCloses == old(popupCloses)
    {
      if Truthy(reply.error) || !Truthy(reply.authUrl) {
        return NoLoginUrl;
      }
      if !popupAllowed {
        return PopupBlocked;
      }
      var w: nat;
      if openWindow.Some? {
        w := openWindow.value;
      } else {
        w := windowsCreated;
        windowsCreated := windowsCreated + 1;
        openWindow := Some(w);
      }
      attempts := attempts + [Attempt(true, true, w)];
      outcome := PopupOpened;
    }

    /** `cleanup` of attempt `k`: remove its listener, clear its poll and close
        its own popup if that one is still open. */
    method Cleanup(k: nat)
      requires Valid() && k < |attempts|
      modifies this
      ensures Valid()
      ensures attempts == old(attempts)[k := Attempt(false, false, old(attempts)[k].window)]
      ensures !IsOpen(attempts[k].window)
      // another attempt's window is neither closed nor counted
      ensures openWindow == (if old(IsOpen(attempts[k].window)) then None else old(openWindow))
      ensures popupCloses == old(popupCloses) + (if old(IsOpen(attempts[k].window)) then 1 else 0)
      ensures state == old(state) && fetchesStarted == old(fetchesStarted) && fetchesSettled == old(fetchesSettled) && windowsCreated == old(windowsCreated)
    {
      var w := attempts[k].window;
      attempts := attempts[k := Attempt(false, false, w)];
      if openWindow == Some(w) {
        openWindow := None;
        popupCloses := popupCloses + 1;
      }
    }

    /** `handleMessage` of attempt `k`, whose listener is registered. */
    method HandleMessage(k: nat, origin: string, kind: MessageKind)
      requires Valid() && k < |attempts| && attempts[k].listening
      modifies this
      ensures Valid()
      // foreign origins and unknown message types leave everything as it was
      ensures origin != windowOrigin || kind == OtherMessage ==>
        attempts == old(attempts) && openWindow == old(openWindow)
        && fetchesStarted == old(fetchesStarted) && fetchesSettled == old(fetchesSettled) && popupCloses == old(popupCloses)
      // both outcomes of the flow end the attempt and close its own window; only success refetches
      ensures origin == windowOrigin && kind != OtherMessage ==>
        && attempts == old(attempts)[k := Attempt(false, false, old(attempts)[k].window)]
        && openWindow == (if old(IsOpen(attempts[k].window)) then None else old(openWindow))
        && popupCloses == old(popupCloses) + (if old(IsOpen(attempts[k].window)) then 1 else 0)
      ensures fetchesStarted == old(fetchesStarted) + (if origin == windowOrigin && kind == AuthSuccessMessage then 1 else 0)
      ensures fetchesSettled == old(fetchesSettled)
      // the auth triple only changes when a refetch settles
      ensures state == old(state) && windowsCreated == old(windowsCreated)
    {
      if origin != windowOrigin {
        return;
      }
      match kind
      case AuthSuccessMessage =>
        fetchesStarted := fetchesStarted + 1;
        Cleanup(k);
      case AuthErrorMessage =>
        Cleanup(k);
      case OtherMessage =>
    }

    /** The user, or the callback page's `window.close()`, closes the popup. */
    method PopupClosed()
      modifies this
      ensures openWindow.None?
      ensures state == old(state) && attempts == old(attempts) && windowsCreated == old(windowsCreated)
      ensures fetchesStarted == old(fetchesStarted) && fetchesSettled == old(fetchesSettled) && popupCloses == old(popupCloses)
    {
      openWindow := None;
    }

    /** One 500 ms tick of attempt `k`'s poll, which tests that attempt's own window. */
    method PollTick(k: nat)
      requires Valid() && k < |attempts| && attempts[k].polling
      modifies this
      ensures Valid()
      ensures old(IsOpen(attempts[k].window)) ==>
        attempts == old(attempts) && openWindow == old(openWindow) && popupCloses == old(popupCloses)
      // a closed window ends the attempt and leaves any other window as it is
      ensures !old(IsOpen(attempts[k].window)) ==>
        attempts == old(attempts)[k := Attempt(false, false, old(attempts)[k].window)]
        && openWindow == old(openWindow) && popupCloses == old(popupCloses)
      ensures state == old(state) && fetchesStarted == old(fetchesStarted) && fetchesSettled == old(fetchesSettled) && windowsCreated == old(windowsCreated)
    {
      if !IsOpen(attempts[k].window) {
        Cleanup(k);
      }
    }

    /** `logout()`: the page shows the logged-out state before either request is
        made. `logoutUrl` is the `logoutUrl` member of the second reply, or
        `Err` when either request threw. */
    method Logout(logoutUrl: Result<Option<string>, string>) returns (navigation: Navigation)
      modifies this
      ensures state == LoggedOut
      ensures navigation == (if logoutUrl.Ok? && Truthy(logoutUrl.value) then Redirect(logoutUrl.value.value) else Reload)
      ensures attempts == old(attempts) && windowsCreated == old(windowsCreated) && openWindow == old(openWindow)
      ensures fetchesStarted == old(fetchesStarted) && fetchesSettled == old(fetchesSettled) && popupCloses == old(popupCloses)
    {
      state := LoggedOut;
      match logoutUrl
      case Err(_) =>
        navigation := Reload;
      case Ok(url) =>
        if Truthy(url) {
          navigation := Redirect(url.value);
        } else {
          navigation := Reload;
        }
    }
  }

  /** A sign-in through the popup: after the success message and the refetch
      that it starts, the triple is the `/api/auth/me` answer, the attempt is
      gone and its window was closed once. */
  method SignInScenario(windowOrigin: string, reply: LoginUrlJson, me: MeJson) returns (p: AuthProvider)
    requires Truthy(reply.authUrl) && !Truthy(reply.error)
    ensures p.state == AuthState(me.authenticated, me.customerId, false)
    ensures p.attempts == [Attempt(false, false, 0)] && p.openWindow.None?
    ensures p.fetchesStarted == 2 && p.popupCloses == 1
  {
    p := new AuthProvider(windowOrigin);
    var outcome := p.Login(reply, true);
    p.HandleMessage(0, windowOrigin, AuthSuccessMessage);
    p.FetchAuthStateSettled(Some(me));
  }

  /** A first popup is closed by hand and a second login opens a new window:
      the first attempt's next tick tears that attempt down, and leaves the
      second attempt and its window alone. */
  method ReopenScenario(windowOrigin: string, reply: LoginUrlJson) returns (p: AuthProvider)
    requires Truthy(reply.authUrl) && !Truthy(reply.error)
    ensures p.attempts == [Attempt(false, false, 0), Attempt(true, true, 1)]
    ensures p.openWindow == Some(1) && p.popupCloses == 0 && p.fetchesStarted == 1
  {
    p := new AuthProvider(windowOrigin);
    var first := p.Login(reply, true);
    p.PopupClosed();
    var second := p.Login(reply, true);
    p.PollTick(0);
  }
}
