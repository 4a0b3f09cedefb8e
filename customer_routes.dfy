/** `POST /api/customer`: forwards the browser's query to the Storefront API
    with the session's access token, refreshing that token when it is about to
    expire. The upstream call is an input. */
module CustomerRoute {
  import opened Wrappers
  import opened Session
  import opened ShopifyAuth
  import opened SessionRefresh

  /** The body sent upstream: `{query: body.query, variables: {customerAccessToken}}`. */
  datatype ForwardedRequest = ForwardedRequest(query: Option<string>, customerAccessToken: string)

  /** The parsed upstream JSON: its `errors` member when truthy, and the whole document. */
  datatype GraphQLDocument = GraphQLDocument(errors: Option<string>, document: string)

  /** `fetch` or `json()` threw with `message`, or the response arrived. */
  datatype Upstream = UpstreamThrew(message: string) | UpstreamAnswered(ok: bool, json: GraphQLDocument)

  datatype ReplyBody =
    | ErrorBody(error: string)
    | ErrorWithDetails(error: string, details: Option<string>)
    | Passthrough(json: GraphQLDocument)

  datatype Reply = Reply(status: int, body: ReplyBody)

  datatype CustomerOutcome = CustomerOutcome(
    data: SessionData, stored: SessionData, reply: Reply,
    refreshRequested: Option<string>, forwarded: Option<ForwardedRequest>)

  const Unauthorized := Reply(401, ErrorBody("Unauthorized"))
  const SessionExpired := Reply(401, ErrorBody("Session expired"))

  /** How the upstream result becomes the reply, in app/api/customer/route.ts lines 55-67. */
  function Classify(upstream: Upstream): (r: Reply)
    ensures upstream.UpstreamThrew? ==> r == Reply(500, ErrorBody(upstream.message))
    ensures upstream.UpstreamAnswered? ==>
      (r.status == 200 <==> upstream.json.errors.None? && upstream.ok)
    ensures upstream.UpstreamAnswered? && r.status == 200 ==> r.body == Passthrough(upstream.json)
    ensures upstream.UpstreamAnswered? && r.status != 200 ==>
      r == Reply(500, ErrorWithDetails("Error from Shopify API", upstream.json.errors))
  {
    match upstream
    case UpstreamThrew(m) => Reply(500, ErrorBody(m))
    case UpstreamAnswered(ok, json) =>
      if json.errors.Some? || !ok then Reply(500, ErrorWithDetails("Error from Shopify API", json.errors))
      else Reply(200, Passthrough(json))
  }

  function Customer(d: SessionData, stored: SessionData, refresh: Result<TokenResponse, string>, now: int,
                    query: Option<string>, upstream: Upstream): (r: CustomerOutcome)
    // no access token: 401 with no refresh and no upstream call
    ensures !Truthy(d.accessToken) ==>
      r == CustomerOutcome(d, stored, Unauthorized, None, None)
    ensures Truthy(d.accessToken) ==>
      (r.refreshRequested.Some? <==> IsExpired(d.expiresAt, now) && Truthy(d.refreshToken))
    // a failed refresh destroys the session and nothing is forwarded
    ensures r.refreshRequested.Some? && refresh.Err? ==>
      r.reply == SessionExpired && r.forwarded.None? && r.data == Empty && r.stored == Empty
    // this route also stores the refreshed id token
    ensures r.refreshRequested.Some? && refresh.Ok? ==>
      r.data == Refreshed(d, refresh.value, now, ReplaceIdToken) && r.stored == r.data
    // the query is forwarded exactly when the session is (still) usable, with its current token
    ensures r.forwarded.Some? <==> Truthy(d.accessToken) && !(r.refreshRequested.Some? && refresh.Err?)
    ensures r.forwarded.Some? ==>
      r.data.accessToken.Some? && r.forwarded.value == ForwardedRequest(query, r.data.accessToken.value)
      && r.reply == Classify(upstream)
    ensures r.forwarded.Some? && r.refreshRequested.None? ==> r.data == d && r.stored == stored
  {
    if !Truthy(d.accessToken) then CustomerOutcome(d, stored, Unauthorized, None, None)
    else
      var step := Refresh(d, stored, refresh, now, ReplaceIdToken);
      if !step.alive then CustomerOutcome(step.data, step.stored, SessionExpired, step.refreshRequested, None)
      else
        var sent := ForwardedRequest(query, step.data.accessToken.value);
        CustomerOutcome(step.data, step.stored, Classify(upstream), step.refreshRequested, Some(sent))
  }

  /** An access token that is not about to expire is forwarded as it is. */
  lemma FreshTokenForwarded(d: SessionData, stored: SessionData, refresh: Result<TokenResponse, string>, now: int,
                            query: Option<string>, upstream: Upstream)
    requires Truthy(d.accessToken) && !IsExpired(d.expiresAt, now)
    ensures Customer(d, stored, refresh, now, query, upstream).forwarded == Some(ForwardedRequest(query, d.accessToken.value))
  {
  }

  /** A refreshed token replaces the old one in the forwarded request. */
  lemma RefreshedTokenForwarded(d: SessionData, stored: SessionData, t: TokenResponse, now: int,
                                query: Option<string>, upstream: Upstream)
    requires Truthy(d.accessToken) && IsExpired(d.expiresAt, now) && Truthy(d.refreshToken)
    ensures Customer(d, stored, Ok(t), now, query, upstream).forwarded == Some(ForwardedRequest(query, t.access_token))
  {
  }

  method Post(session: IronSession, refresh: Result<TokenResponse, string>, now: int,
              query: Option<string>, upstream: Upstream)
    returns (reply: Reply, refreshRequested: Option<string>, forwarded: Option<ForwardedRequest>)
    modifies session
    ensures CustomerOutcome(session.Data(), session.stored, reply, refreshRequested, forwarded)
         == Customer(old(session.Data()), old(session.stored), refresh, now, query, upstream)
  {
    if !Truthy(session.accessToken) {
      return Unauthorized, None, None;
    }
    var alive;
    alive, refreshRequested := RefreshIfExpired(session, refresh, now, ReplaceIdToken);
    if !alive {
      return SessionExpired, refreshRequested, None;
    }
    forwarded := Some(ForwardedRequest(query, session.accessToken.value));
    match upstream
    case UpstreamThrew(m) =>
      reply := Reply(500, ErrorBody(m));
    case UpstreamAnswered(ok, json) =>
      if json.errors.Some? || !ok {
        reply := Reply(500, ErrorWithDetails("Error from Shopify API", json.errors));
      } else {
        reply := Reply(200, Passthrough(json));
      }
  }
}

/** `POST /api/customer/update`: the `customerUpdate` mutation with the
    session's access token and the posted name and phone. */
module CustomerUpdate {
  import opened Wrappers
  import opened Session
  import opened ShopifyAuth
  import opened SessionRefresh
  import CustomerRoute

  /** The destructured request body; an absent member is `None`. */
  datatype UpdateRequest = UpdateRequest(firstName: Option<string>, lastName: Option<string>, phone: Option<string>)

  /** `CustomerUpdateInput`. */
  datatype CustomerInput = CustomerInput(firstName: Option<string>, lastName: Option<string>, phone: Option<string>)

  /** The mutation's `variables`. */
  datatype MutationVariables = MutationVariables(customerAccessToken: string, customer: CustomerInput)

  datatype Customer = Customer(id: string, firstName: Option<string>, lastName: Option<string>, phone: Option<string>)
  datatype CustomerUserError = CustomerUserError(code: Option<string>, field: Option<seq<string>>, message: string)

  /** `data.customerUpdate`. */
  datatype Payload = Payload(customer: Option<Customer>, customerUserErrors: seq<CustomerUserError>)

  /** `fetch` or `json()` threw, or the document arrived: its truthy `errors`,
      and `data.customerUpdate` when both `data` and it are present. */
  datatype Upstream = UpstreamThrew(message: string) | UpstreamAnswered(errors: Option<string>, payload: Option<Payload>)

  datatype Details = GraphQLErrors(errors: string) | UserErrors(userErrors: seq<CustomerUserError>)

  datatype ReplyBody =
    | ErrorBody(error: string)
    | ErrorWithDetails(error: string, details: Details)
    /** The `TypeError` thrown by reading `data.data.customerUpdate.customer`
        when the payload is missing. */
    | MissingPayloadError
    | Updated(customer: Option<Customer>)

  datatype Reply = Reply(status: int, body: ReplyBody)

  datatype UpdateOutcome = UpdateOutcome(
    data: SessionData, stored: SessionData, reply: Reply,
    refreshRequested: Option<string>, sent: Option<MutationVariables>)

  const Unauthorized := Reply(401, ErrorBody("Unauthorized"))
  const SessionExpired := Reply(401, ErrorBody("Session expired"))

  /** The variables carry the current token and exactly the three posted fields. */
  function Variables(accessToken: string, req: UpdateRequest): (v: MutationVariables)
    ensures v.customerAccessToken == accessToken
    ensures v.customer.firstName == req.firstName && v.customer.lastName == req.lastName
            && v.customer.phone == req.phone
  {
    MutationVariables(accessToken, CustomerInput(req.firstName, req.lastName, req.phone))
  }

  /** app/api/customer/update/route.ts lines 76-88. GraphQL errors win over user errors; the response status is
      not consulted. */
  function Classify(upstream: Upstream): (r: Reply)
    ensures upstream.UpstreamThrew? ==> r == Reply(500, ErrorBody(upstream.message))
    ensures upstream.UpstreamAnswered? && upstream.errors.Some? ==>
      r == Reply(500, ErrorWithDetails("Error from Shopify API", GraphQLErrors(upstream.errors.value)))
    ensures upstream.UpstreamAnswered? && upstream.errors.None? && upstream.payload.Some?
            && |upstream.payload.value.customerUserErrors| > 0 ==>
      r == Reply(500, ErrorWithDetails("Error from Shopify API", UserErrors(upstream.payload.value.customerUserErrors)))
    ensures r.status == 200 <==>
      upstream.UpstreamAnswered? && upstream.errors.None? && upstream.payload.Some?
      && |upstream.payload.value.customerUserErrors| == 0
    ensures r.status == 200 ==> r.body == Updated(upstream.payload.value.customer)
    ensures r.status != 200 ==> r.status == 500
  {
    match upstream
    case UpstreamThrew(m) => Reply(500, ErrorBody(m))
    case UpstreamAnswered(errors, payload) =>
      if errors.Some? then Reply(500, ErrorWithDetails("Error from Shopify API", GraphQLErrors(errors.value)))
      else if payload.Some? && |payload.value.customerUserErrors| > 0 then
        Reply(500, ErrorWithDetails("Error from Shopify API", UserErrors(payload.value.customerUserErrors)))
      else if payload.None? then Reply(500, MissingPayloadError)
      else Reply(200, Updated(payload.value.customer))
  }

  function Update(d: SessionData, stored: SessionData, refresh: Result<TokenResponse, string>, now: int,
                  req: UpdateRequest, upstream: Upstream): (r: UpdateOutcome)
    ensures !Truthy(d.accessToken) ==> r == UpdateOutcome(d, stored, Unauthorized, None, None)
    ensures Truthy(d.accessToken) ==>
      (r.refreshRequested.Some? <==> IsExpired(d.expiresAt, now) && Truthy(d.refreshToken))
    ensures r.refreshRequested.Some? && refresh.Err? ==>
      r.reply == SessionExpired && r.sent.None? && r.data == Empty && r.stored == Empty
    // unlike the customer route, the id token is kept
    ensures r.refreshRequested.Some? && refresh.Ok? ==>
      r.data == Refreshed(d, refresh.value, now, KeepIdToken) && r.stored == r.data
    ensures r.sent.Some? <==> Truthy(d.accessToken) && !(r.refreshRequested.Some? && refresh.Err?)
    ensures r.sent.Some? ==>
      r.data.accessToken.Some? && r.sent.value == Variables(r.data.accessToken.value, req)
      && r.reply == Classify(upstream)
    ensures r.sent.Some? && r.refreshRequested.None? ==> r.data == d && r.stored == stored
  {
    if !Truthy(d.accessToken) then UpdateOutcome(d, stored, Unauthorized, None, None)
    else
      var step := Refresh(d, stored, refresh, now, KeepIdToken);
      if !step.alive then UpdateOutcome(step.data, step.stored, SessionExpired, step.refreshRequested, None)
      else
        var vars := Variables(step.data.accessToken.value, req);
        UpdateOutcome(step.data, step.stored, Classify(upstream), step.refreshRequested, Some(vars))
  }

  /** The two refreshing customer routes differ only in the id token they keep. */
  lemma RoutesDifferOnlyInIdToken(d: SessionData, stored: SessionData, t: TokenResponse, now: int,
                                  req: UpdateRequest, upstream: Upstream, query: Option<string>,
                                  answer: CustomerRoute.Upstream)
    requires Truthy(d.accessToken) && IsExpired(d.expiresAt, now) && Truthy(d.refreshToken)
    ensures Update(d, stored, Ok(t), now, req, upstream).data
         == CustomerRoute.Customer(d, stored, Ok(t), now, query, answer).data.(idToken := d.idToken)
    ensures CustomerRoute.Customer(d, stored, Ok(t), now, query, answer).data.idToken == Some(t.id_token)
  {
  }

  method Post(session: IronSession, refresh: Result<TokenResponse, string>, now: int,
              req: UpdateRequest, upstream: Upstream)
    returns (reply: Reply, refreshRequested: Option<string>, sent: Option<MutationVariables>)
    modifies session
    ensures UpdateOutcome(session.Data(), session.stored, reply, refreshRequested, sent)
         == Update(old(session.Data()), old(session.stored), refresh, now, req, upstream)
  {
    if !Truthy(session.accessToken) {
      return Unauthorized, None, None;
    }
    var alive;
    alive, refreshRequested := RefreshIfExpired(session, refresh, now, KeepIdToken);
    if !alive {
      return SessionExpired, refreshRequested, None;
    }
    sent := Some(MutationVariables(session.accessToken.value, CustomerInput(req.firstName, req.lastName, req.phone)));
    match upstream
    case UpstreamThrew(m) =>
      reply := Reply(500, ErrorBody(m));
    case UpstreamAnswered(errors, payload) =>
      if errors.Some? {
        reply := Reply(500, ErrorWithDetails("Error from Shopify API", GraphQLErrors(errors.value)));
      } else if payload.Some? && |payload.value.customerUserErrors| > 0 {
        reply := Reply(500, ErrorWithDetails("Error from Shopify API", UserErrors(payload.value.customerUserErrors)));
      } else if payload.None? {
        reply := Reply(500, MissingPayloadError);
      } else {
        reply := Reply(200, Updated(payload.value.customer));
      }
  }
}
