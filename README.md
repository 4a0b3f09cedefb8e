# Ortovets storefront: customer login, session and shop logic in Dafny

This project models the storefront of a veterinary-orthopaedics shop built on
Shopify. It covers these parts:

- **Customer login.** This is the OAuth 2.0 authorization-code grant (section 4.1
  of RFC 6749) with PKCE (RFC 7636) against Shopify's customer-account identity
  provider. The model includes the PKCE helpers, the cached OpenID discovery
  document, the token requests, and the callback, `me`, logout and customer
  routes on the server.
- **The server-side session.** It is an encrypted cookie that holds the tokens,
  their expiry, the customer id and the PKCE temporaries.
- **The browser-side login controller.** It opens a popup and waits for its
  message, or polls for the popup to close.
- **The shopping cart.**
- **The product helpers.** These are the retail ("menudeo") price rule, the size
  list, the variant selection and the image carousel.
- **The clickable dog diagram.** The diagram hit-tests the pointer against
  stacked image layers.

Each core source file maps to a module (`ShopifyAuth`, `Pkce`, `AuthCallback`,
`Cart`, and so on), except that the two product components share
`ProductView`. `SessionRefresh` holds the refresh block that the three
refreshing routes repeat, and `Text` and `Wrappers` are shared helpers. Three
kinds of code are modelled in three ways:

- Code that computes values becomes functions.
- Objects that are updated in place become classes whose methods are proved
  against those functions. These are the iron-session object, the module-level
  config cache, the React providers and the carousel.
- Loops become methods with invariants. These are the carousel's thumbnail loop
  and the dog diagram's search from the top layer down.

The network, the clock, the random source, SHA-256 and the canvas pixels are
parameters. A route is modelled as a function from its inputs to an outcome. The
inputs include the session before the request, what the identity provider or the
Storefront API answered, and `now`. The outcome records the session after the
request, what the cookie will hold, the reply, and the request the route made.
The route's method then runs on a live `Session.IronSession` object, and its
`ensures` clause ties the object's new state to that function.

The expiry check used by the routes is strict: a token counts as expired when
`now > expiresAt - 300000`. An `expiresAt` exactly five minutes away is
therefore not yet expired (the "5 minute buffer" of
app/api/auth/me/route.ts:12-15). `SessionRefresh.ExpiryBoundary` states the
boundary.

## Model

| member | source | states |
|---|---|---|
| Pkce.CharsetIsUnreserved | lib/pkce.ts:4-5 | the charset has 66 characters, and a character is in it exactly when it is an unreserved character of RFC 7636 (letters, digits, `-._~`) |
| Pkce.GenerateRandomString | lib/pkce.ts:3-10 | one character per random byte, character `i` being the charset's entry at `byte % 66` |
| Pkce.RandomStringUnreserved | lib/pkce.ts:3-10 | every generated string consists of unreserved characters only |
| Pkce.GenerateState | lib/pkce.ts:22-24 | 32 unreserved characters drawn from the given bytes |
| Pkce.GenerateNonce | lib/pkce.ts:26-28 | 32 unreserved characters drawn from the given bytes |
| Pkce.GenerateCodeVerifier | lib/pkce.ts:30-32 | 64 unreserved characters, within the 43 to 128 that section 4.1 of RFC 7636 allows |
| Pkce.RewrittenBase64 | lib/pkce.ts:16-18 | replacing `+` by `-` and `/` by `_` in standard base64 (section 4 of RFC 4648) gives the base64url encoding (section 5) followed by the same `=` padding |
| Pkce.NoPadAlphabet | lib/pkce.ts:16-19 | unpadded base64url uses only URL-alphabet characters, with length `(4n + 2) / 3` for `n` bytes |
| Pkce.StripPadding | lib/pkce.ts:19 | removing the trailing run of `=` from base64url-with-padding leaves exactly the unpadded form |
| Pkce.ChallengeIsBase64Url | lib/pkce.ts:16-19 | the three replacements of the source compute exactly unpadded base64url of the digest |
| Pkce.Utf8Encode | lib/pkce.ts:13-14 | an ASCII string encodes to one byte per character, equal to its code |
| Pkce.GenerateCodeChallenge | lib/pkce.ts:12-20 | the challenge is unpadded base64url of SHA-256 of the verifier's UTF-8 bytes, has no `+`, `/` or `=`, is unreserved, and has 43 characters for a 32-byte digest (section 4.2 of RFC 7636) |
| ShopifyAuth.LookupConfig | lib/shopify-auth.ts:13-27 | a cached document is returned without a fetch; otherwise the call fetches; a non-ok response throws `Failed to fetch OpenID configuration`; the cache is filled exactly when the call succeeds, with the document the server sent |
| ShopifyAuth.ConfigStable | lib/shopify-auth.ts:11-27 | over any run of calls, once one call succeeds every later call returns the same document (nothing clears the cache) |
| ShopifyAuth.CachedRun | lib/shopify-auth.ts:14 | with a filled cache every call returns the cached document whatever the network says |
| ShopifyAuth.OpenIdConfigCache.constructor | lib/shopify-auth.ts:11 | the module-level cache starts empty |
| ShopifyAuth.OpenIdConfigCache.GetOpenIdConfig | lib/shopify-auth.ts:13-27 | the result, whether it fetched and the new cache value are those of `LookupConfig` on the old cache |
| ShopifyAuth.Param | lib/shopify-auth.ts:43-50 | `URLSearchParams.get` finds a value exactly when some pair has the key |
| ShopifyAuth.ParamAt | lib/shopify-auth.ts:43-50 | with distinct keys, `get` returns the value stored at each position |
| ShopifyAuth.ExchangeParams | lib/shopify-auth.ts:43-50 | the exchange body has exactly the keys grant_type, client_id, client_secret, code, code_verifier, redirect_uri in that order, with `authorization_code` and the given values |
| ShopifyAuth.RefreshParams | lib/shopify-auth.ts:70-75 | the refresh body has exactly grant_type=`refresh_token`, client_id, client_secret and refresh_token |
| ShopifyAuth.RevokeParams | lib/shopify-auth.ts:93-96 | the end-session body carries the id-token hint and the client id, and no client secret |
| ShopifyAuth.ExchangeOutcome | lib/shopify-auth.ts:52-63 | a non-ok response throws `Token exchange failed: ` plus the body text; the call succeeds exactly when the response is ok and parses, returning the parsed tokens |
| ShopifyAuth.RefreshOutcome | lib/shopify-auth.ts:78-85 | a non-ok response throws `Token refresh failed`; success exactly when ok and parsed |
| ShopifyAuth.ExchangeCodeForTokens | lib/shopify-auth.ts:37-64 | a failed configuration lookup throws its error and sends nothing; otherwise the exchange body is posted to the document's token endpoint and the result is `ExchangeOutcome`; the cache evolves as `LookupConfig` says |
| ShopifyAuth.RefreshAccessToken | lib/shopify-auth.ts:66-86 | as above with the refresh body and `RefreshOutcome` |
| ShopifyAuth.RevokeSession | lib/shopify-auth.ts:88-98 | the hint is posted to the end-session endpoint; the call succeeds exactly when the fetch got any answer, whatever its status |
| Session.IronSession.Load | lib/session.ts:28-34 | the object's fields and the cookie both hold what the request's cookie held |
| Session.IronSession.Save | lib/session.ts:28-34 | `save()` writes the current fields to the cookie and changes no field |
| Session.IronSession.Destroy | lib/session.ts:28-34 | `destroy()` empties both the object and the cookie |
| SessionRefresh.ExpiryBoundary | app/api/auth/me/route.ts:13-15 | a token is not expired exactly 5 minutes before `expiresAt` and is expired one millisecond later; expired exactly when fewer than 300000 ms remain; a missing or zero `expiresAt` never expires |
| SessionRefresh.Refreshed | app/api/customer/route.ts:22-27 | the new access and refresh tokens and `now + expires_in*1000` are stored; the id token is replaced or kept according to the route; the owner and the temporaries are untouched |
| SessionRefresh.Refresh | app/api/auth/me/route.ts:13-29 | a refresh is requested exactly when the token is expired and a refresh token is present, and with that token; without one nothing changes; the session dies exactly when the requested refresh fails, and is then emptied in object and cookie; a success saves `Refreshed`; cleared temporaries stay cleared |
| SessionRefresh.RefreshIfExpired | app/api/customer/route.ts:15-32 | on the live object, the new fields, the cookie, whether the session survived and the refresh request are those of `Refresh` |
| AuthCallback.Callback | app/api/auth/callback/route.ts:32-87 | each guard in order gives its message (provider error, missing code or state, state mismatch, missing verifier); the exchange is made exactly when every guard passes, with the query's code and the stored verifier; an error leaves session and cookie unchanged; success exactly when the guards pass and the exchange and the id-token decoding succeed, and then the tokens, the `sub` claim and the expiry are stored, the PKCE temporaries cleared, the cookie saved, and the posted customer id is the stored one |
| AuthCallback.ErrorIgnoresSession | app/api/auth/callback/route.ts:32-39 | a provider error or a missing code or state gives the same message whatever the session holds, and no exchange |
| AuthCallback.ForeignStateRejected | app/api/auth/callback/route.ts:44-49 | a state the session did not issue (or a session with no state) always ends in an error with the session unchanged: the CSRF check |
| AuthCallback.Get | app/api/auth/callback/route.ts:5-88 | on the live session, the message, the exchange request and the new session are those of `Callback`; when `getSession` throws, the first two guards still answer and otherwise the reply is `Token exchange failed` |
| AuthMe.Me | app/api/auth/me/route.ts:5-35 | no access token: logged out and nothing changed; a refresh is requested exactly when expired with a refresh token; logged out after that exactly when the refresh failed, with the session emptied; an expired token with no refresh token is still reported as logged in; the refresh keeps the id token; the reported customer id is the session's |
| AuthMe.Get | app/api/auth/me/route.ts:5-35 | on the live session, the reply, the refresh request and the new state are those of `Me` |
| AuthLogout.Logout | app/api/auth/logout/route.ts:6-24 | the session and its cookie are emptied, the reply is success, and revocation is requested exactly when an id token was present, with the token read before destroying |
| AuthLogout.LogoutTwice | app/api/auth/logout/route.ts:7-24 | logging out again succeeds, changes nothing and has nothing left to revoke |
| AuthLogout.Post | app/api/auth/logout/route.ts:6-28 | on the live session the outcome is that of `Logout` whatever the revocation did; when `getSession` throws the reply is the 500 `Logout failed` |
| CustomerRoute.Classify | app/api/customer/route.ts:55-67 | a thrown error gives 500 with its message; a response gives 200 with the upstream document exactly when it has no errors and is ok, and otherwise 500 `Error from Shopify API` with the errors |
| CustomerRoute.Customer | app/api/customer/route.ts:8-68 | no token: 401 `Unauthorized` with no call; refresh exactly when expired with a refresh token, and a failed one gives 401 `Session expired` with the session emptied and nothing forwarded; a refresh here also replaces the id token; the query is forwarded exactly when the session is usable, with its current token, and the reply is `Classify` of the answer |
| CustomerRoute.FreshTokenForwarded | app/api/customer/route.ts:34-43 | a token that is not about to expire is forwarded unchanged |
| CustomerRoute.RefreshedTokenForwarded | app/api/customer/route.ts:20-43 | after a successful refresh the forwarded token is the new one |
| CustomerRoute.Post | app/api/customer/route.ts:8-68 | on the live session, the reply, the refresh and forwarded requests and the new state are those of `Customer` |
| CustomerUpdate.Variables | app/api/customer/update/route.ts:54-61 | the mutation variables carry the current token and exactly the posted first name, last name and phone |
| CustomerUpdate.Classify | app/api/customer/update/route.ts:76-88 | GraphQL errors win over user errors; user errors give 500 with them as details; 200 with the updated customer exactly when there are neither and the payload is present; the HTTP status is not consulted; every failure is a 500 |
| CustomerUpdate.Update | app/api/customer/update/route.ts:27-89 | as `Customer`, but the refresh keeps the id token and the mutation is sent with `Variables` |
| CustomerUpdate.RoutesDifferOnlyInIdToken | app/api/customer/update/route.ts:39-45 | after the same successful refresh the two routes leave the same session except that only the customer route stores the new id token |
| CustomerUpdate.Post | app/api/customer/update/route.ts:27-89 | on the live session, the outcome is that of `Update` |
| AuthContext.FetchedState | contexts/AuthContext.tsx:32-44 | loading ends; a failed fetch gives the logged-out triple; otherwise the triple carries the reply's flag and customer id |
| AuthContext.AuthProvider.constructor | contexts/AuthContext.tsx:25-48 | the initial triple is logged out and loading, and mounting starts one fetch of the auth state |
| AuthContext.AuthProvider.FetchAuthStateSettled | contexts/AuthContext.tsx:32-44 | only a started, unsettled fetch can settle; the triple becomes `FetchedState` of the reply, one more fetch has settled, and nothing else changes |
| AuthContext.AuthProvider.Login | contexts/AuthContext.tsx:50-96 | an error or a missing URL stops the login, as does a blocked popup, and then nothing is registered; otherwise the new attempt, with its listener and its poll, holds the window `window.open` returned: the named window if it was still open, else a newly created one, which is now the open one; listener and poll are alive together |
| AuthContext.AuthProvider.Cleanup | contexts/AuthContext.tsx:81-87 | the attempt's listener and poll are removed; its own window is closed and counted only if that window is still open, and any other window is left alone |
| AuthContext.AuthProvider.HandleMessage | contexts/AuthContext.tsx:65-79 | a message from another origin, or of another type, changes nothing; success and error both end the attempt and close its own window if still open; only success starts a refetch; the triple itself is untouched until that refetch settles |
| AuthContext.AuthProvider.PopupClosed | contexts/AuthContext.tsx:84 | the open popup window is closed; no listener, poll or state changes |
| AuthContext.AuthProvider.PollTick | contexts/AuthContext.tsx:91-95 | while the attempt's own window is open a tick changes nothing; once that window is closed the attempt is torn down, whatever window another login has opened since, without touching the auth state |
| AuthContext.AuthProvider.Logout | contexts/AuthContext.tsx:98-121 | the logged-out triple is shown at once; the page goes to the returned logout URL when there is one and reloads otherwise, including when a request threw |
| AuthContext.ReopenScenario | contexts/AuthContext.tsx:50-96 | after a first popup is closed by hand and a second login opens a new window, the first attempt's poll tears down only that attempt and closes nothing |
| AuthContext.SignInScenario | contexts/AuthContext.tsx:50-96 | a popup login whose page posts success ends with the triple the `me` route reported, the attempt torn down, one popup close and two fetches |
| Cart.Find | app/context/cartContext.tsx:49 | the first entry with the id, found exactly when some entry has it |
| Cart.SetQuantity | app/context/cartContext.tsx:67-71 | every entry with the id gets the new quantity and every other entry is unchanged, in place |
| Cart.AddedToast | app/context/cartContext.tsx:56-62 | the toast says "actualizado en el carrito" when the id was in the cart and "agregado al carrito" otherwise |
| Cart.Removed | app/context/cartContext.tsx:74 | the filtered list is never longer |
| Cart.AddExisting | app/context/cartContext.tsx:49-59 | adding a known id changes only that entry, to the old quantity plus the added one capped at the entry's stock |
| Cart.AddAbsent | app/context/cartContext.tsx:62-63 | adding an unknown id appends the item unchanged, with no cap |
| Cart.AddKeepsUnique | app/context/cartContext.tsx:47-64 | adding keeps ids unique |
| Cart.UpdateKeepsUnique | app/context/cartContext.tsx:67-71 | updating keeps every id in place and ids unique |
| Cart.RemovedMembers | app/context/cartContext.tsx:74 | removal keeps exactly the entries with another id |
| Cart.RemovedConcat | app/context/cartContext.tsx:74 | removal keeps the order of the remaining entries |
| Cart.RemoveKeepsUnique | app/context/cartContext.tsx:73-75 | removing keeps ids unique |
| Cart.RemoveAbsent | app/context/cartContext.tsx:73-75 | removing an id that is not there changes nothing |
| Cart.RemoveIdempotent | app/context/cartContext.tsx:73-75 | after removal the id is gone, and removing it again changes nothing |
| Cart.CartProvider.constructor | app/context/cartContext.tsx:34-40 | the cart starts as the stored list, or empty when there is none, with no toast |
| Cart.CartProvider.AddToCart | app/context/cartContext.tsx:47-65 | the list and the toast become those of `Added` and `AddedToast`; unique ids are preserved |
| Cart.CartProvider.UpdateQuantity | app/context/cartContext.tsx:67-71 | the list becomes `SetQuantity` of the old one; unique ids are preserved |
| Cart.CartProvider.RemoveFromCart | app/context/cartContext.tsx:73-75 | the list becomes `Removed` of the old one; unique ids are preserved |
| Cart.CartProvider.ClearCart | app/context/cartContext.tsx:77 | the list is emptied and the toast kept |
| Cart.CartProvider.CloseToast | app/context/cartContext.tsx:86-90 | the toast is hidden and the list kept |
| Catalog.IsMenudeoVariant | lib/shopify.ts:84-96 | no variant is not retail; a retail mention in the lowered title or option text makes it retail; otherwise a wholesale mention excludes it and a variant mentioning neither is retail |
| Catalog.MenudeoByParts | lib/shopify.ts:86-92 | joining the option values with spaces creates no false match: a variant is retail exactly when the title or one option value mentions `menudeo`, or none mentions `mayoreo` |
| Catalog.RetailVariants | lib/shopify.ts:99-101 | the filter keeps exactly the retail variants |
| Catalog.MinAmount | lib/shopify.ts:107-108 | `Math.min` is a lower bound attained by some variant |
| Catalog.MaxAmount | lib/shopify.ts:107-109 | `Math.max` is an upper bound attained by some variant |
| Catalog.GetMenudeoPriceRange | lib/shopify.ts:98-122 | with no retail variant the product's own range; otherwise min and max are the least and greatest retail prices, both attained, in the first retail variant's currency |
| Catalog.RetailCurrencyIsFirst | lib/shopify.ts:110 | the first retail variant is the first variant the rule accepts |
| Catalog.KeepPoliciesMembers | lib/shopify.ts:260-262 | the kept policies are exactly the present ones whose body is not all whitespace |
| Catalog.KeepPoliciesConcat | lib/shopify.ts:260-262 | filtering keeps the order of the policies |
| Catalog.PoliciesInOrder | lib/shopify.ts:228-263 | the shop's policies come out present and non-blank, at most four, the privacy policy first when it is kept |
| Catalog.GetCustomer | lib/shopify.ts:282 | a customer comes back exactly when the body, its `data` and the customer are all present |
| Text.TrimEmptyIff | lib/shopify.ts:261 | `trim()` yields the empty string exactly when every character is JavaScript whitespace |
| Text.JoinContains | lib/shopify.ts:87-90 | a word without the separator occurs in a join exactly when it occurs in one of the joined strings |
| ProductView.FindSizeOption | components/FloatingProductCard.tsx:34-36 | the first option whose lowered name is size, talla, tamaño or tamaño de accesorio, found exactly when one exists |
| ProductView.SizeOfSpec | components/FloatingProductCard.tsx:32-41 | a variant's size is its first size-named option's value, or else the value of its only option when that is not named `Title` |
| ProductView.RawSizes | components/FloatingProductCard.tsx:31-42 | the non-empty sizes the variants contribute, and no others |
| ProductView.Dedup | components/FloatingProductCard.tsx:30-43 | `Array.from(new Set(...))` holds exactly the values of its input |
| ProductView.DedupSpec | components/FloatingProductCard.tsx:30-43 | `Array.from(new Set(...))` keeps every value once, in order of first occurrence |
| ProductView.SizesSpec | components/ProductPageContent.tsx:27-38 | the size list has no duplicates, holds exactly the non-empty sizes of the variants, in order of first appearance |
| ProductView.HasMatchingOption | components/FloatingProductCard.tsx:49-51 | true exactly when a size-named option has the chosen value |
| ProductView.SelectedVariant | components/FloatingProductCard.tsx:48-53 | the first variant with a size-named option, or a sole option, equal to the chosen size; none when no size is chosen |
| ProductView.PriceDisplayFor | components/FloatingProductCard.tsx:64-72 | a chosen and matched size shows that variant's price; otherwise one price when min and max agree and the span when they differ |
| ProductView.IsOutOfStock | components/ProductPageContent.tsx:89-91 | with a size chosen, out of stock exactly when no variant matches it or the first match is unavailable; without one, when the product is unavailable |
| ProductView.PrevStart | components/FloatingProductCard.tsx:79 | stays in range and steps back one, wrapping from 0 to the last image |
| ProductView.NextStart | components/FloatingProductCard.tsx:85 | stays in range and steps on one, wrapping from the last image to 0 |
| ProductView.PrevNextInverse | components/FloatingProductCard.tsx:76-86 | next undoes prev and prev undoes next |
| ProductView.WindowDistinct | components/FloatingProductCard.tsx:88-97 | with at least as many images as slots, no image is shown twice |
| ProductView.WrapDistinct | components/FloatingProductCard.tsx:92 | two slots less than `n` apart never land on the same image |
| ProductView.FloatingCardGallery | components/FloatingProductCard.tsx:25-91 | the card's gallery shows three thumbnail slots, starting at 0 with the first image selected |
| ProductView.ProductPageGallery | components/ProductPageContent.tsx:23-81 | the page's gallery shows four thumbnail slots, starting at 0 with the first image selected |
| ProductView.Gallery.constructor | components/FloatingProductCard.tsx:25-27 | the carousel starts at 0 with the first image selected |
| ProductView.Gallery.HandlePrev | components/FloatingProductCard.tsx:76-80 | no images: nothing changes; otherwise the start moves to `PrevStart`; the selection is kept |
| ProductView.Gallery.HandleNext | components/FloatingProductCard.tsx:82-86 | no images: nothing changes; otherwise the start moves to `NextStart`; the selection is kept |
| ProductView.Gallery.SelectImage | components/FloatingProductCard.tsx:138 | clicking a thumbnail selects its index in the full list; the carousel stays |
| ProductView.Gallery.MainImage | components/FloatingProductCard.tsx:74 | the selected image, or the first one when the index is past the end, or none |
| ProductView.Gallery.VisibleImages | components/ProductPageContent.tsx:79-87 | the loop yields `window` thumbnails starting at the carousel start and wrapping around, each with its index; no image twice when there are enough images |
| DogMap.AlphaAtEvent | components/Perro3D.tsx:46-61 | 0 without the canvas, the container or a 2D context; otherwise the alpha under the pointer |
| DogMap.TopmostHitBelowSpec | components/Perro3D.tsx:65-73 | the search returns the highest layer whose alpha exceeds 10, and none only when no layer does |
| DogMap.PartUnderPointerIff | components/Perro3D.tsx:65-73 | a part is chosen exactly when it is hit and no layer above it is |
| DogMap.DistinctParts | components/Perro3D.tsx:6-12 | the five part ids are distinct |
| DogMap.ThresholdIsStrict | components/Perro3D.tsx:68 | an alpha of exactly 10, or a part whose canvas is not mounted, has no context, or whose container is missing, never selects that part |
| DogMap.DogMapView.constructor | components/Perro3D.tsx:22-27 | no active part, pointer at the origin, no canvases and no container mounted |
| DogMap.DogMapView.SetCanvasRef | components/Perro3D.tsx:101 | records the canvas (or its unmounting) under the part id and nothing else |
| DogMap.DogMapView.SetContainer | components/Perro3D.tsx:89 | records whether the container is mounted and nothing else |
| DogMap.DogMapView.FindHit | components/Perro3D.tsx:65-72 | the top-down loop returns exactly `PartUnderPointer` |
| DogMap.DogMapView.HandleMouseMove | components/Perro3D.tsx:63-74 | the pointer position is recorded and the active part becomes the part under the pointer, or none |
| DogMap.DogMapView.HandleClick | components/Perro3D.tsx:76-85 | `onPartSelect` is called at most once, with the part under the pointer, and not at all when nothing is hit or there is no callback |
| DogMap.DogMapView.HandleMouseLeave | components/Perro3D.tsx:94 | leaving clears the active part and nothing else |

## Left out

- The network is left out. Every `fetch` and its parsed reply is an input: the discovery document, the token endpoint's answer, the id-token decoding, the Storefront API's answer, and the replies the browser fetches.
- Randomness and hashing are inputs. `crypto.getRandomValues` becomes the byte list, and `crypto.subtle.digest('SHA-256', …)` a function parameter.
- Pkce.GenerateRandomString: the bias that `byte % 66` puts on the distribution of characters is not stated, because the model has no probabilities.
- Pkce.Utf8Encode: the length and byte contract is stated only for ASCII input, because every verifier the project generates is ASCII. UTF-16 surrogate pairs are not modelled, since a string is a sequence of code points.
- iron-session's encryption, cookie handling and 30-day lifetime are not modelled. The cookie is the plain `stored` value.
- A failure of `session.save()` is not modelled.
- A throwing `getSession()` is modelled only in the callback and logout routes, where the source catches it. In the `me` and customer routes it escapes to the framework.
- `request.json()` throwing in the two customer routes is not modelled. It happens outside their `try` blocks.
- The `me` route and the two customer routes read `Date.now()` twice, once for the expiry check and once for the new expiry. The model uses a single `now` for both. The callback route reads it once, for the expiry it stores, and the logout route does not read it.
- ShopifyAuth.LookupConfig: a discovery body of JSON `null` is not distinguished from a parse failure.
- The routes take the refresh or exchange result as an input rather than calling `ShopifyAuth.RefreshAccessToken` or `ExchangeCodeForTokens`. Those methods are modelled separately with their own contracts.
- The callback's HTML page and its `postMessage` target origin are left out. Only the message it posts is modelled.
- The id token's signature is not checked, and the source does not check it either.
- The `login` route, which builds the authorization URL, is not part of this model. Its JSON reply is an input to `AuthContext.AuthProvider.Login`. The `logout-url` route is also not part of this model.
- AuthContext.AuthProvider.Login: an exception from the login URL request is not modelled. The source leaves such a rejection unhandled as well. The popup's size and position, and the `alert` shown for a blocked popup, are left out.
- AuthContext.AuthProvider.HandleMessage: a message whose `data` is null would throw in the source. This is not modelled.
- Timers are not modelled as time. The 500 ms poll is a sequence of `PollTick` events.
- The cart's writes to `localStorage` are not modelled. Only the initial read is.
- The cart assumes the stored JSON parses. The toast component's own timer is not modelled.
- Prices are integers. `parseFloat`, `toString` and `Intl.NumberFormat` are left out.
- ProductView.PriceDisplayFor: the source compares the min and max amount strings. The model compares numbers, so `"10.0"` and `"10"` count as equal here.
- Text.ToLowerChar: only ASCII and Latin-1 letters are lowered. That is enough for the option names and words the rules look for.
- Optional chaining on fields that the product type declares present is not modelled. The affected fields are `variant.title`, `selectedOptions`, `variants?.edges` and `images?.edges`.
- The dog diagram's mapping from client coordinates to image coordinates is not modelled. Nor are image loading, drawing into the canvases, or the tooltip. `pixelAlpha` stands for the canvas content under the pointer.
- JSX rendering, styling and the remaining UI components are left out.
