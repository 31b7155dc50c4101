# Storefront client: session, request gateway and paginated asset query

A Dafny model of the stateful core of a browser storefront for digital assets
(a React/TypeScript client of a remote marketplace API):

- **Credential store** (`credential_store.dfy`): the single `localStorage` slot
  `'token'`, shared by the gateway, the auth service and the session manager,
  as the class `TokenStore`.
- **Request gateway** (`gateway.dfy`, `src/lib/axios.ts`): the request
  interceptor that writes `Authorization: Bearer <token>` into the outgoing
  config in place, and the response interceptor that deletes the stored token
  on a 401 and rejects the error again.
- **Auth service** (`auth_service.dfy`, `src/services/auth.ts`): conditional
  token store on login, logout, and the presence test.
- **Session manager** (`session.dfy`, `src/contexts/AuthContext.tsx`): the
  `AuthProvider` as a class over the shared token slot and its `user` cell,
  with one transition function per path (mount, login, register, logout,
  refresh) that the class's methods are proved against, and lemmas saying
  exactly which (token, user) combination each path leaves behind. The JWT
  decoder is a parameter `decode: string -> Option<User>` about which nothing
  is assumed.
- **Paginated asset query** (`asset_query.dfy`, `src/hooks/useAssets.ts`): the
  `useAssets` state cells `assets`, `loading`, `error`, `pagination` as a class,
  the step sequence of `fetchAssets` and `purchaseAsset`, the pagination
  derivation as integer ceiling division, and the Previous/Next requests a
  listing builds from the flags (`src/components/HomePage.tsx`).
- **Catalog tables** (`catalog.dfy`, `src/data/products.ts`): the category
  table, its first-match lookups with the default icon, and the product table.

Network answers are parameters: a `Reply` (fulfilled body or axios error with
optional status) for calls through the gateway, a `Result` with a thrown value
for the hook's calls.

The intended session invariant is that a user is present exactly when a
stored token decodes to that user (`Session.Coherent`). The code does not keep
it, and the model follows the code:

- A 401 through the gateway removes the stored token but leaves the in-memory
  `user` in place, so `isAuthenticated` stays true (`Session.UnauthorizedKeepsUser`,
  `Session.SignInThenUnauthorized`), although the intended invariant would
  have a 401 end the session.
- `refreshUser` with no stored token leaves a stale `user` in place
  (`Session.RefreshKeepsStaleUser`), where the intended invariant would have
  the user become absent.
- `login` stores the returned token before decoding it, so an undecodable token
  stays stored while `user` is unchanged (`Session.LoginStoresBeforeDecoding`);
  a missing token is stored as the text "undefined". A failed login is meant
  to leave no partial session.
- The login and register requests pass through the gateway, so a 401 answer to
  either removes a previously stored token (`Session.LoginRequestFailure`).

## Model

| member | source | states |
|---|---|---|
| Gateway.WithBearer | src/lib/axios.ts:10-15 | a truthy token sets `Authorization` to `"Bearer " + token` (prefix then exactly the token); no token or an empty one leaves the headers as they were; other headers are kept and none added |
| Gateway.TokenAfterReply | src/lib/axios.ts:28-36 | the token after a reply is the old one or none, and it changes exactly when a token was stored and the reply is an error with status 401 |
| Gateway.InterceptRequest | src/lib/axios.ts:9-26 | the same config object is returned, its url kept and its headers replaced by the bearer headers of the stored token; storage is only read |
| Gateway.InterceptResponse | src/lib/axios.ts:28-36 | replies are passed on unchanged (errors still rejected); a fulfilled reply never touches storage; a 401 removes the token and nothing else |
| Gateway.Send | src/lib/axios.ts:4-36 | a call sends a fresh config with the bearer headers of the token stored before it, returns the server's reply unchanged, and leaves the token as the response interceptor does |
| Gateway.NoBearerAfterUnauthorized | src/lib/axios.ts:12-13 | after a 401 the next request's headers are left exactly as the caller gave them |
| AuthService.IsAuthenticated | src/services/auth.ts:34-36 | true exactly when a non-empty token is stored |
| AuthService.Login | src/services/auth.ts:16-23 | returns the body unchanged; stores the returned token exactly when it is truthy, after which the service reports authenticated; a missing or empty token leaves storage as it was; a failed request changes storage only by the gateway's 401 rule |
| AuthService.Register | src/services/auth.ts:25-28 | returns the reply unchanged; the token changes only by the gateway's 401 rule |
| AuthService.Logout | src/services/auth.ts:30-32 | ends with no token stored, whatever was there, so repeating it changes nothing |
| Session.AuthProvider.constructor | src/contexts/AuthContext.tsx:18-19 | a provider starts with no user over whatever token the slot already holds |
| Session.AuthProvider.IsAuthenticated | src/contexts/AuthContext.tsx:117 | true exactly when `user` is non-null; true after a login that raised nothing, false after logout, and unchanged by any other call, a 401 included |
| Session.AuthProvider.Mount | src/contexts/AuthContext.tsx:22-32 | the state after the mount effect is the startup transition of the state before it |
| Session.AuthProvider.Login | src/contexts/AuthContext.tsx:54-87 | the new state and the re-raised error are the login transition of the old state and the server's answer; a login that raises nothing leaves the provider authenticated, a failed one leaves `isAuthenticated` as it was |
| Session.AuthProvider.Register | src/contexts/AuthContext.tsx:34-52 | the new state and the re-raised error are the register transition: the login runs only after the registration request succeeds |
| Session.AuthProvider.Logout | src/contexts/AuthContext.tsx:89-96 | the new state is the logout transition, no longer authenticated |
| Session.AuthProvider.Call | src/lib/axios.ts:28-36 | any other call through the gateway returns the reply unchanged, changes the session only by the 401 rule on the token, and leaves `user` and so `isAuthenticated` as they were |
| Session.AuthProvider.RefreshUser | src/contexts/AuthContext.tsx:98-109 | the new state is the refresh transition of the old state |
| Session.RestoreOutcomes | src/contexts/AuthContext.tsx:22-32 | startup: a decodable truthy token sets the user to its claims; an undecodable one is removed and the user stays absent; no token or an empty one changes nothing; from a fresh provider this leaves user and token coherent |
| Session.LogoutIdempotent | src/contexts/AuthContext.tsx:89-96 | logout ends with no token and no user from any state, so it is idempotent and leaves a coherent session |
| Session.LoginSuccess | src/contexts/AuthContext.tsx:64-72 | an answer whose token decodes stores exactly that token, sets the user to its claims and raises nothing |
| Session.LoginRequestFailure | src/contexts/AuthContext.tsx:64-86 | a failed login request re-raises its error and keeps the user; the token is kept unless the status is 401, which removes it |
| Session.LoginStoresBeforeDecoding | src/contexts/AuthContext.tsx:68-72 | an undecodable answer leaves its token stored (a missing one as "undefined"), the user unchanged, and re-raises |
| Session.LoginUndecodableBreaksCoherence | src/contexts/AuthContext.tsx:68-72 | over a signed-in user, an undecodable login answer leaves a stored token that disagrees with the user |
| Session.RegisterFailureSkipsLogin | src/contexts/AuthContext.tsx:34-51 | a failed registration attempts no login (the login answer is irrelevant), re-raises the error and changes only what the gateway's 401 rule changes |
| Session.RegisterSuccessLogsIn | src/contexts/AuthContext.tsx:36-38 | after a successful registration the outcome is exactly that of the login |
| Session.RefreshOutcomes | src/contexts/AuthContext.tsx:98-109 | refresh with a valid token keeps it and sets its user; with an invalid one removes the token and the user; with none changes nothing; it makes the session coherent whenever a token is stored and keeps a coherent one coherent |
| Session.RefreshKeepsStaleUser | src/contexts/AuthContext.tsx:99-100 | refresh with no stored token keeps a stale user, leaving the session incoherent |
| Session.UnauthorizedKeepsUser | src/lib/axios.ts:31-33 | a 401 over a coherent signed-in session removes the token but keeps the user, so the session is no longer coherent |
| Session.SignInThenUnauthorized | src/contexts/AuthContext.tsx:64-109 | sign in, then a 401 elsewhere: the token is gone but the user remains; refresh does not remove it; logout does |
| AssetQuery.CeilDiv | src/hooks/useAssets.ts:46 | for a positive page size the page count is the least `q` with `totalCount <= q * pageSize` |
| AssetQuery.CeilDivUnique | src/hooks/useAssets.ts:46 | that characterization determines the page count uniquely |
| AssetQuery.HasNextIffBeforeLastPage | src/hooks/useAssets.ts:46-47 | `page * pageSize < totalCount` holds exactly when `page < totalPages` |
| AssetQuery.Paginate | src/hooks/useAssets.ts:42-49 | the metadata copies count, page and size from the response, brackets the count by the page count, has a next page exactly before the last page and a previous page exactly after page 1 |
| AssetQuery.InitialDerived | src/hooks/useAssets.ts:18-25 | the initial pagination (0, 1, 10, 0, false, false) is consistent with its own counts |
| AssetQuery.PaginationExamples | src/hooks/useAssets.ts:46-48 | 95 items in pages of 10: page 3 gives 10 pages with both neighbours, page 10 has no next page |
| AssetQuery.PreviousPageRequest | src/components/HomePage.tsx:158-159 | "Previous" is offered exactly when `hasPreviousPage`, asks for the page before with the same size, and never for a page below 1 |
| AssetQuery.NextPageRequest | src/components/HomePage.tsx:168-169 | "Next" is offered exactly when `hasNextPage`, asks for the page after with the same size, and never past `totalPages` |
| AssetQuery.AssetListing.constructor | src/hooks/useAssets.ts:15-25 | no assets, not loading, no error, the initial pagination |
| AssetQuery.AssetListing.BeginFetch | src/hooks/useAssets.ts:30-31 | while a fetch is in flight: loading, no error, assets and pagination as before |
| AssetQuery.AssetListing.SettleFetch | src/hooks/useAssets.ts:41-60 | a success replaces the assets and the derived pagination; a failure keeps both and records the error's message or "Failed to fetch assets"; loading ends |
| AssetQuery.AssetListing.FetchAssets | src/hooks/useAssets.ts:28-61 | a completed fetch ends not loading and keeps the pagination consistent; a success sets the response's items and derived pagination with no error; a failure keeps assets and pagination exactly and sets the error message |
| AssetQuery.AssetListing.PurchaseAsset | src/hooks/useAssets.ts:63-82 | assets, pagination and error unchanged, loading ends, and a failure is re-raised |
| Catalog.FindIndex | src/data/products.ts:145 | the index found is of the first entry with that id; none is found only when no entry has it |
| Catalog.GetCategoryInfo | src/data/products.ts:149-151 | the first table entry whose id matches; absent exactly when no entry matches |
| Catalog.GetCategoryIcon | src/data/products.ts:144-147 | the matching entry's icon, or `Code` when nothing matches |
| Catalog.CategoryIdsAreTheUnion | src/data/products.ts:131-142 | the table's ids are the `ProductCategory` members, one entry each, in order |
| Catalog.CategoryIdsDistinct | src/data/products.ts:131-142 | no two table entries share an id |
| Catalog.EveryCategoryCovered | src/data/products.ts:3-13 | for every `ProductCategory` the lookup is defined and the icon is the entry's, never the fallback |
| Catalog.OnlyUnionMembersCovered | src/data/products.ts:144-151 | any other string has no entry and gets the default icon |
| Catalog.ProductIdsDistinct | src/data/products.ts:29-129 | product ids are pairwise distinct |
| Catalog.ProductCategoriesCovered | src/data/products.ts:29-129 | every product's category is a `ProductCategory` with a table entry |

## Left out

- The cart store: `CartContext` is not part of this model; `Cart.tsx` and the add-to-cart handlers only consume it, so its add/remove/clear semantics are not modelled.
- `downloadAsset` (src/hooks/useAssets.ts:84-107): blob, object-URL and DOM plumbing; its state effect is the same as `purchaseAsset`'s.
- Toast notifications and console logging: they change no modelled state.
- Concurrency: overlapping `fetchAssets`, `login` or `refreshUser` calls resolve last-to-win in the client; each call is modelled as one sequential step.
- The network clients under src/api/: transport, timeouts and their error-message wrapping. The hook's calls take how the request settled as a parameter; the gateway's 401 rule, which those requests also pass through, is modelled by `Gateway.Send` and composed into the session manager (`Session.AuthProvider.Call` for any call, plus login and register) and the auth service, but not into `AssetQuery.AssetListing`.
- `AssetQuery.AssetListing.FetchAssets`: requires a successful response to carry `pageSize >= 1`; with 0 the client divides by zero and stores JavaScript's `Infinity`/`NaN` page count, which integers cannot represent.
- `AssetQuery.AssetListing.FetchAssets`: the filter in `params` only reaches the server, so the model does not relate it to the response.
- Request bodies (credentials, filters) and every storage key other than `'token'`.
- `jwtDecode`: a parameter with no claims about what it accepts; token expiry is not checked by the client either.
- Asset, product and user records keep only a few fields; product prices are integer cents; floating-point formatting is not modelled.
- `useAuth` (src/contexts/AuthContext.tsx:125-131): React context plumbing that throws outside a provider.
