# Intellio authentication and AI handlers in Dafny

This project models how the Intellio web application authenticates users and keeps their sessions alive, together with the pure parts of its AI tool handlers.

**Server side (Express and PostgreSQL)**
- Signing and verifying the short-lived access token and the long-lived refresh token.
- The `refresh_tokens` table.
- The register, login, logout, logout-everywhere, renewal and profile endpoints.
- The `protect` session gate.
- The Google sign-in strategy and its callback.

**Browser side (React)**
- The token store in `localStorage`.
- The HTTP client's interceptors, which attach the bearer token and run the renewal protocol on a 401.
- The persisted Zustand auth store.
- The OAuth callback page.

**AI handlers**
- Input validation.
- Prompt construction.
- The numbered-list title parser.
- The placeholder image list.
- The resume-review fallback.

The model treats these things as parameters:
- the database, as immutable tables (`Db`, `seq<Creation>`);
- time, in milliseconds;
- the JWT library, as an oracle record `Jwt` with a `Sound` predicate;
- bcrypt, as an oracle record `Hasher` with a `Sound` predicate;
- the text generator and the encoders.

A flag `storeDown` makes the database calls of a handler throw. The browser sees the server as a function `Server = Request -> Option<Response>`, where `None` is a network failure. `SessionProperties.ServerView` instantiates that function with the modelled router, so the lemmas can follow a token from the server that minted it, through the browser's storage, back to the gate.

Modules:
- `Common`, `Text`: option type, JavaScript `undefined` rendering, `filter`/`find`, `trim`/`split`/`join`.
- `Users`, `Tokens`, `Http`, `Server`: rows, oracles, token helpers, request and response shapes, and the `Valid` invariant.
- `AuthController`, `AuthMiddleware`, `Passport`, `AuthRoutes`: the server.
- `TokenManager`, `ApiClient`, `AuthStore`: the browser.
- `AiController`: the AI handlers.
- `ServerProperties`, `SessionProperties`: lemmas that relate several operations.

## Model

| member | source | states |
|---|---|---|
| Tokens.VerifyToken | server/utils/tokenUtils.js:30-36 | a token is accepted iff its signature checks and the current second is before `exp`; every failure gives `None` |
| Tokens.RefreshLifetime | server/utils/tokenUtils.js:12-16 | the refresh lifetime is `JWT_EXPIRE` when it is set, and seven days when it is unset |
| Tokens.StoreRefreshToken | server/utils/tokenUtils.js:19-27 | exactly one row is appended, for that user and token, expiring seven days after issue; older rows are kept |
| Tokens.DeleteRefreshToken | server/utils/tokenUtils.js:39-43 | the result is a subsequence of the rows with every row of that token removed and every other row kept, counted with multiplicity |
| Tokens.DeleteAllUserTokens | server/utils/tokenUtils.js:46-50 | the same as `DeleteRefreshToken`, keyed on the user id |
| Tokens.DeleteRefreshTokenIdempotent | server/utils/tokenUtils.js:39-43 | deleting a token twice is deleting it once |
| Tokens.AccessTokenRoundTrip | server/utils/tokenUtils.js:5-9 | during its first 899 seconds an access token verifies to its user, with a 15-minute expiry |
| Tokens.AccessTokenExpires | server/utils/tokenUtils.js:5-9 | after 15 minutes an access token no longer verifies |
| Tokens.RefreshTokenClaims | server/utils/tokenUtils.js:12-16 | a refresh token names its user and carries the configured lifetime (seven days by default) |
| Tokens.ShortLifetimeOutlivedByRow | server/utils/tokenUtils.js:12-27 | with a `JWT_EXPIRE` under seven days, the signature expires while the stored row is still live |
| Tokens.LongLifetimeOutlivesRow | server/utils/tokenUtils.js:12-27 | with a `JWT_EXPIRE` over seven days, the row expires while the signature still verifies |
| Users.FindByEmail | server/controllers/authController.js:99-110 | the lookup returns a row with that email, and `None` exactly when no row has it |
| Users.FindById | server/middleware/authMiddleware.js:34-45 | the lookup returns a row with that id, and `None` exactly when no row has it |
| Users.FindByGoogleId | server/config/passport.js:15-22 | the lookup returns a row with that Google id, and `None` exactly when no row has it |
| Users.EmailDeterminesRow | server/controllers/authController.js:28-37 | under the unique-email constraint, two rows with the same email are the same row |
| Users.IdDeterminesRow | server/middleware/authMiddleware.js:34-48 | under the primary key, two rows with the same id are the same row |
| Server.AppendFresh | server/controllers/authController.js:44-48 | appending a row with a fresh id, email and Google id keeps the table constraints |
| AuthController.IssueSession | server/controllers/authController.js:53-73 | a fresh access/refresh pair is minted for the user, its refresh row is stored, and the response carries the pair and the user's public view |
| AuthController.Register | server/controllers/authController.js:15-81 | 400 for a missing field; 400 for a taken email; 500 on a store failure; otherwise 201, exactly one new local account with the next id and the hashed password, and a session issued to it |
| AuthController.Login | server/controllers/authController.js:86-159 | 400 for a missing field; 401 "Invalid credentials" for an unknown email or a wrong password; 401 "Please login with Google" for a Google-only account; 200 exactly when the hash matches on a row that is not Google-only, with a session for that row; the users table never changes |
| AuthController.Logout | server/controllers/authController.js:164-183 | always 200 unless the store fails; removes exactly the rows of the given token; without a token nothing changes |
| AuthController.LogoutAll | server/controllers/authController.js:188-203 | removes every refresh row of the gated user, or answers 500 on a store failure |
| AuthController.MatchingRow | server/controllers/authController.js:230-240 | finds a row with that token and that user id, and `None` exactly when none exists |
| AuthController.RefreshAccessToken | server/controllers/authController.js:208-267 | 401 for a missing token, a bad signature, an unknown row, or an expired row (which is deleted); otherwise 200 with a new access token for the token's user and no table change |
| AuthController.GetMe | server/controllers/authController.js:272-287 | 200 with exactly the user the gate attached |
| AuthMiddleware.BearerToken | server/middleware/authMiddleware.js:8-14 | a token is read exactly when the header starts with `Bearer` and has a second space-separated word, and it is that word |
| AuthMiddleware.BearerRoundTrip | server/middleware/authMiddleware.js:8-14 | the header the client builds gives back the same token |
| AuthMiddleware.Protect | server/middleware/authMiddleware.js:4-57 | every refusal is a 401: no token, invalid token, unknown user, or a store failure; otherwise the request proceeds as the token's user |
| Passport.PictureOf | server/config/passport.js:34 | the picture is the first photo when it is non-empty, else null |
| Passport.Link | server/config/passport.js:31-38 | linking sets the Google id, the picture and the provider, and keeps the id, email, password, name and everything else |
| Passport.LinkByEmail | server/config/passport.js:31-38 | the update touches exactly the rows with that email |
| Passport.ResolveGoogleUser | server/config/passport.js:12-68 | a known Google id signs in unchanged; else a known email is linked; else a verified Google account is created with the next id; a store failure, no email or no photo list is a strategy error that changes nothing |
| Passport.SessionRoundTrip | server/config/passport.js:73-88 | deserialising the serialised id of a stored user gives back that user's public columns |
| AuthRoutes.Lookup | server/routes/authRoutes.js:21-26 | a JSON route is found iff one is registered for that verb whose path the request path matches as Express matches by default: letters in any case, one trailing `/` allowed |
| AuthRoutes.MatchesDetermineRoute | server/routes/authRoutes.js:21-26 | no request path reaches two routes of one verb, even under case-insensitive, trailing-slash matching |
| AuthRoutes.LookupFindsMatch | server/routes/authRoutes.js:21-26 | a request whose path matches a registered route reaches that route |
| AuthRoutes.LookupIgnoresCaseAndSlash | server/routes/authRoutes.js:21-26 | `/auth/LOGIN` and `/auth/login/` reach the same handler as `/auth/login`, for every route |
| AuthRoutes.GuardedRoutes | server/routes/authRoutes.js:21-26 | exactly `/logout-all` and `/me` are guarded, and no two routes share a verb and path |
| AuthRoutes.Dispatch | server/routes/authRoutes.js:21-26 | a path that reaches no route (and is not one of the two Google paths) gets 404 "Route not found"; an unguarded route runs its handler directly; a guarded route runs its handler only when the gate passes, with the gate's user, and otherwise answers with the gate's refusal |
| AuthRoutes.UnguardedIgnoresHeader | server/routes/authRoutes.js:21-25 | unguarded endpoints do not depend on the `Authorization` header |
| AuthRoutes.GoogleCallback | server/routes/authRoutes.js:37-61 | a provider refusal redirects to `auth_failed`; a failing token store redirects to `server_error`; a signed-in user gets a stored refresh row and a redirect carrying exactly the minted pair |
| ServerProperties.ValidIgnoresTokens | server/controllers/authController.js:164-267 | the table invariant does not depend on the refresh rows |
| ServerProperties.RegisterPreservesValid | server/controllers/authController.js:27-48 | registration keeps unique ids, emails and Google ids, and keeps a hash on every local account |
| ServerProperties.LinkPreservesValid | server/config/passport.js:29-39 | linking an unused Google id to an email keeps the table constraints |
| ServerProperties.ResolvePreservesValid | server/config/passport.js:12-68 | Google sign-in keeps the table constraints on every branch |
| ServerProperties.DispatchPreservesValid | server/routes/authRoutes.js:21-26 | every JSON request to the auth router keeps the table constraints |
| ServerProperties.HandleKeepsAccounts | server/routes/authRoutes.js:22-26 | every handler except registration leaves the users table and the id sequence alone |
| ServerProperties.LoginFailuresLookAlike | server/controllers/authController.js:103-128 | an unknown email and a wrong password for any account that has a password (local or linked to Google) get identical responses |
| ServerProperties.GoogleOnlyIgnoresHasher | server/controllers/authController.js:113-121 | a Google-only account is refused before any hash comparison |
| ServerProperties.LogoutIdempotent | server/controllers/authController.js:164-175 | logging out twice with one token is logging out once |
| ServerProperties.RevokedAfterLogout | server/controllers/authController.js:164-240 | after a logout, the token no longer renews |
| ServerProperties.RevokedAfterLogoutAll | server/controllers/authController.js:188-240 | after "log out everywhere", no token of that user renews |
| ServerProperties.RenewalNeedsLiveRow | server/controllers/authController.js:208-259 | a renewal succeeds only against a stored, unexpired row of the token's own user, and mints an access token for that user |
| ServerProperties.RegisterThenLogin | server/controllers/authController.js:15-151 | a freshly registered account logs in with the same password and the same public view |
| ServerProperties.GateOpensForOwnAccessToken | server/middleware/authMiddleware.js:4-57 | a live access token of a stored account passes the gate as that account |
| ServerProperties.MeAnswersGatedUser | server/routes/authRoutes.js:26 | `GET /auth/me` answers with exactly the account the gate attached |
| ServerProperties.RegisterThenMe | server/routes/authRoutes.js:21-26 | the access token returned by a registration opens `/auth/me` for the new account during its first 899 seconds |
| ServerProperties.GateAcceptsRefreshToken | server/middleware/authMiddleware.js:24-49 | the gate accepts a live refresh token as a bearer credential, because both kinds of token carry the same payload |
| TokenManager.GetAccessToken | client/src/utils/tokenManager.js:9-11 | the access token is present iff its slot is set |
| TokenManager.GetRefreshToken | client/src/utils/tokenManager.js:13-15 | the refresh token is present iff its slot is set |
| TokenManager.SetTokens | client/src/utils/tokenManager.js:4-7 | after a set, the getters return exactly the stored pair |
| TokenManager.ClearTokens | client/src/utils/tokenManager.js:17-20 | after a clear, both getters return null |
| TokenManager.StoreDeterminedByGetters | client/src/utils/tokenManager.js:3-20 | the two getters determine the store |
| TokenManager.IsTokenExpired | client/src/utils/tokenManager.js:22-32 | a falsy or undecodable token is expired; otherwise the token is expired iff `exp < now/1000`, with real division |
| TokenManager.GetUserFromToken | client/src/utils/tokenManager.js:34-42 | the result is the decoded payload, or null for a falsy or undecodable token |
| TokenManager.LocalExpiryAgreesWithServer | client/src/utils/tokenManager.js:22-32 | for signed tokens, the browser's expiry check agrees with the server's except at the single millisecond `exp*1000` |
| ApiClient.AttachBearer | client/src/api/axios.js:14-25 | a truthy stored access token becomes `Bearer <token>`; otherwise the request is unchanged |
| ApiClient.RefreshRequest | client/src/api/axios.js:45-48 | the renewal posts the stored refresh token to `/auth/refresh-token` without the bearer header |
| ApiClient.Expire | client/src/api/axios.js:62-68 | a failed renewal clears both tokens, shows the session-expired toast, goes to `/login`, and rejects |
| ApiClient.Settle | client/src/api/axios.js:28-29 | a 2xx answer fulfils; any other answer, or none, rejects with that answer |
| ApiClient.Dispatch | client/src/api/axios.js:14-73 | the first call is the request with the bearer attached; a replayed request is one leg that never touches the tokens; an unmarked one follows the renewal protocol |
| ApiClient.OnError | client/src/api/axios.js:30-72 | only a 401 on an unmarked request renews; every other error is passed on unchanged |
| ApiClient.Renew | client/src/api/axios.js:34-68 | calls go original, then refresh, then replay; a refresh token is needed; a failure expires the session; the refresh token is never replaced |
| ApiClient.Perform | client/src/api/axios.js:14-73 | the exchange is given case by case: no renewal, no refresh token, renewal rejected (with or without a response), or renewal accepted followed by a replay with the new token |
| ApiClient.ReplayLeg | client/src/api/axios.js:51-58 | after an accepted renewal, the replay is a single leg sent with the new bearer |
| AuthStore.Partialize | client/src/store/authStore.js:105-110 | only the user and the flag are persisted, never a token |
| AuthStore.Rehydrate | client/src/store/authStore.js:7-12 | a reload restores the persisted slice over the initial state, with `isLoading` false |
| AuthStore.ReloadRestoresSlice | client/src/store/authStore.js:105-110 | two states reload to the same state iff they agree on the user and the flag |
| AuthStore.Commit | client/src/store/authStore.js:105-110 | every `set` leaves storage in sync with the state |
| AuthStore.UserField | client/src/store/authStore.js:18 | the user is read from a session or profile body |
| AuthStore.RefreshTokenField | client/src/store/authStore.js:18 | the refresh token is read from a session body |
| AuthStore.ErrorMessage | client/src/store/authStore.js:27-28 | the message is the server's message when it is truthy, else the fallback |
| AuthStore.SignIn | client/src/store/authStore.js:14-51 | a fulfilled reply with data stores both tokens and the user; a rejection or a reply without data keeps the user, clears `isLoading` and reports the message |
| AuthStore.Register | client/src/store/authStore.js:14-32 | registration ends authenticated or failed, never loading |
| AuthStore.Login | client/src/store/authStore.js:34-51 | login ends authenticated or failed, never loading |
| AuthStore.Logout | client/src/store/authStore.js:53-68 | the browser always ends signed out with empty token storage; the server is called iff a refresh token is stored |
| AuthStore.LogoutAll | client/src/store/authStore.js:70-79 | success signs out and clears the tokens; on failure the state is unchanged, and the tokens change only through the renewal protocol |
| AuthStore.LoadUser | client/src/store/authStore.js:81-97 | an expired or missing token signs out locally with no call; otherwise `/auth/me` sets the user, and a failure clears the tokens |
| AuthStore.HandleOAuthCallback | client/src/store/authStore.js:99-103 | the pair is stored, the user is loaded, and the login toast shows first |
| AuthStore.QueryParam | client/src/pages/AuthCallback.jsx:11-12 | the result is the value of the first pair with that key, and null iff no pair has the key |
| AuthStore.CallbackPage | client/src/pages/AuthCallback.jsx:10-20 | with both tokens present the page hands them over and goes to `/ai`; otherwise it goes to `/login?error=auth_failed` |
| SessionProperties.ServerView | server/routes/authRoutes.js:21-26 | the browser's server is the auth router at one instant |
| SessionProperties.StoredTokenReachesGate | client/src/api/axios.js:14-25 | the gate extracts exactly the access token the browser stored |
| SessionProperties.LoginRoute | server/routes/authRoutes.js:22 | `POST /auth/login` is the unguarded login handler |
| SessionProperties.RefreshRoute | server/routes/authRoutes.js:25 | `POST /auth/refresh-token` is the unguarded renewal handler |
| SessionProperties.RenewalRefusalMessage | server/controllers/authController.js:220-249 | a failed renewal is a 401 with one of the three refresh messages |
| SessionProperties.RefusalMessage | server/controllers/authController.js:103-128 | a refused login is a 401 with one of the two credential messages |
| SessionProperties.RefusedLoginExpires | client/src/api/axios.js:34-68 | under `AsWritten`, a refused login that cannot renew ends as an expired session |
| SessionProperties.RefusedLoginRejects | client/src/api/axios.js:34 | under `Corrected`, a refused login is one call, rejected with the server's answer |
| SessionProperties.LoginMasksRefusal | client/src/store/authStore.js:45-50 | as written, a refused login wipes the tokens, navigates to the login page, and never shows the server's reason |
| SessionProperties.LoginReportsRefusal | client/src/store/authStore.js:45-50 | corrected, a refused login makes one call, leaves the tokens alone, and shows the server's reason |
| SessionProperties.PoliciesAgreeElsewhere | client/src/api/axios.js:34 | the correction changes nothing for endpoints other than login and register |
| SessionProperties.LoginThenGate | client/src/store/authStore.js:34-51 | a successful login stores the pair the server minted, and its access token opens the gate as that account |
| SessionProperties.CallbackCarriesPair | server/routes/authRoutes.js:53-55 | the redirect query carries the minted pair under the names the callback page reads |
| SessionProperties.LoadUserWithLiveToken | client/src/store/authStore.js:81-97 | with a live token for a stored account, loading makes one call and ends authenticated as that account |
| SessionProperties.GoogleSignInReachesStore | client/src/pages/AuthCallback.jsx:10-20 | a Google sign-in ends with the browser holding the minted pair and authenticated as the signed-in account |
| Common.JsString | client/src/utils/tokenManager.js:5-6 | a missing value is rendered as the text "undefined", as template literals and `setItem` do |
| Text.Trim | server/controllers/aiController.js:73 | the trim is a slice of the line with only white space cut from each end, has no white space at either end, and is empty iff the line is blank |
| Text.Split | server/controllers/aiController.js:72 | the pieces contain no separator and join back to the text |
| Text.SplitJoin | server/controllers/aiController.js:72 | splitting a join of separator-free parts gives back the parts |
| Text.SplitCount | server/controllers/aiController.js:37 | splitting yields one more piece than there are separators |
| AiController.WordCount | server/controllers/aiController.js:37 | the word count is the number of spaces plus one |
| AiController.WriteArticle | server/controllers/aiController.js:9-47 | 400 without a topic; 200 iff the generator and the insert succeed, with one new creation and the article's word count; otherwise 500 |
| AiController.StripNumber | server/controllers/aiController.js:76 | one leading `digits.` and the white space after it are removed, and nothing else |
| AiController.TitleLines | server/controllers/aiController.js:72-73 | the kept lines are, in order, exactly the non-blank lines |
| AiController.ParseTitles | server/controllers/aiController.js:71-77 | each kept line becomes a title numbered from one, stripped of its number and trimmed |
| AiController.NumberedLineShape | server/controllers/aiController.js:73 | a numbered entry is one non-blank line |
| AiController.StripNumberedLine | server/controllers/aiController.js:76 | the `n. ` prefix comes off a numbered entry |
| AiController.NumberedLineParses | server/controllers/aiController.js:73-76 | a numbered entry parses back to its title |
| AiController.NumberedListLines | server/controllers/aiController.js:72-73 | every line of a numbered list survives the blank-line filter |
| AiController.KeptLines | server/controllers/aiController.js:72-73 | joining non-blank lines and filtering them back keeps them all |
| AiController.ParseNumberedList | server/controllers/aiController.js:71-77 | the parser recovers the titles of a numbered list, numbered from one |
| AiController.TitlesOf | server/controllers/aiController.js:74-77 | each kept line becomes the title at its position, numbered from one, stripped of its number and trimmed |
| AiController.ParsedEntries | server/controllers/aiController.js:74-77 | the entries of a numbered list parse to its titles, numbered from one |
| AiController.EntryParses | server/controllers/aiController.js:76 | the i-th entry of a numbered list parses back to the i-th title |
| AiController.GenerateBlogTitles | server/controllers/aiController.js:52-98 | 400 without a topic; 200 iff the generator and the insert succeed, with the parsed titles; otherwise 500 |
| AiController.Resolution | server/controllers/aiController.js:116-122 | `9:16` and `16:9` have their resolutions; every other size is `800x800` |
| AiController.ImageCount | server/controllers/aiController.js:125 | a missing or zero count gives one image, a negative count none |
| AiController.BuildImages | server/controllers/aiController.js:125-133 | image i has id i+1, colour `i mod 5`, and the shared prompt, style and size |
| AiController.ImageUrlSeparatesColors | server/controllers/aiController.js:127 | two placeholder URLs are equal iff their colours are |
| AiController.ColorsDistinct | server/controllers/aiController.js:123 | the five colours are distinct |
| AiController.ImagesCycleColors | server/controllers/aiController.js:125-129 | two images share a URL iff their positions differ by a multiple of five |
| AiController.GenerateImages | server/controllers/aiController.js:103-154 | 400 without a prompt; 500 for an array longer than the maximum or a failing insert; otherwise 200 with the image list |
| AiController.EchoUpload | server/controllers/aiController.js:159-241 | without a file, 400; otherwise the upload comes back unchanged as a data URL and is recorded |
| AiController.RemoveBackground | server/controllers/aiController.js:159-198 | the background-removal mock echoes the upload and records one creation |
| AiController.RemoveObject | server/controllers/aiController.js:203-241 | the object-removal mock echoes the upload and records one creation |
| AiController.Excerpt | server/controllers/aiController.js:272 | the excerpt is the first 5000 characters, or the whole text if shorter |
| AiController.ResumePromptSeesExcerpt | server/controllers/aiController.js:261-282 | resumes that agree on their first 5000 characters get the same prompt |
| AiController.ParseReview | server/controllers/aiController.js:287-300 | the review is the generator's text when it is JSON, otherwise the fixed fallback |
| AiController.ReviewResume | server/controllers/aiController.js:246-325 | 400 without a file; 200 iff the generator and the insert succeed, recorded under the target role or "General review"; otherwise 500 |

## Left out

- Cryptography: signing, signature checking and bcrypt are oracles. Only the properties in `Tokens.Sound` and `Users.Sound` are assumed. bcrypt's 72-byte truncation and salt generation are not modelled; the salt is a parameter.
- `JWT_EXPIRE` parsing (`"7d"`, `"15m"`, bare numbers) is not modelled. The configured lifetime is already in seconds. A malformed value, which makes signing throw, is not modelled.
- Calendar arithmetic: `setDate(+7)` is modelled as exactly seven days of milliseconds. Daylight-saving shifts are not modelled.
- SQL row order: a lookup returns the first matching row of the sequence, whereas the database gives no order.
- Store failures are all-or-nothing per handler: `storeDown` makes the handler's queries throw. A failure between two statements of one handler (for example, after the user insert but before the token insert in `register`) is not modelled.
- `AuthController.Login`: the hash-compare path on a local row without a hash answers 500, as bcrypt throws; under `Valid` that row cannot exist.
- `AuthController.Register`: `is_verified` takes the column default, assumed false. `server/config/db.js` is context only and its schema is not part of this model.
- Every `Authorization` header is one string. Express lower-casing and repeated headers are not modelled.
- `AuthRoutes.GoogleSignIn` composes the strategy with the callback. It has no contract of its own; its properties are those of `Passport.ResolveGoogleUser` and `AuthRoutes.GoogleCallback`.
- `AuthRoutes.Dispatch` states nothing about `GET /auth/google` and `GET /auth/google/callback`. These are browser navigations whose answer depends on the identity provider. The callback is modelled by `AuthRoutes.GoogleSignIn`, which starts from the provider's profile or refusal. The redirect to the provider is I/O and is not modelled.
- Route matching covers letter case and one trailing slash. Percent-encoded letters, repeated slashes and the `/api` mount prefix are not modelled; paths are given relative to `/api`.
- Concurrency is not modelled: each request and each browser action runs to completion against a fixed server view. Two tabs renewing at once are not modelled.
- `window.location.href` is modelled as a `Navigate` event and the toasts as `Toast` events. The page reload they cause is not modelled.
- The browser's view of the server is stateless within one exchange (`SessionProperties.ServerView`): a renewal does not see rows written by the request that triggered it. The auth handlers that trigger renewal do not write on a 401, so this does not affect the lemmas.
- JSON body fields are strings or absent. Non-string `email`/`password` values and the prototype-key lookups `aspectRatios[size]` (`"toString"` and the like) are not modelled.
- `AiController.ImageCount`: counts are integers. Strings, fractions and `NaN` passed to `Array.from` are not modelled.
- `AiController.Excerpt` counts characters; JavaScript's `substring` counts UTF-16 code units.
- The text generator, `encodeURIComponent`, base64 encoding and `JSON.parse` acceptance are parameters. The parsed review stays the generator's text, so its structure is not checked.
- File reads (`fs.readFileSync` failures) and `cleanupFile` are not modelled. The upload's content is given.
- `JSON.stringify` of stored outputs is not modelled: a creation keeps the structured value.
- The user and AI routers and their controllers (`userController.js`, `ai.controller.js`) are not part of this model. Nor is the page UI.
- `AuthStore.LogoutAll`: a failed logout-everywhere need not leave the tokens unchanged. When the 401 triggers an accepted renewal, the new access token is stored before the replay fails. The contract therefore states that the tokens change only through the renewal protocol.

## Findings

| source | as written | input that shows it | evidently intended | confidence | as-written member | corrected member |
|---|---|---|---|---|---|---|
| client/src/api/axios.js:34-68 | every 401 answer, including one from `/auth/login` or `/auth/register`, starts the token renewal | a login with a wrong password while no refresh token is stored | the credential endpoints' 401 means wrong credentials: the form should show "Invalid credentials" and keep the stored tokens. As written, both tokens are cleared, a "Session expired" toast is shown, the page goes to `/login`, and the form says "Login failed" (or the refresh endpoint's message when a stale refresh token is stored) | medium, not executed | SessionProperties.LoginMasksRefusal | SessionProperties.LoginReportsRefusal |
