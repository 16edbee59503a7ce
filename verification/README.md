# Authentication controller: a Dafny model

This project models the authentication and session controller of a notes
service (`src/controllers/authController.js`). The controller has six Express
handlers: register, login, refresh, logout, request a password-reset mail,
and reset the password. They work over two MongoDB collections:

- users: id ↦ email, optional username, bcrypt password digest;
- sessions: id ↦ owning user, refresh token, refresh-token expiry.

Each handler is one sequential request. It runs a few guards, updates the
collections and answers with an HTTP status, a body, cookies set or cleared,
and possibly a mail.

Layout:

- `wrappers.dfy`: `Option`.
- `crypto.dfy` (module `Crypto`): bcrypt as an ideal `Hash`/`Compare`. JSON Web Tokens as an ideal signature: claims `{sub, email, iat, exp}`, `exp = iat + 900` s, and `Verify` fails on a forged, malformed or expired token.
- `stores.dfy` (module `Stores`): the two collections as maps, with fresh-id counters. Also the store invariant `Valid` (ids fresh, sessions owned by existing users, emails unique, at most one session per user) and the store operations the handlers use.
- `flows.dfy` (module `AuthFlows`): each handler as a function from the store before the request to the store after it plus the outcome. Their `ensures` clauses state what the handler promises.
- `properties.dfy` (module `AuthProperties`): properties that relate several requests.
- `controller.dfy` (module `AuthController`): class `Controller`. Its `users` and `sessions` map fields are updated one store call at a time, as the source does. Its refresh method uses the corrected session lookup (see Findings). Each handler method is proved to produce exactly the state and outcome of its `AuthFlows` function and to keep `Valid()`.
- `trace.dfy` (module `Trace`): any sequence of requests keeps the invariant and never loses a user, and a used or revoked session pair stays refused.
- `as_written_refresh.dfy` (module `AsWrittenRefresh`): the refresh lookup as written (see Findings).

Inputs that come from the environment are parameters:

- the clock `nowMs`, in milliseconds;
- the refresh token that `createSession` draws;
- whether the template file could be read;
- whether the mailer accepted the message;
- the configuration: `JWT_SECRET`, `FRONTEND_DOMAIN`, `SMTP_FROM` and the refresh-token lifetime.

In these places the code does something one might not expect; the model follows the code:

- A duplicate email is answered with 400 "Email in use".
- An expired refresh is refused with 401, and the stale session row is left in place (not deleted).
- A refresh deletes the matched row and inserts a session under a new id, rather than replacing the row in place.
- Login removes one session of the user (`deleteOne`). Under the at-most-one invariant, that is all of them.
- A refresh token is still valid at `now == refreshTokenValidUntil`, because the comparison is strict `>`.

## Model

| member | source | states |
|---|---|---|
| Crypto.Hash | src/controllers/authController.js:22 | a digest is accepted by `Compare` for exactly the password it was made from |
| Crypto.IssueResetToken | src/controllers/authController.js:131-135 | the reset token is signed with the secret over its own claims and carries `sub` = user id, the user's email, `iat` = the issue second and `exp` 15 minutes after it |
| Crypto.Verify | src/controllers/authController.js:179-183 | a token is accepted only if signed with the secret and not yet expired, and then yields its own claims; every such token is accepted |
| Crypto.ResetTokenRoundTrip | src/controllers/authController.js:131-135 | an issued reset token verifies with its claims exactly while it is younger than 15 minutes |
| Crypto.ForeignSignatureRejected | src/controllers/authController.js:179-183 | a token signed with another key never verifies |
| Stores.FindUserByEmail | src/controllers/authController.js:17 | `User.findOne({ email })` finds a user with that email iff one exists, and with unique emails finds that one |
| Stores.AddSession | src/controllers/authController.js:29 | `createSession` inserts the session under the fresh id, leaves users and other sessions unchanged |
| Stores.DeleteOneSessionOf | src/controllers/authController.js:52 | `deleteOne({ userId })` removes only sessions of that user, and under the one-session invariant all of them |
| Stores.DeleteAllSessionsOf | src/controllers/authController.js:201 | `deleteMany({ userId })` leaves that user no session and every other session untouched |
| AuthFlows.DisplayName | src/controllers/authController.js:146 | the mail greets by username when it is present and non-empty, else by email |
| AuthFlows.Register | src/controllers/authController.js:13-36 | a used email gives 400 "Email in use" and changes nothing; otherwise the new user stores `Hash(password)`, gets exactly one session, cookies for it and 201; every other session keeps its contents; the invariant is kept |
| AuthFlows.Login | src/controllers/authController.js:38-61 | every failure is the same 401 "Invalid credentials" with no change; success iff the credentials match; on success the user's old session is gone and exactly the new one remains, 200; every other session keeps its contents; the invariant is kept |
| AuthFlows.Refresh | src/controllers/authController.js:63-97 | 401 "Session not found" unless both cookies match one session; 401 "Session token expired" with no change when `now > validUntil`; otherwise the presented session is gone, one new session of the same user exists, 200 "Session refreshed"; every other session keeps its contents; the invariant is kept |
| AuthFlows.Logout | src/controllers/authController.js:99-115 | always 204 with the three auth cookies cleared; removes only the session named by the cookie, if any; the invariant is kept |
| AuthFlows.RequestResetEmail | src/controllers/authController.js:118-172 | the store never changes; an unknown email gets the success body and no mail; a template failure is passed on, a mailer failure is 500; a sent mail goes to the email from `SMTP_FROM`, greets by `DisplayName` and links a token for that user's id and email |
| AuthFlows.ResetPassword | src/controllers/authController.js:174-209 | an invalid or expired token gives 401 and a token whose id and email match no user gives 404, both with no change; otherwise only that user's digest becomes `Hash(password)`, all of that user's sessions and no others are deleted, 200; the invariant is kept |
| AuthProperties.LoginAfterRegister | src/controllers/authController.js:24-57 | a freshly registered email and password log in as the new user |
| AuthProperties.RegisterTwiceConflicts | src/controllers/authController.js:17-20 | registering the same email again is refused with 400 and changes nothing |
| AuthProperties.LoginFailuresIndistinguishable | src/controllers/authController.js:42-50 | an unknown email and a wrong password produce the identical transition |
| AuthProperties.RefreshReplayRejected | src/controllers/authController.js:83-93 | a (sessionId, refreshToken) pair used for a refresh is refused on the next request, at any later time |
| AuthProperties.RotatedSessionRefreshes | src/controllers/authController.js:88-93 | the session issued by a refresh refreshes in turn until its expiry |
| AuthProperties.ResetRevokesEverySession | src/controllers/authController.js:196-201 | after a password reset every earlier session of that user fails to refresh, and every other user's session is kept unchanged |
| AuthProperties.LogoutIdempotent | src/controllers/authController.js:101-111 | a second logout with the same cookie changes nothing and answers the same |
| AuthProperties.ResetRequestIndistinguishable | src/controllers/authController.js:122-168 | an unknown email and a successfully mailed reset give the same response, cookies and store; only the latter sends mail |
| AuthProperties.MailedTokenResetsPassword | src/controllers/authController.js:131-205 | the token in a reset mail, used within 15 minutes, resets exactly that user's password |
| AuthProperties.ExpiredResetTokenRejected | src/controllers/authController.js:131-183 | the same token after 15 minutes is refused with 401 and changes nothing |
| AuthProperties.SessionLifeCycle | src/controllers/authController.js:13-111 | register, login, refresh and logout in turn: each answers as designed, the user holds one session at each step and none after logout, and stale pairs are refused |
| AuthController.Controller.FindUser | src/controllers/authController.js:17 | the lookup returns what `FindUserByEmail` specifies |
| AuthController.Controller.CreateSession | src/controllers/authController.js:29 | inserts the new session under the fresh id and returns that id |
| AuthController.Controller.DeleteSessionOf | src/controllers/authController.js:52 | removes the user's session as `DeleteOneSessionOf` specifies |
| AuthController.Controller.RegisterUser | src/controllers/authController.js:13-36 | new state and outcome are those of `AuthFlows.Register`; keeps `Valid()` |
| AuthController.Controller.LoginUser | src/controllers/authController.js:38-61 | new state and outcome are those of `AuthFlows.Login`; keeps `Valid()` |
| AuthController.Controller.RefreshUserSession | src/controllers/authController.js:63-97 | new state and outcome are those of `AuthFlows.Refresh`; keeps `Valid()` |
| AuthController.Controller.LogoutUser | src/controllers/authController.js:99-115 | new state and outcome are those of `AuthFlows.Logout`; keeps `Valid()` |
| AuthController.Controller.RequestResetEmail | src/controllers/authController.js:118-172 | changes nothing; outcome is that of `AuthFlows.RequestResetEmail` |
| AuthController.Controller.ResetUserPassword | src/controllers/authController.js:174-209 | new state and outcome are those of `AuthFlows.ResetPassword`; keeps `Valid()` |
| Trace.Handle | src/controllers/authController.js:13-209 | every handler keeps the store invariant and keeps every user with its email |
| Trace.RunPreservesValid | src/controllers/authController.js:13-209 | after any sequence of requests the invariant holds, so each user owns at most one session |
| Trace.RunKeepsUsers | src/controllers/authController.js:13-209 | no sequence of requests removes a user or changes a user's email |
| Trace.HandleKeepsRetired | src/controllers/authController.js:13-209 | no handler brings back a session id once it has been deleted |
| Trace.RunKeepsRetired | src/controllers/authController.js:13-209 | no sequence of requests brings back a deleted session id |
| Trace.ReplayRejectedEverAfter | src/controllers/authController.js:83-93 | a (sessionId, refreshToken) pair used for a refresh is refused after any sequence of later requests, at any later time |
| Trace.ResetRevokedEverAfter | src/controllers/authController.js:196-201 | every session a user had before a password reset stays refused after any sequence of later requests |
| AsWrittenRefresh.RefreshAsWritten | src/controllers/authController.js:67-88 | when both cookies are present and match, the lookup as written agrees with `AuthFlows.Refresh`; it too keeps the store invariant, so one session per user survives the as-written refresh |
| AsWrittenRefresh.NoCookiesTakesOverASession | src/controllers/authController.js:65-88 | with no cookies, the code as written rotates a stored session and hands the caller a session of its owner; the intended handler refuses |
| AsWrittenRefresh.SessionIdAloneRefreshes | src/controllers/authController.js:65-88 | with a live session id but no refresh-token cookie, the code as written refreshes; the intended handler refuses |

## Findings

| source | as written | input that shows it | evidently intended | confidence | as-written member | corrected member |
|---|---|---|---|---|---|---|
| src/controllers/authController.js:65-86 | the refresh lookup and delete use `{ _id: sessionId, refreshToken }` built straight from the cookies. Mongoose drops a key whose value is `undefined`, so a missing cookie removes that condition | no cookies at all, while user 0 has one live session: the handler answers 200 and issues a new session of user 0 | refuse with 401 unless both cookies are present and match one session | medium: rests on Mongoose's documented treatment of `undefined` filter values and on cookie parsing being mounted for the auth routes, which are not part of this model; not executed | AsWrittenRefresh.NoCookiesTakesOverASession | AuthFlows.Refresh |

## Left out

- AuthFlows.Refresh: models the corrected session lookup, which refuses a request unless both the `sessionId` and `refreshToken` cookies are present and match one session. The code as written drops an absent cookie from the filter (see Findings; `AsWrittenRefresh.RefreshAsWritten`). The refresh properties, `Trace.Handle` and `Trace.RunPreservesValid` are therefore proved of the corrected handler. Of the as-written handler, three things are proved. `AsWrittenRefresh.RefreshAsWritten` keeps the store invariant and agrees with `AuthFlows.Refresh` whenever both cookies are present and match. `AsWrittenRefresh.NoCookiesTakesOverASession` and `AsWrittenRefresh.SessionIdAloneRefreshes` show the two ways it differs from the corrected handler.
- AuthController.Controller.RefreshUserSession: is proved equal to `AuthFlows.Refresh`, so it too uses the corrected lookup rather than the filter as written.
- `src/services/auth.js` is not part of this model. `createSession` is modelled as an insertion under a fresh id. The access token and its expiry, and the refresh-token lifetime, are opaque. `setSessionCookies` is recorded as one cookie operation naming the session; cookie attributes are not modelled.
- `src/models/user.js` is not part of this model. The JSON body of a user response is modelled as the user's id, so which fields the serialisation hides is not captured.
- The error middleware is not part of this model. A handler's `next(createHttpError(status, message))` is the outcome `Next(HttpError(status, message))`. An exception caught by a handler's outer `try` is `Next(Thrown)`; the status it finally gets is not modelled. Of those exceptions, only a failed template read is modelled.
- Request validation is not modelled. Body fields are strings, and the token is either a signed token or malformed text. A session-id cookie is either absent or a well-formed id; a malformed id, which makes Mongoose throw a cast error, is not modelled.
- Crypto.Hash: bcrypt's salt and cost factor are not modelled. The digest is deterministic, and two passwords never share one. Real bcrypt compares only the first 72 bytes of a password, so two passwords that agree on those bytes are both accepted; the model does not capture this truncation.
- Crypto.Verify: the signature is an ideal one that only the secret's holder can produce. HMAC, base64url and claims other than `sub`, `email`, `iat` and `exp` are not modelled.
- The template file and Handlebars rendering are not modelled. The mail body is the pair (name, link), and the link is the pair (frontend domain, token) that its text is built from.
- SMTP delivery is an oracle that accepts or fails.
- Document ids are counters, not ObjectIds.
- Concurrent requests and the interleaving of the handlers' `await`s are not modelled. Each handler is one atomic step.
- `notesController.js`, `note.js`, `server.js`, `connectMongoDB.js` and `multer.js` are persistence, wiring and I/O outside the authentication core.
