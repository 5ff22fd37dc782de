# Job portal login and role gates, in Dafny

This project models the sign-in and authorisation core of a Go job portal
built on gin and Google OAuth. Three handlers act on three pieces of state:

- the browser's cookie session, with the keys `state`, `role`, `email`,
  `name`, `id`, `picture`, `token` and `logo`;
- the users table, keyed by email;
- the durable session table, keyed by user id.

The handlers:

- `LoginHandler` stores a CSRF state token and the `:role` login hint.
- `AuthHandler`, the OAuth callback, checks the state and then finds or
  provisions the user: "recruiter" becomes "pending", "admin" is refused,
  any other hint is kept verbatim. It then upserts a durable token and fills
  the session.
- `LogoutHandler` revokes on a best-effort basis and clears the session.

In front of the dashboards:

- `AuthMiddleware` copies the session role into the request context.
- Three gates admit exactly one role each.

From `main.go` the model covers:

- which middleware runs in front of each route;
- the inline role check of the pending-approval page;
- the order of the queries in the approve, reject and cancel handlers;
- the comma-split-and-trim of the `skills` form field.

Files:

- `base.dfy`: options, bytes, the session keys, `session.Get` and the
  responses a request can end with.
- `base64.dfy`: standard padded base64 encoding (section 4 of RFC 4648) with
  its decoder, and `randToken` on 32 given bytes.
- `auth.dfy`: each handler as a function on an `AuthState` value, which is
  the specification the properties are stated about. It also holds the class
  `AuthService`, whose methods update the session and the two tables step by
  step as the Go code does. Each method is proved equal to its function.
- `middleware.dfy`: `AuthMiddleware` on a request-context object, and the
  three gates.
- `routes.dfy`: the route table, the pending page, the admin handlers and the
  cancel route. The cancel route calls `AuthService.LogoutHandler`.
- `skills.dfy`: `strings.Split`, `strings.TrimSpace` and the in-place trim
  loop over an array.
- `flows.dfy`: properties of request sequences, among them the admin-hint
  finding below.

The model follows the code, which does the following:

- The CSRF state is never consumed: after a completed callback it is still
  in the session (`Flows.StateSurvivesCallback`).
- The login hint is stored verbatim. The route without `:role` stores "",
  and a new user then gets the role "".
- Roles are free strings, not an enumeration.
- A new user's picture is stored as present even when the profile's picture
  is empty.
- A gate that finds the context role set to nil panics (a failed type
  assertion) instead of answering 403.
- The user lookup and the insert are two separate queries. A user created
  before a later failure stays created.
- The cancel route answers twice: the logout handler's redirect, then a
  redirect home. `http.Redirect` writes a body only for GET, so for
  this POST route the first redirect has only recorded its status and
  location, and the second replaces both. A logout that fails to save has
  already written its 500, which stays.

## Model

| member | source | states |
|---|---|---|
| Base.Lookup | auth/auth.go:88 | `session.Get` reports a value exactly when the key is stored, and that value is the stored one |
| Base64.Encode | auth/auth.go:52 | the encoding has 4 characters per started group of 3 bytes |
| Base64.RoundTrip | auth/auth.go:52 | decoding the standard encoding of any byte string gives that byte string back; the decoder accepts only canonical groups (unused bits of a padded group zero), so this fixes every character of the encoding |
| Base64.EncodeShape | auth/auth.go:52 | padding appears only in the last (3 - n mod 3) mod 3 characters; every other character is a base64 symbol |
| Base64.RandToken | auth/auth.go:49-53 | the token of 32 random bytes has 44 characters, ends in one '=', has only symbols before it, and decodes to those bytes |
| Auth.RoleParam | auth/auth.go:79 | the route without `:role` gives "", otherwise the parameter verbatim |
| Auth.LoginNext | auth/auth.go:74-84 | the tables are unchanged; the response is a 302 to the provider carrying a 44-character state that decodes to the random bytes; a successful save stores that state and the raw hint and changes no other key; a failed save changes nothing but still redirects |
| Auth.AuthService.LoginHandler | auth/auth.go:74-84 | the new session and tables and the response equal `LoginNext` with the hint under "role" |
| Auth.ProvisionFor | auth/auth.go:127-133 | a new user's role is "pending" for the hint "recruiter" and the hint verbatim otherwise; "admin" is refused; a missing hint panics |
| Auth.Resolve | auth/auth.go:124-155 | a lookup error gives 500; a known email reuses the stored user, creates nothing and ignores the hint; for a new email, "admin" redirects to "/" with nothing created, a missing hint panics, a failed insert gives 500, and otherwise exactly one row is added, with the picture present; "pending" also sets `logo` to the picture |
| Auth.SignIn | auth/auth.go:168-173 | the session holds the user's email, name, role, id and picture and the token; every other key is unchanged |
| Auth.CallbackNext | auth/auth.go:86-181 | a state mismatch (no stored state included) gives 401 and changes nothing, and 401 happens only then; a provider failure gives 400 and changes nothing; only a completed callback writes the session; a known email leaves the users table unchanged and signs in with its stored role; the users table gains at most the profile's row; the durable table changes only by the upsert of that user's row; a completed callback leaves the same fresh token in the durable row and the session, the user's fields in the session and a 302 to the role's landing page; it completes exactly when every step succeeds; past the state check, a stop in the user lookup (500, the admin refusal's 302 to "/", the nil-hint panic, a failed insert's 500) changes nothing, a failed upsert gives 500 with only the created user kept, and a failed save gives 500 with the session unchanged but the durable row already upserted; a completed callback keeps exactly the users table of the lookup (so a new user has the policy's role and the profile's name, email and picture) and its session is that of the lookup (with `logo` for a pending user) with the six sign-in keys set on top |
| Auth.AuthService.AuthHandler | auth/auth.go:86-181 | the step-by-step handler with its early returns ends in exactly the state and response of `CallbackNext` with the hint under "role" |
| Auth.DeleteSession | auth/auth.go:194-197 | the durable row is removed only when it holds exactly this token; otherwise nothing changes |
| Auth.LogoutNext | auth/auth.go:183-212 | the users table is unchanged; a successful save clears the session and redirects to the logout page, and only a failed save gives 500; without both `token` and `email` no row is deleted; a deleted row is the user's own and held the session's token; when both keys are present, the user is found and the delete succeeds, that user's row is deleted if it holds the session's token |
| Auth.AuthService.LogoutHandler | auth/auth.go:183-212 | the step-by-step handler ends in exactly the state and response of `LogoutNext` |
| Auth.LoginKeepsInvariant | auth/auth.go:74-84 | login keeps the users table keyed by email and never stores a state without a hint |
| Auth.CallbackKeepsInvariant | auth/auth.go:86-181 | the callback keeps the same invariant |
| Auth.LogoutKeepsInvariant | auth/auth.go:183-212 | logout keeps the same invariant |
| Auth.CallbackNeverPanics | auth/auth.go:127-139 | in a reachable state, a callback that passes the state check always finds a hint, so `role.(string)` cannot panic |
| Middleware.WithSessionRole | middlewares/authMiddleware.go:38-39 | the context `role` is always set, to the session role or to nil, and every other key is untouched |
| Middleware.AuthMiddleware | middlewares/authMiddleware.go:10-42 | never aborts; the context keys become `WithSessionRole` of the old keys |
| Middleware.RoleGate | middlewares/authMiddleware.go:46 | a gate passes exactly on its role, panics exactly on a nil role, and answers 403 in every other case (a missing key included) |
| Middleware.ApplicantOnly | middlewares/authMiddleware.go:44-52 | passes exactly "applicant"; any other present string gives 403 |
| Middleware.RecruiterOnly | middlewares/authMiddleware.go:54-62 | passes exactly "recruiter"; any other present string, "pending" included, gives 403 |
| Middleware.AdminOnly | middlewares/authMiddleware.go:64-72 | passes exactly "admin"; any other present string gives 403 |
| Middleware.GatesExclusive | middlewares/authMiddleware.go:44-72 | no context passes two gates; a role that is none of the three is refused with 403 by all three |
| Middleware.NoRolePanics | middlewares/authMiddleware.go:38-46 | with no session role, the context key is set to nil and every gate panics instead of answering 403 |
| Routes.RunGate | main.go:77-375 | the gate of a group passes exactly its own role |
| Routes.ChainOf | main.go:176-227 | a group's gate runs exactly for the routes registered on that group; the pending page has `AuthMiddleware` alone; the three create-company routes sit under "/recruiter/" but have no middleware |
| Routes.Admission | main.go:77-473 | ungated routes always reach their handler; a gated route does so exactly when the session role is the gate's role, panics exactly when the session has no role, and otherwise gets 403 |
| Routes.PendingPage | main.go:227-236 | the pending page renders exactly for the context role "pending"; a missing or nil role panics; any other role gets 403 |
| Routes.ServePending | main.go:227 | behind `AuthMiddleware`, the page renders exactly when the session role is "pending" and panics exactly when the session has no role; any other role gets 403 |
| Routes.ApproveRecruiterHandler | main.go:440-453 | a malformed id gets 400 before any query; otherwise the approve query runs once, and the redirect to the pending list happens exactly when it succeeds, 500 otherwise |
| Routes.RejectRecruiterHandler | main.go:455-473 | a malformed id gets 400 before any query; the company is rejected exactly when the recruiter rejection succeeded, and always after it; the redirect happens exactly when both succeed, 500 otherwise |
| Routes.PrefixDecidesGroup | main.go:77-473 | the route table (`RegisteredOn`) agrees with the group prefixes: every route of the recruiter group lies under "/recruiter/", and a route lies under "/applicant/" or "/admin/" exactly when it is registered on that group |
| Routes.Then | main.go:223-224 | after an abort a later redirect changes nothing; after a redirect answered to a GET the first redirect is final; after one answered to a POST a later redirect replaces it |
| Routes.CancelCompanyHandler | main.go:211-225 | a malformed id gets 400 and a failed rejection gets 500, both with the session and tables unchanged; otherwise the recruiter is rejected, then the logout flow runs on the same state; since the route is a POST, the response is the redirect home when the cleared session is saved and the logout's 500 when not |
| Skills.Split | main.go:123 | one piece more than there are commas (so "" gives one empty piece), and no piece contains a comma |
| Skills.JoinSplit | main.go:286 | joining the pieces with commas gives the field back, so splitting keeps every character and the order |
| Skills.LeadingSpaces | main.go:125 | the count of leading white space: every counted character is white space and the next one is not |
| Skills.TrailingStart | main.go:125 | where trailing white space begins: every character from there on is white space and the one before is not |
| Skills.TrimSpace | main.go:125 | the result is a contiguous piece of the input with no white space at either end, and everything dropped before or after it is white space |
| Skills.TrimSpaceIdempotent | main.go:288 | trimming an already trimmed piece changes nothing |
| Skills.SplitAndTrim | main.go:123-126 | the array holds one entry per comma plus one; entry i is the trimmed i-th piece of the split, so the order is kept; no entry has white space at either end or contains a comma (main.go:286-289 is the same loop) |
| Flows.AdminHintAdmitted | auth/auth.go:79-80 | as written, after a login through `/auth/google/login/admin` every admin route admits the browser; that stays true after any callback that does not complete, the refused admin signup included; the approve-recruiter route is among those it admits |
| Flows.SeparateHintKeepsGates | auth/auth.go:79-80 | with the hint under a key of its own, a login and any callback that does not complete leave every route's admission as it was; a completed callback admits by the role stored in the users table |
| Flows.RecruiterSignupIsPending | auth/auth.go:128-149 | a new email signing up as recruiter is stored as "pending" with `logo` set to the picture; every recruiter route refuses it with 403 and the pending page renders |
| Flows.ReturningUserKeepsRole | auth/auth.go:124-125 | a known user logging in through any role route keeps the stored role, and the users table is unchanged |
| Flows.StateSurvivesCallback | auth/auth.go:88-92 | a completed callback leaves the same state stored, so it would pass the check again |
| Flows.LogoutWithoutLogin | auth/auth.go:183-212 | logging out of an empty session changes no table and redirects to the logout page |
| Flows.SecondLoginSupersedes | auth/auth.go:157-161 | a second completed login of the same user replaces the token in that user's durable row and adds no user |

## Left out

- OAuth configuration, the code exchange, the userinfo request and its JSON
  decoding are network and library calls. A callback's profile is a
  parameter: a profile record, or None for any of these failures (400).
- `crypto/rand` is not modelled. The 32 random bytes are a parameter.
- The SQL of the queries is not shown. The users table and the durable
  session table are maps, and every query has a success flag.
- `CreateOrUpdateSession` is assumed to upsert by user id.
- `DeleteSession` is assumed to delete the row matching both user id and
  token.
- `GetUserByEmail` is a map lookup. A created user's id is a parameter, and
  the model does not track whether ids are unique.
- `ApproveRecruiter`, `RejectRecruiter` and `RejectCompany` are recorded
  only by name and order. Their effect on the tables is not modelled, since
  their SQL is not shown.
- The redirect URLs read from the environment stay symbolic (provider
  consent, role landing page, logout landing page).
- `uuid.Parse` is a given validity predicate.
- Cookie sealing, cookie lifetime and what the browser does with a cookie
  are not modelled. The session is one map per browser, and a failed save
  leaves it as it was.
- Gin's path matching and panic recovery are not modelled. The route table
  is given as data, and a panic is a response of its own. Of the response
  writer, only what `Routes.Then` states is modelled.
- Template rendering, static files, the home page and the dashboard, job and
  company handlers are not modelled. This includes their own type
  assertions on session values.
- db/postgres.go is not part of this model. It only opens the database
  connection.
- Skills.TrimSpace works on code points, not on UTF-8 bytes, so invalid
  UTF-8 is out of scope. The white-space set is that of `unicode.IsSpace`.
- One browser and one request at a time: concurrent requests and several
  browsers sharing the tables are not modelled.

## Findings

| source | as written | input that shows it | evidently intended | confidence | as-written member | corrected member |
|---|---|---|---|---|---|---|
| auth/auth.go:79-80 | the login hint is stored under the session key `role`, the key `AuthMiddleware` copies into the context and the gates compare | GET `/auth/google/login/admin`, then GET `/admin/dashboard` with any callback abandoned or refused: the admin gate passes, so `/admin/approve-recruiter/:id` runs the approve query | the hint kept under a key of its own, so that only a completed callback, which writes the role stored in the users table, can open a gate | high, not executed | Flows.AdminHintAdmitted | Flows.SeparateHintKeepsGates |
