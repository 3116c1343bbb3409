# Dashboard front-end: session, route guard and forms

A Dafny model of the behavioural core of a React administrative dashboard:

- **Session store** (`AuthProvider`): the signed-in `user`, the bootstrap
  `loading` flag and the browser's durable storage with its two keys `token`
  and `user`. Its operations are the start-up check of a stored token
  (`checkToken`), `login`, `register` and `logout`. `Auth.SessionStore` is a
  class whose methods update these fields in the source's order. Each method
  is proved to perform a pure step (`BootstrapStep`, `LoginStep`,
  `LogoutStep`) on a `Snapshot` of the state. Lemmas over any sequence of
  operations show that the displayed user is always the persisted one and
  that the two keys are written and removed together, given that storage
  calls never throw.
- **Route guard** (`PrivateRoute`): `Guard.Evaluate` is the three-way decision
  between the loading placeholder, a redirect to `/login` and rendering the
  page. Lemmas tie the decision to reachable session states.
- **Login and Register forms**: the declared field rules are predicates over
  strings (`FormRules`). This includes the e-mail regular expression
  `/^[^\s@]+@[^\s@]+\.[^\s@]+$/`, proved equivalent to a field-by-field
  statement. The submit handlers are methods of `LoginPage.LoginForm` and
  `RegisterPage.RegisterForm`. They run the validation, call the session
  store, navigate on success and, on failure, show the server's `error` field
  or a fixed fallback.
- **Notification composer**: `Notifications.Composer` holds the form state of
  the push-notification page. Its two handlers model validation, the
  confirmation prompt of the broadcast, and the different field-clearing rules
  on success and failure.

The backend is never called. Every HTTP call is an input of type
`Common.Reply<T>`: `Ok(body)` or `Err(error)`, where `error` is the server's
`error` field when it sent one. The answer to `window.confirm` is a `bool`
input. Browser storage is a `map<string, string>`.

Edge cases of src/context/AuthContext.jsx that the model follows:
- A failed `login` leaves the state exactly as it was. It does not force a
  signed-out state.
- A stored token equal to `""` counts as no token, because `if (token)` treats
  it as falsy.
- A successful verify with no stored `user` key installs `JSON.parse(null)`,
  which is `null`. The user stays signed out and the token stays stored.
- At start-up, only a malformed stored user or a failed verify clears the two keys.

## Model

| member | source | states |
|---|---|---|
| `Common.MessageOr` | src/pages/Login.jsx:25 | the failure message is the server's `error` field when it is a non-empty string, otherwise the fixed fallback; it is never empty when the fallback is not |
| `Codec.ParseStringify` | src/context/AuthContext.jsx:18-39 | parsing the stored text of a user written at login gives that user back |
| `Codec.Stringify` | src/context/AuthContext.jsx:39 | the stand-in for `JSON.stringify(user)`: the text has at least 3 characters, starts with `{`, ends with `}` and is never the text `null`; `Codec.ParseStringify` proves `Parse` inverts it |
| `Codec.Parse` | src/context/AuthContext.jsx:18 | the stand-in for `JSON.parse`: it gives null exactly for the text `null`, and a user only for text of at least 3 characters that starts with `{` |
| `Codec.ParseRejectsGarbage` | src/context/AuthContext.jsx:16-24 | parsing the stored user can fail |
| `Auth.HasToken` | src/context/AuthContext.jsx:13-15 | `if (token)` holds only when the `token` key is present and is not the empty string |
| `Auth.AsUser` | src/context/AuthContext.jsx:18-19 | `setUser(savedUser)` installs no user exactly for a parsed `null`, and the parsed user otherwise |
| `Auth.StoredUser` | src/context/AuthContext.jsx:18 | reading a missing `user` key parses as `null` |
| `Auth.Cleared` | src/context/AuthContext.jsx:22-23 | removing the two keys leaves neither `token` nor `user` and keeps every other key and value |
| `Auth.Init` | src/context/AuthContext.jsx:7-8 | the provider starts with no user, `loading` true and the browser's storage as it was |
| `Auth.BootstrapStep` | src/context/AuthContext.jsx:12-28 | `loading` ends false on every path; with no token nothing else changes; with a verified token and a parsable stored user that user is installed and storage is kept; a failed verify or malformed stored user removes both keys and leaves the user as it was; the user changes only after a successful verify |
| `Auth.LoginStep` | src/context/AuthContext.jsx:34-43 | a failed login changes nothing; a successful one stores the response token and the encoded response user (which reads back as that user), installs that user, adds exactly the two keys and keeps every other key |
| `Auth.LogoutStep` | src/context/AuthContext.jsx:52-56 | whatever the state, the user becomes null, both keys are removed, no key is added and every other key keeps its value |
| `Auth.SessionStore.constructor` | src/context/AuthContext.jsx:6-8 | the store starts in `Init` over the persisted storage |
| `Auth.SessionStore.Bootstrap` | src/context/AuthContext.jsx:12-28 | the fields end as `BootstrapStep` prescribes and `loading` is false |
| `Auth.SessionStore.Login` | src/context/AuthContext.jsx:34-43 | it posts `{ email, password }` exactly as given, the fields end as `LoginStep` prescribes, and the response body, or the rejection, is returned unchanged |
| `Auth.SessionStore.Register` | src/context/AuthContext.jsx:46-49 | it posts `{ name, email, password }` exactly as given, the reply is returned unchanged and the store is not modified |
| `Auth.SessionStore.Logout` | src/context/AuthContext.jsx:52-56 | the fields end as `LogoutStep` prescribes |
| `Auth.BootstrapEstablishes` | src/context/AuthContext.jsx:11-31 | whatever was stored, bootstrap ends consistent: not loading, and any signed-in user is the decoded stored user with a token stored |
| `Auth.BootstrapKeepsPaired` | src/context/AuthContext.jsx:15-24 | from storage whose two keys are present together, bootstrap leaves them present together or both absent |
| `Auth.ApplyPreserves` | src/context/AuthContext.jsx:34-56 | login, register and logout each keep the session consistent and keep the two keys paired |
| `Auth.RunPreserves` | src/context/AuthContext.jsx:34-56 | every sequence of login, register and logout calls keeps the session consistent and keeps the two keys paired |
| `Auth.LogoutIdempotent` | src/context/AuthContext.jsx:52-56 | logging out twice is the same as logging out once |
| `Auth.BootstrapSignsInOnlyVerified` | src/context/AuthContext.jsx:15-24 | after bootstrap a user is signed in if and only if a token was stored, the verify call succeeded and the stored user decodes to a user object |
| `Auth.LoginSurvivesReload` | src/context/AuthContext.jsx:13-39 | after a login with a non-empty token, a reload whose verify succeeds restores exactly the logged-in user with storage unchanged |
| `Guard.Evaluate` | src/components/PrivateRoute.jsx:8-18 | the placeholder exactly when loading, the redirect to `/login` exactly when not loading and no user, the page exactly when not loading and a user is present |
| `Guard.Exhaustive` | src/components/PrivateRoute.jsx:8-18 | every decision is one of the three outcomes, and a redirect always goes to `/login` |
| `Guard.LoadingTakesPrecedence` | src/components/PrivateRoute.jsx:8-10 | while loading the decision is the placeholder whatever the user |
| `Guard.WaitsUntilBootstrapped` | src/components/PrivateRoute.jsx:8-10 | a freshly started session shows the placeholder, never a redirect |
| `Guard.AfterBootstrap` | src/components/PrivateRoute.jsx:4-19 | after bootstrap from any storage and any later operations the guard never waits, and it renders a page only when a token is stored and the stored user decodes to the displayed user |
| `Guard.NoTokenRedirects` | src/context/AuthContext.jsx:13-27 | with no stored token, bootstrap ends on the redirect to `/login` |
| `Guard.RejectedTokenRedirects` | src/context/AuthContext.jsx:16-24 | with a stored token that fails verification, both keys are removed and bootstrap ends on the redirect |
| `Guard.VerifiedTokenAllows` | src/context/AuthContext.jsx:16-19 | with a stored token and user and a successful verify, the stored user is restored and the page renders |
| `Guard.LoginAllowsLogoutRedirects` | src/context/AuthContext.jsx:34-56 | after bootstrap, a successful login makes the guard render pages and a logout makes it redirect |
| `FormRules.EmailPattern` | src/pages/Login.jsx:52 | the regular expression itself; an accepted address has at least 5 characters, an `@` and no whitespace |
| `FormRules.EmailPatternIffShape` | src/pages/Login.jsx:49-55 | the regular expression accepts exactly the strings with no whitespace, exactly one `@`, a non-empty part before it, and a `.` in the domain that is neither its first nor its last character |
| `FormRules.EmailError` | src/pages/Login.jsx:49-55 | an empty address gets the required message, a non-matching one the invalid message, and the field passes exactly when the address has the shape above |
| `FormRules.PasswordError` | src/pages/Login.jsx:72-78 | an empty password gets the required message, one of 1 to 5 characters the minimum-length message, and the field passes exactly when it has at least 6 characters |
| `FormRules.NameError` | src/pages/Register.jsx:52-58 | an empty name gets the required message, one of 1 or 2 characters the minimum-length message, and the field passes exactly when it has at least 3 characters |
| `FormRules.ConfirmError` | src/pages/Register.jsx:121-125 | an empty confirmation gets the required message, a non-empty one that differs from the password gets `'As senhas não coincidem'`, and the field passes exactly when it is non-empty and equal to the password |
| `FormRules.CheckLogin` | src/pages/Login.jsx:49-78 | the login form passes exactly when the address has the e-mail shape and the password has at least 6 characters |
| `FormRules.CheckRegister` | src/pages/Register.jsx:52-125 | the register form passes exactly when the name has at least 3 characters, the address has the e-mail shape, the password has at least 6 characters and the confirmation equals it |
| `FormRules.RegisteredCredentialsPassLogin` | src/pages/Register.jsx:75-104 | an e-mail and password accepted at registration are accepted by the login form |
| `LoginPage.LoginForm.constructor` | src/pages/Login.jsx:9-10 | no server error, not loading, no field errors |
| `LoginPage.LoginForm.Submit` | src/pages/Login.jsx:18-29 | a request is posted exactly when the fields pass, and it carries the typed e-mail and password, so only credentials that pass the login rules reach the backend; invalid fields show their errors and change nothing else; otherwise the session performs `LoginStep`, loading ends false, success navigates to `/dashboard` with no server error, failure shows the server's error or `'Erro ao fazer login'` and does not navigate |
| `RegisterPage.RegisterForm.constructor` | src/pages/Register.jsx:9-10 | no server error, not loading, no field errors |
| `RegisterPage.RegisterForm.Submit` | src/pages/Register.jsx:21-32 | a request is posted exactly when the fields pass, and it carries the typed name, e-mail and password (never the confirmation), which also pass the login rules; invalid fields show their errors and change nothing else; the session is never changed; otherwise loading ends false, success navigates to `/login`, failure shows the server's error or `'Erro ao criar conta'` and does not navigate |
| `Notifications.Composer.constructor` | src/pages/Notifications.jsx:5-11 | empty user list, empty fields and message, no tone, not loading |
| `Notifications.Composer.LoadUsers` | src/pages/Notifications.jsx:14-25 | a successful fetch replaces the user list; a failed one leaves it and every other field as they were |
| `Notifications.Composer.SendToUser` | src/pages/Notifications.jsx:27-59 | with a missing user, title or body: the fill-all-fields error, no request, fields and loading unchanged; otherwise it posts the user, title and body, ends not loading, on success shows the server message with the success tone and clears all three fields, on failure shows the server's error or `'Erro ao enviar notificação'` and keeps the fields; an error tone always has a non-empty message |
| `Notifications.Composer.SendToAll` | src/pages/Notifications.jsx:61-95 | the selected user plays no part and is kept; a missing title or body gives its error with no request; a declined prompt changes nothing at all; otherwise it posts title and body, on success shows the server message and clears title and body, on failure shows the fallback rule's message and keeps them |
| `Scenarios.AnaAddressIsValid` | src/pages/Login.jsx:52 | `ana@x.com` matches the e-mail pattern |
| `Scenarios.NoDotIsInvalid` | src/pages/Login.jsx:52 | `ana@x` does not match the e-mail pattern |

The methods of `Scenarios` replay sessions through the classes, using
nothing but the contracts above. `NoStoredToken`, `ExpiredToken` and
`RestoredSession` bootstrap over empty storage, over a token the verify call
rejects, and over a stored token and user, and conclude what the guard
decides. `LoginThenLogout` and `RejectedLogin` start from empty storage and
submit the login page, once accepted and then logged out, once rejected.
`StorePassesRejectionThrough` calls the store directly and checks the posted
credentials and the rejection it hands back.

## Left out

- The HTTP client and the backend: each call is an input `Reply`. Request
  headers and attaching the token to requests are not modelled.
- JSON: `Codec.Stringify` and `Codec.Parse` are a stand-in text encoding, not
  JSON syntax. Only three facts are used: parsing what was stringified gives it
  back, `"null"` parses to null, and parsing can fail. A stored JSON value that
  is neither null nor a user object (for instance a number) counts as
  malformed. The browser would parse it and install it as the user.
- Storage calls are assumed never to throw. In the browser, `getItem('token')`
  sits outside the `try`, so a throw there would leave `loading` true forever.
  A `setItem('user', …)` that throws after `setItem('token', …)` succeeded
  would store the token without the user. The model's proofs that the keys
  stay paired and that a failed login writes nothing rest on this assumption.
- LoginPage.LoginForm.Submit: the browser's native check of the
  `type="email"` input (src/pages/Login.jsx:47, with no `noValidate` on the
  form) and its stripping of leading and trailing whitespace are not
  modelled. The `email` argument is assumed to be a value the browser lets
  through; the browser refuses some addresses the regular expression accepts
  (`josé@x.com`, `ana@x..com`), and for those it never runs the handler.
- RegisterPage.RegisterForm.Submit: the same native `type="email"` check and
  whitespace stripping (src/pages/Register.jsx:73) are not modelled, under the
  same assumption on the `email` argument.
- A user carries a name and an e-mail address. Other fields the backend sends
  along are not modelled.
- `Auth.LoginStep`: the login response always has a token string and a user.
  A response that lacks them (where the browser would store the text
  `"undefined"`) is not modelled.
- Asynchrony: each handler runs as one atomic step. The state rendered while
  a request is in flight is not observable in the model. This covers
  `loading` true and the message or server error cleared to `''` before the
  request. Neither is the interleaving of the start-up check with a login or
  logout.
- React machinery: hooks, re-rendering and state batching. The guard's
  rendering of its children and of the placeholder markup is reduced to the
  `Decision` value.
- react-hook-form: only the declared rules and their order (required, then
  minimum length or pattern or `validate`) are modelled. Re-validation while
  typing is not.
- `FormRules`: lengths count Unicode characters. JavaScript counts UTF-16 code
  units, so the two differ for characters outside the Basic Multilingual Plane.
- `parseInt(selectedUser)`: the request carries the selected option's text.
- The user list of the notification page is stored but not rendered.
- Presentation-only files have no behaviour to state:
  - src/pages/Dashboard.jsx: static cards and a logout-and-navigate wrapper.
  - src/components/DashboardLayout.jsx: menu and active-link styling.
  - src/pages/Home.jsx: a counter fetch and number formatting.
  - src/pages/Clientes.jsx: a placeholder.
  - src/App.js: route wiring.
- `src/services/api` is not part of this model.
