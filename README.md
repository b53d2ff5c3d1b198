# Route guard, user-list validation and login form of a Next.js tutorial dashboard

This project models three small decision-making pieces of an invoice-dashboard app built with
Next.js and next-auth, and proves properties about them:

- **Route guard** (`middleware.ts`, module `RouteGuard`). The inner `middleware(req)` decides
  from two facts. `isLoggedIn` holds when a `next-auth.session-token` or
  `__Secure-next-auth.session-token` cookie is present. `isOnDashboard` holds when the pathname
  starts with `/dashboard`. The outcome is to redirect to `/login` with a `callbackUrl`, redirect
  to `/dashboard`, or let the request through. The separate `callbacks.authorized` predicate checks
  whether the full request URL contains `/dashboard` and whether the decoded token has a `user`.
  Both are pure functions. Redirect targets are structured values (origin, path, optional
  `callbackUrl`), not serialised URLs.
- **User-list validation HOC** (`app/practice/hoc/ClientComponent.tsx`, module `ClientComponent`).
  `withLoggerAndValidation` filters the user list with the regular expression
  `^[^\s@]+@[^\s@]+\.[^\s@]+$` and warns when something was dropped. It passes the original props
  on with `userList` replaced, and names the wrapper `withLoggerAndValidation(<inner name>)`.
  The regular expression's meaning (`RegexMatches`, three non-empty runs joined by `@` and `.`) is
  proved equivalent to a structural test (`ValidEmail`): no whitespace, exactly one `@` with
  something before it, and a `.` strictly inside the domain part.
- **Login form** (`app/ui/login-form.tsx`, module `LoginForm`). The `authenticate` handler is a
  class `LoginFormState` with the two React state cells (`errorMessage`, `isPending`) and a record
  of the sign-in requests sent and the router pushes made. `BeginAuthenticate` covers the steps
  before the awaited `signIn`. `FinishAuthenticate` covers the response branch, the `catch` and
  the `finally`. `Authenticate` runs both. The outcome of `signIn` is an input: a response, an
  undefined response, or a thrown exception. The mapping from state to the error text and the
  submit button is the pure function `Render`.

Helper modules: `Wrappers` (an `Option` type standing for JavaScript's `undefined`) and `Text`
(`startsWith` and `includes` on strings).

Three facts about the code shape the model:

- `authorized` tests the whole URL string (`req.url.includes("/dashboard")`), so a `/dashboard`
  in the query string also counts.
- The form recognises only the error code `CredentialsSignin`; every other non-empty error gives
  the generic message.
- `authenticate` has no re-entrancy guard; only the button's `disabled` attribute holds back a
  second submit, so `BeginAuthenticate` does not require `!isPending`.

## Model

| member | source | states |
|---|---|---|
| `Text.Includes` | middleware.ts:40 | `s.includes(sub)` is true exactly when `sub` occurs at some index of `s` |
| `Text.PrefixIncludedInConcat` | middleware.ts:40 | a string that starts a middle part is found inside any string built around that part |
| `Text.StartsWith` | middleware.ts:20 | defines `s.startsWith(prefix)`: `prefix` is no longer than `s` and equals its first characters |
| `RouteGuard.GetCookie` | middleware.ts:12-14 | `cookies.get(name)` finds a cookie exactly when one of that name is present; the one found has that name and comes from the request |
| `RouteGuard.IsLoggedIn` | middleware.ts:12-17 | logged in exactly when a cookie named `next-auth.session-token` or `__Secure-next-auth.session-token` is present; the value is never read |
| `RouteGuard.IsOnDashboard` | middleware.ts:20 | defines `isOnDashboard`: the pathname starts with `/dashboard`; origin and query string are not read |
| `RouteGuard.Href` | middleware.ts:40 | defines `req.url` as origin + pathname + query string |
| `RouteGuard.Decide` | middleware.ts:22-35 | the state table: RedirectLogin iff on the dashboard and logged out, RedirectDashboard iff off it and logged in, Allow in the two remaining cases |
| `RouteGuard.Middleware` | middleware.ts:7-36 | the response is exactly one of: redirect to `/login` on the same origin with `callbackUrl` = the original pathname (protected and logged out), redirect to `/dashboard` on the same origin with no `callbackUrl` (unprotected and logged in), or next (otherwise) |
| `RouteGuard.NoRedirectLoop` | middleware.ts:23-35 | with the cookies held fixed, requesting the redirect target (with any query string) is allowed |
| `RouteGuard.DecisionIgnoresSearchAndCookieValues` | middleware.ts:12-20 | the decision does not depend on the query string or on any cookie value, only on the pathname and the cookie names |
| `RouteGuard.DashboardPrefixExamples` | middleware.ts:20 | the protected test is a plain prefix test: `/dashboard`, `/dashboard/invoices` and `/dashboardx` count; `/foo/dashboard` and `/login` do not |
| `RouteGuard.LoginPageRedirectsWhenLoggedIn` | middleware.ts:30-33 | a logged-in request for `/login` itself is redirected to `/dashboard` on the same origin |
| `RouteGuard.Authorized` | middleware.ts:39-49 | `authorized` is false iff the full URL contains `/dashboard` and the token is absent or has no `user` |
| `RouteGuard.AuthorizedCoversDashboard` | middleware.ts:20-42 | if the pathname starts with `/dashboard`, the full URL contains `/dashboard`, so a token without a user is refused by `authorized` |
| `RouteGuard.AuthorizedStricterOffDashboard` | middleware.ts:20-47 | the converse fails: for `/foo/dashboard` the middleware allows a logged-out request but `authorized` refuses it |
| `RouteGuard.CookieWithoutUserDiverges` | middleware.ts:12-49 | with a session cookie but a token lacking `user`, `/dashboard/invoices` passes the middleware and fails `authorized` |
| `ClientComponent.ValidEmailIffRegex` | app/practice/hoc/ClientComponent.tsx:28 | the pattern matches iff there is no whitespace, exactly one `@` with a non-empty part before it, and a `.` after the `@` that is neither the first nor the last character of the domain part |
| `ClientComponent.IsWhitespace` | app/practice/hoc/ClientComponent.tsx:28 | defines ECMAScript `\s`: the WhiteSpace and LineTerminator code points |
| `ClientComponent.RegexMatches` | app/practice/hoc/ClientComponent.tsx:28 | defines what the anchored pattern matches: a non-empty `[^\s@]` run, `@`, a non-empty run, `.`, a non-empty run, covering the whole string |
| `ClientComponent.ValidEmail` | app/practice/hoc/ClientComponent.tsx:28 | defines the `.test` the filter applies, structurally: no whitespace, one `@` with something before it, a `.` strictly inside the domain part |
| `ClientComponent.ValidEmailFromParts` | app/practice/hoc/ClientComponent.tsx:28 | three non-empty runs of `[^\s@]` joined by `@` and `.` form an accepted e-mail |
| `ClientComponent.ValidateUsers` | app/practice/hoc/ClientComponent.tsx:27-29 | the filtered list is no longer than the input; a user record, with all four fields, is in it iff it is in the input with an accepted e-mail |
| `ClientComponent.ValidateUsersMultiplicity` | app/practice/hoc/ClientComponent.tsx:27-29 | each user with an accepted e-mail is kept as many times as it occurs in the input; a rejected one never appears |
| `ClientComponent.ValidateUsersConcat` | app/practice/hoc/ClientComponent.tsx:27-29 | the filter preserves order: filtering a concatenation gives the concatenation of the filtered parts |
| `ClientComponent.ValidateAllValid` | app/practice/hoc/ClientComponent.tsx:27-29 | a list whose every e-mail is accepted comes back unchanged |
| `ClientComponent.ValidateShrinksOnReject` | app/practice/hoc/ClientComponent.tsx:27-32 | if some e-mail is rejected, the filtered list is strictly shorter |
| `ClientComponent.ShouldWarn` | app/practice/hoc/ClientComponent.tsx:32 | defines the warning condition `validatedUsers.length !== props.userList.length` |
| `ClientComponent.WarnIffSomeRejected` | app/practice/hoc/ClientComponent.tsx:32-34 | the length check warns iff at least one input e-mail is rejected |
| `ClientComponent.ValidateIdempotent` | app/practice/hoc/ClientComponent.tsx:27-34 | filtering an already filtered list changes nothing and raises no warning |
| `ClientComponent.RenderHoc` | app/practice/hoc/ClientComponent.tsx:22-38 | the wrapped component gets the original props with only `userList` replaced by the filtered list; the warning is issued iff some e-mail is rejected |
| `ClientComponent.NameOf` | app/practice/hoc/ClientComponent.tsx:44 | the falsy-fallback chain over `displayName`, `name` and `"Component"`: never empty; a non-empty `displayName` wins, then a non-empty `name`, else `"Component"` |
| `ClientComponent.WithLoggerAndValidation` | app/practice/hoc/ClientComponent.tsx:19-48 | the wrapper is `HOC` with display name `withLoggerAndValidation(` + the wrapped component's chosen name + `)` |
| `ClientComponent.DisplayNameInjective` | app/practice/hoc/ClientComponent.tsx:43-45 | the wrapper's display name determines the wrapped component's chosen name |
| `ClientComponent.DisplayUserInfoComponentName` | app/practice/hoc/ClientComponent.tsx:81-84 | the enhanced component in this file is named `withLoggerAndValidation(DisplayNameIsDisplayUserInfoComponent)` |
| `ClientComponent.FixtureUser1Valid` | app/practice/hoc/ServerComponent.tsx:11-16 | `userEmail@naver.com` is accepted |
| `ClientComponent.FixtureUser2Valid` | app/practice/hoc/ServerComponent.tsx:17-22 | `userEmail2@naver.com` is accepted |
| `ClientComponent.FixtureUser3Invalid` | app/practice/hoc/ServerComponent.tsx:23-28 | `invaildEmailgamil.com` (no `@`) is rejected |
| `ClientComponent.FixtureValidated` | app/practice/hoc/ServerComponent.tsx:11-29 | filtering the fixture list keeps `user01` and `user02` and drops `user03` |
| `ClientComponent.FixtureFiltered` | app/practice/hoc/ServerComponent.tsx:29 | rendering the wrapper on the fixture list passes on `user01` and `user02` and warns |
| `LoginForm.Field` | app/ui/login-form.tsx:18-19 | a form field reads as a value iff it was submitted, and then as the submitted string |
| `LoginForm.SignInRequestFor` | app/ui/login-form.tsx:17-26 | the sign-in request uses the `credentials` provider with `redirect: false` and exactly the form's `email` and `password` |
| `LoginForm.HasError` | app/ui/login-form.tsx:29 | defines `response?.error` being truthy: the call resolved to a response whose `error` is a non-empty string |
| `LoginForm.Succeeded` | app/ui/login-form.tsx:38 | defines the success branch: `signIn` did not throw and there is no truthy error (an undefined response or an empty error included) |
| `LoginForm.MessageAfter` | app/ui/login-form.tsx:29-46 | error `CredentialsSignin` gives "Invalid credentials."; any other non-empty error or a thrown exception gives "Something went wrong."; no message iff the call resolved without a truthy error (including an undefined response) |
| `LoginForm.Render` | app/ui/login-form.tsx:69-72 | the error text is shown iff the message is non-empty; the button is disabled iff pending; its label is "Logging in..." iff pending and "Log in" iff not |
| `LoginForm.ViewAfterAuthenticate` | app/ui/login-form.tsx:44-72 | after the handler, the button is enabled and reads "Log in", and an error is shown iff sign-in did not succeed |
| `LoginForm.LoginFormState.constructor` | app/ui/login-form.tsx:7-10 | the form starts with no error message and not pending |
| `LoginForm.LoginFormState.BeginAuthenticate` | app/ui/login-form.tsx:14-26 | sets pending before sending exactly one sign-in request built from the form; the error message and navigations are unchanged; the button is disabled and reads "Logging in..." |
| `LoginForm.LoginFormState.FinishAuthenticate` | app/ui/login-form.tsx:28-49 | the error message becomes the outcome's message; one push to `/dashboard` iff sign-in succeeded; pending is false whatever the outcome |
| `LoginForm.RetryAfterFailure` | app/ui/login-form.tsx:13-50 | a failed attempt then a successful one: one push to `/dashboard` in all, the error cleared, both requests recorded in order |
| `LoginForm.LoginFormState.Authenticate` | app/ui/login-form.tsx:13-50 | the whole handler: one request sent, message set from the outcome, navigation iff success, not pending at the end, error shown iff not success |

## Left out

- `app/lib/actions.ts` is not part of this model. It is database I/O, schema validation by a library, framework redirects and cache revalidation, a floating-point `amount * 100` and the wall clock.
- The `withAuth` wrapper (the order in which it runs `authorized` and the inner middleware, and its own sign-in redirect), JWT decoding and signature checking belong to next-auth. The two guard functions are modelled separately.
- The route matcher (`middleware.ts:54-58`) is the framework's. The guard is taken to run on every path.
- URL serialisation, including the percent-encoding of `callbackUrl`, is not modelled. Redirects are structured values. `req.url` is modelled as origin + pathname + query string, without a fragment.
- The regex engine is not modelled. `\s` is written out as the ECMAScript WhiteSpace and LineTerminator code points. Strings are sequences of characters; UTF-16 surrogate pairs are not split, which makes no difference to this pattern.
- `signIn` and `router.push` are network and navigation side effects. `signIn` is an input outcome and `router.push` a recorded path. React's scheduling of state updates is not modelled: each `set…` call takes effect at once.
- `console.log`, `console.warn` and `console.error` are dropped. The warning is a returned flag.
- Props other than `userList` are modelled as a string-valued map. Their actual values can be any JavaScript value; the model only shows that the spread leaves them unchanged.
- The rendering of `DisplayUserInfoComponent` (lines 51-80) and the other UI files are layout only.
- A credential verifier, password hashing, a password-length check and session issuance do not appear in the modelled code, so they are not modelled.
