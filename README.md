# Sign-up, sign-in and session logic of the Gachon used-book market front end

The web client of a used-textbook market for one university has a thin logic
layer under its pages. This project models that layer in Dafny and proves what
it promises:

- the **token store** (`utils/auth.ts`). It keeps three bearer tokens in
  cookies with lifetimes of one hour, one day and thirty days. It also holds the
  session check `isAuthenticated` and the identity read `getUserInfo`;
- the **phone-number formatter** (`utils/format.ts`);
- the **input checks** (`utils/validation.ts`): the institutional address
  suffix `@gachon.ac.kr` and the eight-character password minimum;
- the **server actions** (`actions/auth.ts`): `signUp`, `signIn`, `verifyEmail`
  and the stub `sendVerificationEmail`;
- the **sign-up page's state machine** (`app/signup/page.tsx`): the two
  field-error effects, the submit gate, the change handlers and the two
  submit handlers;
- the **user provider** (`contexts/UserContext.tsx`): `refreshUser` and the
  `useUser` guard.

Files: `wrappers.dfy` (Option, Result), `validation.dfy`, `format.dfy`,
`auth.dfy`, `actions.dfy`, `signup_page.dfy`, `user_context.dfy`. There is one
module per source file, plus the shared `Wrappers`.

Modelling choices:

- The clock is an integer number of milliseconds, the unit of `Date.now()`.
- A cookie jar is a `map` from cookie name to a value and an expiry instant. A
  cookie can be read while the clock is before its expiry. The shared jar is
  the class `Auth.CookieJar`. Its `SetTokens` and `RemoveTokens` make three
  sequential writes, and their contracts tie the new map to the functions
  `WithTokens` and `WithoutTokens`. Reads are functions of the jar and the clock.
- `jwtDecode` is a parameter `decode: string -> Option<Claims>`. `None` stands
  for the exception it throws. `exp` is optional: a token without it compares
  as `undefined > now`, which is false.
- JavaScript's `!token` treats the empty string like a missing cookie. The
  model does the same: an empty access token is not a session, and an empty id
  token yields no user information.
- `exp > Date.now() / 1000` is stated as `exp * 1000 > now` on integers. The
  two agree for an integer `exp`.
- The browser's `required` check on the sign-up page's inputs is part of the
  model. A submit with an empty name, address, password, confirmation or code
  never reaches the handler.
- The sign-up page renders its sign-up form only before the verification step
  and its verification form only on it (app/signup/page.tsx:96, 205). Each
  handler requires the step on which its form exists.
- On the sign-up page, `emailError` and `passwordError` are functions of the
  fields they watch, not stored state. Each handler is one atomic step.
  The outcome of a request is an input: `Resolved`, `ThrewError(message)` or
  `ThrewOther`. The request a handler sends is an output.
- `refreshUser` reads a `CookieJar` object and leaves it unchanged. The
  outcome of `fetchUserInfo` is an input. The method reports whether that
  request was made.

The code has no token refresh after a 401 answer, no resend countdown and no
debounce on sending codes. The sign-up page holds back an empty code only
through the browser's `required` attribute; any non-empty code is sent to the
verification endpoint of `utils/api.ts`. The server action `verifyEmail` in
`actions/auth.ts` is a separate stub that accepts every code.

## Model

| member | source | states |
|---|---|---|
| Validation.IsGachonEmail | utils/validation.ts:1-3 | an accepted address is at least as long as `@gachon.ac.kr` and is its own prefix followed by that domain; a rejected one is shorter or ends otherwise |
| Validation.ValidatePassword | utils/validation.ts:5-7 | an accepted password has at least eight characters (so is non-empty); a rejected one has fewer |
| Validation.IsGachonEmailIffSuffix | utils/validation.ts:1-3 | an address passes exactly when it is some local part followed by `@gachon.ac.kr` |
| Validation.AnyLocalPartAccepted | utils/validation.ts:1-3 | `local + "@gachon.ac.kr"` passes for every local part, the empty one included |
| Validation.OtherDomainsRejected | utils/validation.ts:2 | `a@gmail.com`, the upper-case `x@GACHON.AC.KR` and the empty string are rejected (the test is case-sensitive) |
| Validation.ValidatePasswordMonotone | utils/validation.ts:5-7 | a password that passes still passes with characters appended |
| Validation.ValidatePasswordThreshold | utils/validation.ts:5-7 | eight characters pass, seven and zero do not |
| Format.StripPhoneNumber | utils/format.ts:15-17 | the result holds only the digits 0-9 and is no longer than the input |
| Format.StripKeepsDigits | utils/format.ts:15-17 | every digit of the input survives as often as it occurs; no other character does |
| Format.StripConcat | utils/format.ts:15-17 | stripping distributes over concatenation |
| Format.StripAllDigits | utils/format.ts:15-17 | a string of digits is left unchanged |
| Format.StripIdempotent | utils/format.ts:15-17 | stripping twice is stripping once |
| Format.FormatPhoneNumber | utils/format.ts:1-13 | the output has at most 13 characters, each a digit or a hyphen |
| Format.FormatLayout | utils/format.ts:3-12 | up to 3 digits: the digits with no hyphen; 4-7 digits: one hyphen, at index 3; 8 or more: two hyphens, at indices 3 and 8, and min(11, digits) + 2 characters |
| Format.FormatStripRoundTrip | utils/format.ts:1-17 | stripping a formatted number gives back the first min(11, n) of the input's n digits |
| Format.FormatDependsOnDigitsOnly | utils/format.ts:1-3 | formatting the stripped input gives the same result as formatting the input |
| Format.FormatIdempotent | utils/format.ts:1-13 | formatting a formatted number changes nothing |
| Auth.Lookup | utils/auth.ts:14-24 | `Cookies.get`: a value is read exactly when the cookie exists and the clock is before its expiry, and it is the stored value |
| Auth.AccessToken | utils/auth.ts:14-16 | the `access_token` value exactly while that cookie exists and has not expired |
| Auth.IdToken | utils/auth.ts:18-20 | the `id_token` value exactly while that cookie exists and has not expired |
| Auth.RefreshToken | utils/auth.ts:22-24 | the `refresh_token` value exactly while that cookie exists and has not expired |
| Auth.IsAuthenticated | utils/auth.ts:32-43 | true exactly when the access token is present and non-empty, decodes, carries `exp`, and `exp * 1000` is later than now |
| Auth.GetUserInfo | utils/auth.ts:45-54 | claims come back only from a present, non-empty id token and are its decoding; a missing or empty id token gives none |
| Auth.CookieJar.constructor | utils/auth.ts:1 | the jar starts empty (a choice of the model; no lemma depends on it) |
| Auth.CookieJar.SetTokens | utils/auth.ts:8-12 | the three cookies are written with expiries now + 1 h, now + 1 day and now + 30 days, and other cookies are kept |
| Auth.CookieJar.RemoveTokens | utils/auth.ts:26-30 | the three cookies are deleted and other cookies are kept |
| Auth.TokensReadBack | utils/auth.ts:8-24 | after `setTokens` each getter returns its stored value exactly until that token's lifetime has elapsed |
| Auth.LifetimesOrdered | utils/auth.ts:9-11 | 1 h < 1 day < 30 days; between one hour and one day the access token reads absent while the id and refresh tokens are present |
| Auth.SetTokensOverwrites | utils/auth.ts:8-12 | a second `setTokens` leaves the same jar as if the first had not happened |
| Auth.RemoveTokensClears | utils/auth.ts:26-30 | afterwards all three getters are absent, a second call changes nothing, and other cookies are kept |
| Auth.NoAccessTokenFailsClosed | utils/auth.ts:32-34 | with no (or an empty) access token the session check is false for every decoder, so no decoding decides it |
| Auth.UndecodableFailsClosed | utils/auth.ts:36-42 | a token that does not decode, or has no `exp`, is not a session |
| Auth.AuthenticatedIffNotExpired | utils/auth.ts:36-39 | for a decodable token the session holds iff `exp * 1000 > now`; a token expiring exactly now is not a session |
| Auth.AuthenticationOnlyLapses | utils/auth.ts:32-43 | a session that holds at some instant also held at every earlier one |
| Auth.SessionAfterSetTokens | utils/auth.ts:8-12 | right after `setTokens`, the session holds while both the one-hour cookie and `exp` are in the future |
| Auth.SignedOutAfterRemove | utils/auth.ts:26-54 | after `removeTokens` there is neither a session nor user information |
| Auth.UserInfoDecodesIdToken | utils/auth.ts:45-54 | user information is absent exactly when the id token is missing, empty or undecodable; otherwise it is the decoded token |
| Auth.UserInfoIgnoresExpiry | utils/auth.ts:49-50 | an id token whose `exp` has passed still yields its claims |
| Actions.SendVerificationEmail | actions/auth.ts:60-63 | the code handed back is six characters long (the fixed `123456`) |
| Actions.SignUp | actions/auth.ts:5-29 | a foreign domain gives the domain error; otherwise differing passwords give the mismatch error; success happens exactly for an institutional address with matching passwords, and echoes the address with code `123456` |
| Actions.SignUpChecksDomainFirst | actions/auth.ts:11-21 | for a foreign address the result does not depend on the passwords, and is never the mismatch error |
| Actions.SignUpIgnoresPasswordLength | actions/auth.ts:5-29 | a matching pair shorter than eight characters still succeeds |
| Actions.SignIn | actions/auth.ts:31-46 | success exactly for an institutional address; otherwise the domain error |
| Actions.SignInIgnoresPassword | actions/auth.ts:35-45 | every password, including the empty one, signs in an institutional address; `a@gmail.com` is refused |
| Actions.VerifyEmail | actions/auth.ts:48-57 | every address and code is accepted |
| SignUpPage.EmailError | app/signup/page.tsx:27-33 | the error is non-empty iff the address is non-empty and not institutional |
| SignUpPage.PasswordError | app/signup/page.tsx:35-41 | the error is non-empty iff both fields are filled in and differ |
| SignUpPage.BlankFieldsRaiseNoError | app/signup/page.tsx:27-41 | an empty address and a blank password field raise no field error; empty fields are left to `required` |
| SignUpPage.SignUpFailure | app/signup/page.tsx:53-58 | the banner is the thrown message when it is an `Error` with a non-empty message, else the default; never empty |
| SignUpPage.VerificationFailure | app/signup/page.tsx:70-76 | the banner is the `Error`'s message as it is, or exactly the default message for another thrown value |
| SignUpPage.VerificationFailureMayBeBlank | app/signup/page.tsx:53-76 | an `Error` with an empty message leaves the verification banner blank, while sign-up falls back to its default |
| SignUpPage.SignUpForm.constructor | app/signup/page.tsx:16-21 | every field starts empty, on the sign-up step |
| SignUpPage.SignUpForm.RequiredFieldsFilled | app/signup/page.tsx:106-167 | the browser lets the sign-up form submit exactly when none of name, address, password and confirmation is empty (`required` at :106, 122, 139, 167) |
| SignUpPage.SignUpForm.SubmitDisabled | app/signup/page.tsx:193 | the button is disabled iff there is an address error or a password mismatch error |
| SignUpPage.SignUpForm.ChangeName | app/signup/page.tsx:105 | on the sign-up step, only the name changes; the banner is kept |
| SignUpPage.SignUpForm.ChangeEmail | app/signup/page.tsx:118-121 | on the sign-up step, the address changes and the banner is cleared; nothing else changes |
| SignUpPage.SignUpForm.ChangePassword | app/signup/page.tsx:135-138 | on the sign-up step, the password changes and the banner is cleared; nothing else changes |
| SignUpPage.SignUpForm.ChangePasswordConfirm | app/signup/page.tsx:163-166 | on the sign-up step, the confirmation changes and the banner is cleared; nothing else changes |
| SignUpPage.SignUpForm.HandleSignUp | app/signup/page.tsx:43-60 | on the sign-up step: no request and no change iff a required field (page.tsx:106, 122, 139, 167) is empty or submission is blocked by a field error; otherwise it sends name, address and password, then moves to the verification step with the banner cleared, or shows the failure and stays |
| SignUpPage.SignUpForm.HandleVerification | app/signup/page.tsx:62-77 | on the verification step: an empty code is held back by `required` (page.tsx:209) with nothing changed; otherwise sends the address and code; success redirects to `/login?verified=true`; failure sets the banner and stays on the verification step |
| UserContext.UserFromClaims | contexts/UserContext.tsx:35-39 | the user's id, name and email are the claims' `sub`, `name` and `email` |
| UserContext.UserProvider.constructor | contexts/UserContext.tsx:23-25 | no user, loading, no error |
| UserContext.UserProvider.BeginRefresh | contexts/UserContext.tsx:28-29 | loading is set and the error cleared before anything is read |
| UserContext.UserProvider.RefreshUser | contexts/UserContext.tsx:27-54 | not authenticated: no user, no error; decodable id token: the user from its claims, no request; otherwise the fetched user, or no user and the failure message if the request throws; loading ends false; an error never comes with a user |
| UserContext.UseUser | contexts/UserContext.tsx:63-69 | outside a provider it fails with the fixed message; inside it returns the provider |

## Left out

- jwtDecode's decoding (base64url, JSON, signatures) is a parameter of the model, not a definition. Claims with a non-integer or non-numeric `exp` (a NumericDate may carry a fraction) or missing `sub`/`name`/`email` are not modelled.
- js-cookie's internals are not modelled: the `secure` and `sameSite` attributes, browser persistence, and the one-second granularity of the `Expires` attribute. A cookie expires exactly `lifetime` milliseconds after it was set.
- Network requests are not modelled: `utils/api.ts`, `fetchUserInfo` and `fetch`. Their outcomes are inputs. `fetchUserInfo` is not part of this model.
- contexts/UserContext.tsx:4 imports `fetchUserInfo` from `utils/api.ts`, which exports only `signUp` and `verifyEmail`. As the files stand, that branch either fails the build or throws a `TypeError`, which the catch at contexts/UserContext.tsx:48-50 turns into the failure message: the model's `FetchThrew`. The model keeps every fetch outcome possible.
- `window.location.href` navigation is returned as a target string, not performed.
- React scheduling is not modelled. Each handler is one atomic step and each effect a function of its fields. A render that sees stale field errors between a keystroke and its effect is not modelled. Only `BeginRefresh` shows the loading state that `refreshUser` exposes while it awaits.
- The show/hide password toggles (`showPassword`, `showPasswordConfirm`) are not modelled. They change only how an input is displayed.
- `FormData.get` returning `null` for a missing field is not modelled. Every field is a string.
- SignUpPage.SignUpForm.HandleSignUp: the browser's `type="email"` format check on the address (app/signup/page.tsx:114) is not modelled; a non-empty malformed address that ends with `@gachon.ac.kr` reaches the handler in the model. Whitespace-only values, which pass `required`, are treated like any other non-empty value.
- Strings are sequences of Unicode characters, not UTF-16 code units.
- Actions.SendVerificationEmail: the contract gives the code's length; the exact value `123456` is stated by `Actions.SignUp`.
- `app/login/page.tsx` only forwards to `signIn` and is not part of this model. The same holds for the book cards and views and for `utils/config.ts`.
