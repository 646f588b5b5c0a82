# Session issuance and revocation in the ASP.NET auth service, modelled in Dafny

The service signs users in with a JWT carried in an HttpOnly, Secure cookie
named `token`. Each token is minted from a user id and the user's `Version`,
and `ChangeEmail` bumps `Version` before it mints a new token. The check that
rejects tokens from an earlier version belongs to the token validation behind
`[Authorize]`, which is not part of this model. The sign-in and sign-out
statements below assume that check, as `Identity.SignedInAs` states it. This
project models the three controllers that issue, re-issue and drop those
cookies:

- `AccountController` (module `Account`, a class over the identity store and
  the browser's cookie jar): the account page, account deletion, logout, the
  auth-cookie writer and the email change that re-stamps the version.
- `GoogleController.Callback` (module `Google`, a pure function): the
  external-login callback's guard chain. It returns the action result and
  the ordered list of collaborator calls it made.
- `RegisterController.Register` (module `Register`, a class plus a pure
  validation function): model-state, password and duplicate-email checks in
  source order, user creation, the loop that copies identity errors into
  ModelState, and cookie issuance on success.

Shared pieces live in `Identity` (user record, token, cookie, ASCII
upper-casing, the "current token" check, what a cookie jar presents back) and
`Mvc` (action results, view models, ModelState and identity errors).

Collaborators the controllers call but whose code is not part of this model are
inputs to the model:
- the caller's uid from the `[Authorize]` claim;
- whether `db.Save()` committed;
- the `IdentityResult` of `DeleteAsync` and `CreateAsync`;
- the id the new user was given;
- what `GetExternalLoginInfoAsync` and `FindByEmailAsync` return, and the tokens `GoogleService` returns;
- the current time `now`, in seconds.

A token is the opaque pair `MkToken(uid, version)`. A request is signed in as
a user when its unexpired `token` cookie carries that user's current version
(`Identity.SignedInAs`). Each controller's `cookies` field is the browser's
cookie jar. When an action starts it holds the request's cookies. When the
action ends it holds the jar the browser keeps after applying the response's
cookies.

Notes on the source as written:
- `ChangeEmail` does not check the new email against other users. Two users can end up with the same normalised email (`Account.ChangeEmailMayShareEmail`), so email uniqueness is preserved by `Register` only, and only when registrations run one after another.
- `ConfirmDelete` leaves the deleted user's cookie in place. The cookie stops signing anyone in because the user is gone (`Account.AccountController.ConfirmDelete`).
- `Logout` only drops this browser's cookie and does not bump the version, so other browsers stay signed in.

Two more facts about the code:
- A failed save is not reported: `ChangeEmail` redirects to `/Account` just as it does after a successful save.
- When `SignInUserWithExternal` returns no token, the callback answers a bare `Problem()` (status 500) with no detail. When `CreateUserWithExternal` returns none, it answers `Problem("Error creating a new user.")`.
- `Register` checks `ModelState` first and returns the form view when it is invalid. Only after that does it compare the passwords and look up the email.

## Model

| member | source | states |
|---|---|---|
| Identity.Upper | Web/Controllers/AccountController.cs:96 | the normalised email has the same length as the email, and each character is the upper-case form of the email's character at that position |
| Identity.UpperIgnoresCase | Web/Controllers/AccountController.cs:96 | two emails normalise to the same string if and only if they are equal up to ASCII letter case, checked against an independent case-insensitive equality |
| Identity.UpperIdempotent | Web/Controllers/AccountController.cs:96 | normalising an already normalised email leaves it unchanged |
| Identity.RegisteredIgnoresCase | Web/Controllers/RegisterController.cs:37-38 | an email lookup gives the same answer for every case variant of the email |
| Identity.FoundIgnoringCase | Web/Controllers/RegisterController.cs:37 | in a normalised store, a record matches an email lookup if and only if its email equals the probe up to case |
| Identity.AuthCookieRoundTrip | Web/Controllers/AccountController.cs:76-81 | once the auth cookie is written, the browser presents exactly that token until now + 30 days and nothing after that |
| Mvc.Descriptions | Web/Controllers/AccountController.cs:55 | the Delete view lists one description per identity error, in the same order |
| Account.AccountController.Index | Web/Controllers/AccountController.cs:27-35 | the account view, holding the user's id and email, is shown if and only if the user exists; otherwise the result redirects to Home/NotFoundPage |
| Account.AccountController.ConfirmDelete | Web/Controllers/AccountController.cs:45-56 | missing user: redirect to "/" with nothing changed; DeleteAsync succeeded: the user is removed and the result redirects to "/"; DeleteAsync failed: the user stays and the Delete view lists the error descriptions; cookies are never touched, yet after a deletion the browser's cookie signs in as the deleted user at no time |
| Account.AccountController.Logout | Web/Controllers/AccountController.cs:60-64 | only the token cookie is removed from the browser's jar, so the browser is signed in as nobody at any time; the store is outside the method's frame; the result redirects to "/" |
| Account.AccountController.AddAuthCookie | Web/Controllers/AccountController.cs:74-82 | the token cookie holds the given token with HttpOnly and Secure set and expires at now + 30 days; other cookies are unchanged |
| Account.AccountController.ChangeEmail | Web/Controllers/AccountController.cs:88-106 | missing user: redirect to "/" with store and cookies unchanged; save failed: redirect to /Account with store and cookies unchanged; save succeeded: only the caller's record changes (email set, normalised email upper-cased, version + 1) and the cookie holds MkToken(uid, new version), so the browser is signed in as the user for 30 days, while any jar presenting the pre-change token is signed in as nobody; no version ever decreases; a normalised store stays normalised |
| Account.ChangeEmailRevokes | Web/Controllers/AccountController.cs:97-103 | after a committed change, every token minted for the user at an earlier version is no longer current, the new token is current, and other users' tokens keep their standing |
| Account.ChangeEmailFindable | Web/Controllers/AccountController.cs:95-96 | after the change, the user's normalised email matches exactly the case variants of the new email |
| Account.ChangeEmailSession | Web/Controllers/AccountController.cs:97-105 | the browser that made the change is signed in as the user for 30 days, while a jar still holding the pre-change token is signed in as nobody |
| Account.ChangeEmailMayShareEmail | Web/Controllers/AccountController.cs:90-97 | a store with unique normalised emails can lose that property through an email change, because the new email is not checked against other users |
| Google.Callback | Web/Controllers/Api/GoogleController.cs:39-62 | a remote error gives BadRequest("Google error: …") with no collaborator call; missing login info or email claim gives BadRequest with only the info load; the email lookup happens if and only if those guards pass; an existing user leads only to the sign-in call; the create call happens once, exactly when no user has the email; Ok holds the called service's token and the claimed email, and happens if and only if that service returned a token; a null token gives Problem |
| Google.CallbackIgnoresUncalledService | Web/Controllers/Api/GoogleController.cs:49-61 | the answer does not depend on the result of the service path that was not taken |
| Google.RemoteErrorDecidesAlone | Web/Controllers/Api/GoogleController.cs:41 | with a remote error, the run is the same whatever the login info, the lookup and the services would have returned |
| Register.Screen | Web/Controllers/RegisterController.cs:29-42 | the form passes if and only if the model state is valid, the passwords match and the email is not registered; the checks run in source order, each with its own result and ModelState entry |
| Register.RegisterController.Register | Web/Controllers/RegisterController.cs:27-63 | an early rejection returns the validation result with store and cookies unchanged and records its ModelState entry; a failed CreateAsync gives status 500 with every identity error copied into ModelState in order and store and cookies unchanged; success adds the new user (submitted email, upper-cased normalised email, version 0), writes a cookie holding MkToken(newId, 0), so the browser is signed in as the new user for 30 days, and redirects to /Account; the cookie changes only on that path; normalisation is preserved, and so is email uniqueness when registrations run one after another |
| Register.NewUserKeepsEmailsUnique | Web/Controllers/RegisterController.cs:37-46 | adding a user whose email passed the duplicate check keeps normalised emails unique |
| Register.PasswordCheckPrecedesLookup | Web/Controllers/RegisterController.cs:31-37 | when the passwords differ, the answer is the same for any store contents, so the email lookup never matters |
| Register.DuplicateIgnoresCase | Web/Controllers/RegisterController.cs:37-42 | in a normalised store, an email equal to a registered one up to case is rejected with "Email already registered" |
| Register.RegisterSignsIn | Web/Controllers/RegisterController.cs:44-62 | after success, the browser is signed in as the new user for 30 days, and the new user is found by any case variant of the email |

## Left out

- JWT signing and verification (`Jwt.Token`) are not part of this model. A token is the pair it is minted from, with no signature and no expiry claim. How the cookie's 30-day expiry compares with the token's own lifetime is therefore not modelled.
- Password hashing and validation inside `CreateAsync`, and the normaliser inside `FindByEmailAsync`, are collaborator code. Creation is an input `IdentityResult`; the lookup is the model's upper-casing of the email.
- `GoogleService.SignInUserWithExternal` and `CreateUserWithExternal` are not part of this model. Their tokens are inputs, so linking, link idempotence, atomic user-and-link creation and any version bump they make are not modelled.
- `GoogleController.Login` (OAuth challenge/redirect) and `GetExternalLoginInfoAsync` are provider I/O. The callback receives the loaded login info as an input.
- EF Core persistence: `db.Save()` is a boolean that commits the staged record or discards it. Optimistic-concurrency detection inside it is not modelled.
- Async execution, the `[Authorize]` pipeline and `User.Uid()`: the caller's uid is an input, and unauthenticated requests are not modelled.
- View rendering, the `Delete` and `Email` GET actions, `RegisterController.Index` and `LoginPost` are left out because they contain no logic.
- `ToUpper` is culture-sensitive in .NET. The model upper-cases ASCII letters only.
- The clock is the integer parameter `now`, in seconds. Cookie expiry is absolute.
- Account.AccountController.Logout: `Response.Cookies.Delete` actually sends an expired `Set-Cookie`. The model shows this as removing the cookie from the browser's jar.
- Register.RegisterController.Register: `Response.AddAuthCookie`, the extension that Register calls, is not part of this model. It is assumed to write the same cookie as `AccountController.AddAuthCookie`.
- Register.RegisterController.Register: the `User(email)` constructor is not part of this model. The new user's version is taken to be 0, and the id it generates is required to be fresh in the store.
- Register.RegisterController.Register: `ModelState.IsValid` means that the ModelState error list is empty when the action starts.
- `DeleteAsync` cascades to external logins. External logins are not modelled.
- Account.AccountController.ChangeEmail: model-bound strings cannot be null here. ChangeEmail never checks `ModelState`, so a POST without an Email field binds `body.Email` to null, and `ToUpper` then throws before `db.Save()`. That exception path is not modelled.
- Register.RegisterController.Register: requests are modelled one at a time. The duplicate-email lookup and `CreateAsync` are separate store round-trips, so two concurrent registrations of one email can both pass the check. The promise that email uniqueness is preserved (and `Register.NewUserKeepsEmailsUnique`) holds only for registrations that run one after another.
- Identity.SignedInAs: none of the three controllers compares a token's version with the store. The token validation that does is not part of this model, and `SignedInAs` assumes it accepts exactly the unexpired tokens whose version equals the user's current `Version`. The sign-in and sign-out promises hold only under that assumption. Those are the ensures of `Logout`, `ConfirmDelete` and `ChangeEmail`, plus `Account.ChangeEmailRevokes`, `Account.ChangeEmailSession` and `Register.RegisterSignsIn`.
- Identity.EmailRegistered: the lookup is modelled as "some record's normalised email matches". When several records match, which `ChangeEmail` can bring about (`Account.ChangeEmailMayShareEmail`), the store's `FindByEmailAsync` throws, and `Register` and the Google callback end in an unhandled exception. The model answers "Email already registered" or a sign-in instead, so that exception is not modelled. `ChangeEmail`'s culture-sensitive `ToUpper` and the lookup's invariant normaliser are both modelled as the same ASCII `Upper`, so `Account.ChangeEmailFindable` holds by construction.
