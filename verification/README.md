# Account store and authentication rules of an image-search web app

This project models the authentication core of a small web application. The
application has a React front end for image search and an Express back end.
Users sign in with an email and password, or through Google, GitHub or
Facebook in a popup window. The model is written in Dafny.

- `wrappers.dfy` (module `Wrappers`): optional values, results, and JavaScript truthiness of strings.
- `utf8.dfy` (module `Utf8Encoding`): UTF-8 (RFC 3629), the encoding a password goes through before bcrypt uses it. Encoding is proved injective and to distribute over concatenation.
- `server.dfy` (module `Server`): the back end. It holds the user schema and its uniqueness invariants. It also holds the idealised password hash and the token claims. bcrypt is modelled down to the 72 key bytes it actually uses. It defines find-or-link-or-create for federated logins, local registration and login, and the handoff pages. `UserStore` is the collection, updated in place by its methods. Each method is proved against a function of the old collection (`Resolve`, `RegisterOutcome`).
- `server_properties.dfy` (module `ServerProperties`): what each branch of resolution does, idempotence of resolution, the registration conflict rule, the order of the login checks, and register-then-login.
- `app.dfy` (module `App`): the selection toggle, the persisted session (restore, login, logout), the search state around the fetch, and the route guards.
- `login_page.dfy` (module `LoginPage`): the handoff message listener, the form checks, how replies become messages, the provider URLs, and the tab switch. It also has lemmas that tie these to the back end's replies and handoff pages.

The model follows the code in these places, where a reader might expect otherwise:

- Resolution checks for a first email before it looks up the provider id (backend/server.js:53-60). So a missing email fails even for a provider id that is already linked.
- Linking sets the provider id field unconditionally (backend/server.js:66). It overwrites an earlier value; it does not set the field only when unset.
- The token's subject claim is named `id` (backend/server.js:181, 194).
- An error thrown by resolution goes to the strategy's `done(err, false)` (backend/server.js:92-93). The authentication middleware passes such an error on to the framework's error handler, which answers 500. It does not go to the failure redirect, which serves only refusals. So a profile without an email ends with a 500 page in the popup, not with the failure handoff (`Server.CallbackReplyFor`, `ServerProperties.CallbackWithoutEmailIsServerError`).
- bcryptjs keys its cipher with the UTF-8 password plus a zero byte, repeated to fill 72 bytes (backend/server.js:156, 178). Bytes after the 72nd are ignored. So a password longer than 72 bytes also accepts any attempt with the same first 72 bytes (`ServerProperties.LongPasswordsShareKey`, `ServerProperties.TruncationAcceptsOtherPassword`). Among attempts of at most 72 bytes without NUL characters, a password of at most 72 bytes without NUL accepts only itself (`ServerProperties.ShortPasswordsCompareExactly`). An attempt with a NUL can stand in for the zero byte: the password, a NUL and the password again is also accepted (`ServerProperties.NulRepetitionMatches`).
- Registration never links to an existing federated-only account: a taken email is refused (backend/server.js:153-154). Federated login does link by email. The model keeps this asymmetry.

## Model

| member | source | states |
|---|---|---|
| `Utf8Encoding.EncodeChar` | backend/server.js:156 | a character's UTF-8 bytes: one below U+0080, two below U+0800, three below U+10000, otherwise four; the first byte gives the length, every later byte is a continuation byte (0x80 to 0xBF), decoding gives the character back, and only NUL has a zero byte |
| `Utf8Encoding.Encode` | backend/server.js:156 | a string's UTF-8 bytes, at least one per character and none for the empty string |
| `Utf8Encoding.EncodeConcat` | backend/server.js:156 | the encoding of a concatenation is the concatenation of the encodings |
| `Utf8Encoding.EncodeInjective` | backend/server.js:156 | two strings with the same bytes are the same string |
| `Utf8Encoding.EncodeWithoutNul` | backend/server.js:156 | a string without NUL encodes without a zero byte |
| `Utf8Encoding.EncodeAscii` | backend/server.js:156 | an ASCII string encodes as one byte per character, each the character's code |
| `Server.StartPath` | backend/server.js:214-228 | the start route of each provider (`/auth/google`, `/auth/github`, `/auth/facebook`); no ensures, and `LoginPage.ButtonsOpenStartRoutes` ties it to the buttons |
| `Server.Cycle` | backend/server.js:156 | the bytes repeated and cut to the wanted length: it starts with the bytes themselves and each byte past the first copy equals the byte one copy earlier |
| `Server.CycleTwice` | backend/server.js:156 | repeating two copies of the bytes gives the same result as repeating one |
| `Server.CipherKey` | backend/server.js:156 | the 72 key bytes bcrypt uses: the password's UTF-8 bytes as far as they go, then a zero byte if there is room, and from there on the same bytes again, each equal to the byte one password-plus-terminator length earlier |
| `Server.Matches` | backend/server.js:178 | `bcrypt.compare`: the attempt gives the same key bytes as the hashed password; no ensures, and `ServerProperties.ShortPasswordsCompareExactly` and `ServerProperties.LongPasswordsShareKey` say which attempts those are |
| `Server.Hash` | backend/server.js:156 | bcrypt with cost 10 and the drawn salt; the hash matches its own password, and exactly the passwords with the same 72 key bytes |
| `Wrappers.Or` | backend/server.js:67-74 | JavaScript's logical or on optional strings: the result is truthy exactly when either side is, and it is the left side when that is truthy and the right side otherwise |
| `Server.Unexpired` | backend/server.js:181-183 | a token is accepted strictly before its expiry time; no ensures, and `Server.Issue` states the 7-day window with it |
| `Server.Issue` | backend/server.js:181-183 | the token names the user id; it is accepted from issue until exactly 7 days later and rejected from then on |
| `Server.ProviderId` | backend/server.js:59-66 | `user[providerIdField]`: the Google, GitHub or Facebook id field of a record; no ensures, and `Server.WithProviderId` and `Server.IndexOfProviderId` state how it is written and read |
| `Server.WithProviderId` | backend/server.js:66 | sets the one provider id field named by the provider; id, name, email, password and the other provider fields are unchanged |
| `Server.IndexOfEmail` | backend/server.js:63 | finds the first record with the email, or reports that no record has it |
| `Server.IndexOfProviderId` | backend/server.js:59 | finds the first record holding the provider id, or reports that none holds it |
| `Server.InfoOf` | backend/server.js:186 | the user part of a reply, `{ name, email }`; no ensures, and `Server.Login` and `Server.SuccessHandoff` state it through their payloads |
| `Server.ResolveErrorMessage` | backend/server.js:55 | the message resolution throws; no ensures, and `ServerProperties.ResolveWithoutEmailFails` states the missing-email text |
| `Server.FirstEmail` | backend/server.js:53 | the email is the first entry's value, present exactly when there is a non-empty first entry |
| `Server.NewFederatedUser` | backend/server.js:73-77 | a new federated record has the provider id, the name and the email, no password and no other provider id |
| `Server.Wellformed` | backend/server.js:40-47 | the schema's guarantees together: `RequiredFields` (name and email non-empty), `UniqueEmails`, `UniqueProviderIds` (each provider field unique where present) and `FreshIds`; no ensures, and the preservation lemmas below keep it |
| `Server.RequiredFields` | backend/server.js:41-42 | every record has a non-empty name and email; part of `Wellformed` |
| `Server.UniqueEmails` | backend/server.js:42 | no two records share an email; part of `Wellformed` |
| `Server.UniqueProviderIds` | backend/server.js:44-46 | no two records share a present Google, GitHub or Facebook id; part of `Wellformed` |
| `Server.FreshIds` | backend/server.js:40-47 | record ids are distinct and below the next id, as the database's generated `_id` is; part of `Wellformed` |
| `Server.Resolve` | backend/server.js:52-80 | the outcome and collection of `findOrCreateUser`; an error writes nothing, a returned user holds the profile's provider id, and at most the returned user is appended |
| `Server.LinkPreservesWellformed` | backend/server.js:40-47 | replacing one record by one with the same id and email and an unused provider id keeps every schema invariant |
| `Server.AppendPreservesWellformed` | backend/server.js:40-47 | appending a record with the next id, a new email and unused provider ids keeps every schema invariant |
| `Server.ResolvePreservesWellformed` | backend/server.js:52-80 | resolution keeps names and emails required, emails unique, each provider id unique where present, and ids fresh |
| `Server.RegisterOutcome` | backend/server.js:147-164 | the reply and collection of a registration; the reply is 201 or 400, a 400 writes nothing, and a 201 appends exactly one record, with the next id, the given name and email, and a hash the given password matches |
| `Server.RegisterPreservesWellformed` | backend/server.js:147-164 | registration keeps every schema invariant |
| `Server.Login` | backend/server.js:167-190 | the reply is 200 or 400; an unknown email gets "User not found"; a 200 is for a record with that email whose password hash matches, with that record's token, name and email |
| `Server.SuccessHandoff` | backend/server.js:193-211 | the page posts to `http://localhost:3000` a 7-day token for the user with the user's name and email, and no error and no message |
| `Server.FailureHandoff` | backend/server.js:235-244 | the page posts to the same origin an error "Authentication failed. Please try again." and nothing else: no token, no user, no message |
| `Server.CallbackReplyFor` | backend/server.js:88-95 | a resolved user gets the success handoff; an error thrown by resolution gets the server error page |
| `Server.UserStore.constructor` | backend/server.js:49 | the collection starts empty and valid |
| `Server.UserStore.FindOrCreateUser` | backend/server.js:52-80 | returns and leaves exactly what `Resolve` gives for the old collection, and keeps the invariants |
| `Server.UserStore.Register` | backend/server.js:147-164 | answers and leaves exactly what `RegisterOutcome` gives for the old collection, and keeps the invariants |
| `Server.UserStore.Callback` | backend/server.js:213-232 | a refusal redirects to `/auth/failure` and writes nothing; a grant resolves the profile and answers as `CallbackReplyFor` |
| `ServerProperties.ResolveWithoutEmailFails` | backend/server.js:53-56 | with no usable first email, resolution throws "Could not retrieve email from provider." and writes nothing, whatever the collection holds |
| `ServerProperties.ResolveKnownProvider` | backend/server.js:59-60 | a record holding the provider id is returned and nothing is written |
| `ServerProperties.ResolveLinksByEmail` | backend/server.js:63-69 | linking changes only the record with the email: its provider id becomes the profile id, its name is kept if non-empty and otherwise becomes the display name; with no name at all the save fails and nothing is written |
| `ServerProperties.ResolveCreatesUser` | backend/server.js:73-79 | creation appends exactly one record with the provider id, the display name or else the username, the email and no password; with neither name it fails and writes nothing |
| `ServerProperties.ResolvedUserIsStored` | backend/server.js:59-79 | a returned user is in the collection afterwards and holds the profile's provider id |
| `ServerProperties.ResolveIsIdempotent` | backend/server.js:52-80 | resolving the same profile again returns the same outcome and writes nothing more |
| `ServerProperties.RegisterRejectsMissingField` | backend/server.js:150-152 | a missing name, email or password gets 400 "Please enter all fields" and no write |
| `ServerProperties.RegisterRejectsTakenEmail` | backend/server.js:153-154 | an email already present gets 400 "Email already exists" and no write, even for a federated-only record |
| `ServerProperties.RegisterAddsUser` | backend/server.js:156-160 | otherwise exactly one record is appended, with a hash the password matches and no provider id, and the reply is 201 |
| `ServerProperties.RegisterTwiceConflicts` | backend/server.js:153-154 | registering an email a second time is refused and never creates a second record |
| `ServerProperties.LoginUnknownUser` | backend/server.js:170-171 | an unknown email gets "User not found" |
| `ServerProperties.LoginDecision` | backend/server.js:170-186 | for a known email: no password gives the original-method message (never "Invalid password"), a mismatch gives "Invalid password", otherwise a token for the record's id with only its name and email |
| `ServerProperties.RegisterThenLogin` | backend/server.js:147-190 | after registering, an attempt with the password's 72 key bytes logs in as the new record and any other attempt gets "Invalid password" |
| `ServerProperties.ShortPasswordsCompareExactly` | backend/server.js:178 | a password of at most 72 UTF-8 bytes without NUL, compared with an attempt of at most 72 bytes without NUL, accepts exactly itself |
| `ServerProperties.LongPasswordsShareKey` | backend/server.js:178 | once the start of a password fills 72 bytes, an attempt with that start and any ending is accepted |
| `ServerProperties.TruncationAcceptsOtherPassword` | backend/server.js:178 | a password of 72 letters "a" and "1" also accepts 72 letters "a" and "2" |
| `ServerProperties.NulRepetitionMatches` | backend/server.js:178 | the password, a NUL and the password again is a different attempt that is accepted |
| `ServerProperties.NulAttemptExample` | backend/server.js:178 | a password "abc" also accepts "abc", NUL, "abc" |
| `ServerProperties.HandoffCarriesLoginSession` | backend/server.js:181-211 | the federated handoff carries exactly the body a successful local login of the same record returns |
| `ServerProperties.CallbackWithoutEmailIsServerError` | backend/server.js:88-95 | a profile without email makes the callback answer 500 and write nothing |
| `App.Without` | src/App.jsx:101 | every occurrence of the id is removed and every other id is kept |
| `App.Toggle` | src/App.jsx:98-104 | a selected id is removed and the other ids stay; an unselected id is appended at the end with earlier entries unchanged |
| `App.WithoutConcat` | src/App.jsx:101 | removal distributes over concatenation, so the remaining ids keep their order |
| `App.WithoutKeepsDistinct` | src/App.jsx:101 | removal keeps a selection free of duplicates |
| `App.ToggleTwice` | src/App.jsx:98-104 | toggling an absent id twice gives back the original selection |
| `App.ToggleKeepsDistinct` | src/App.jsx:98-104 | one toggle keeps a selection free of duplicates |
| `App.TogglesKeepDistinct` | src/App.jsx:98-104 | any sequence of toggles from a duplicate-free selection never produces a duplicate |
| `App.Route` | src/App.jsx:138-159 | `/OAuth` shows the login page exactly when logged out and otherwise redirects to `/dashboard`; `/dashboard` shows the dashboard exactly when logged in and otherwise redirects to `/OAuth` |
| `App.RedirectSettles` | src/App.jsx:138-159 | a guard's redirect lands on a route that renders a page |
| `App.SaveSession` | src/App.jsx:42-43 | the storage after login wrote the token and the user; no ensures, and `App.RestoreAfterLogin` states what it gives back |
| `App.ClearSession` | src/App.jsx:50-51 | the storage after logout removed both keys; no ensures, and `App.LogoutUndoesLogin` states what it keeps |
| `App.RestoredUser` | src/App.jsx:31-38 | the user the start-up effect restores, only when both keys are stored; no ensures, and `App.RestoreNeedsBothKeys` and `App.RestoreAfterLogin` state its properties |
| `App.RestoreNeedsBothKeys` | src/App.jsx:31-38 | with "token" or "user" missing from storage the app starts logged out |
| `App.RestoreAfterLogin` | src/App.jsx:31-46 | a session saved by login is restored on the next start with the same user |
| `App.LogoutUndoesLogin` | src/App.jsx:41-54 | login followed by logout leaves neither key stored, nothing to restore, and every other key untouched |
| `App.TrimStart` | src/App.jsx:59 | the result is a suffix of the input, only white space was dropped, and it starts with no white space |
| `App.TrimEnd` | src/App.jsx:59 | the result is a prefix of the input, only white space was dropped, and it ends with no white space |
| `App.Trim` | src/App.jsx:59 | `String.prototype.trim`: leading then trailing white space removed; no ensures, and `App.TrimStart`, `App.TrimEnd` and `App.TrimEmptyIffBlank` state its properties |
| `App.TrimEmptyIffBlank` | src/App.jsx:59-60 | the trimmed term is empty exactly when the term is all white space |
| `App.NatToString` | src/App.jsx:87 | a count renders as a non-empty string of decimal digits without a leading zero |
| `App.NatToStringValue` | src/App.jsx:87 | the rendered digits read back as the count |
| `App.LoadingStatus` | src/App.jsx:66 | the status while a search loads, naming the term; no ensures, and `App.AppState.SubmitSearch` sets it |
| `App.ResultStatus` | src/App.jsx:84-88 | the status after a fetch: "No images found" for zero results, otherwise the count through `App.NatToString`; no ensures, and `App.AppState.CompleteSearch` sets it |
| `App.Ok` | src/App.jsx:73 | `response.ok`: an answer with a 2xx status; no ensures, and `App.AppState.CompleteSearch` branches on it |
| `App.FetchErrorMessage` | src/App.jsx:73-79 | the message of the error a failed fetch throws: the API-key text for 401, otherwise the status, or the thrown message; no ensures, and `App.AppState.CompleteSearch` shows it |
| `App.AppState.constructor` | src/App.jsx:19-38 | the initial state; the session is restored exactly when both keys are stored |
| `App.AppState.Login` | src/App.jsx:41-46 | stores the token and user and sets logged-in with that user |
| `App.AppState.Logout` | src/App.jsx:49-54 | removes both stored keys, sets logged-out and clears the user |
| `App.AppState.SetSearchTerm` | src/App.jsx:23 | the search term becomes the typed text |
| `App.AppState.SubmitSearch` | src/App.jsx:57-66 | a blank term changes nothing and starts no fetch; otherwise loading is set, the error cleared, results and selection emptied, and the loading status shown for the trimmed term |
| `App.AppState.CompleteSearch` | src/App.jsx:71-94 | loading ends either way; success sets the results and the "No images found" status for zero results or a status with the count; failure sets the error and the failed status |
| `App.AppState.ToggleSelection` | src/App.jsx:98-104 | the selection becomes its toggle |
| `LoginPage.WarnsAboutOrigin` | src/Authentication/OAuth.jsx:42-44 | the origin check: a sender other than the back end and the window itself; no ensures, and `LoginPage.DispatchIgnoresOrigin` states that it changes nothing |
| `LoginPage.Dispatch` | src/Authentication/OAuth.jsx:47-53 | token and user together call `onLogin` with exactly those values, even beside an error; otherwise a non-empty error is shown verbatim; otherwise nothing |
| `LoginPage.DispatchIgnoresOrigin` | src/Authentication/OAuth.jsx:42-53 | the origin check only warns: a message from any origin is dispatched alike, and the back end's origin and the window's own are never warned about |
| `LoginPage.SuccessHandoffLogsIn` | src/Authentication/OAuth.jsx:47-50 | the success handoff page logs the opener in with its token and user |
| `LoginPage.FailureHandoffShowsError` | src/Authentication/OAuth.jsx:51-53 | the failure page makes the opener show "Authentication failed. Please try again." |
| `LoginPage.LoginFieldsFilled` | src/Authentication/OAuth.jsx:68 | the login form's check that email and password are filled in; no ensures, and `LoginPage.LoginForm.SubmitLogin` applies it |
| `LoginPage.RegisterFieldsFilled` | src/Authentication/OAuth.jsx:93 | the registration form's check that name, email and password are filled in; no ensures, and `LoginPage.FilledFormPassesServerCheck` ties it to the server's check |
| `LoginPage.ReplyOk` | src/Authentication/OAuth.jsx:78 | `res.ok`: an answer with a 2xx status; no ensures, and `LoginPage.LoginReplyAction` and `LoginPage.RegisterReplyNotice` branch on it |
| `LoginPage.ErrorText` | src/Authentication/OAuth.jsx:81 | the server's error when it has one, else the fallback |
| `LoginPage.LoginReplyAction` | src/Authentication/OAuth.jsx:77-86 | an ok reply calls `onLogin` with its token and user; a failed one shows the server error or "Login failed"; an unreachable server shows the server-error text |
| `LoginPage.RegisterReplyNotice` | src/Authentication/OAuth.jsx:102-115 | an ok reply shows the success text; a failed one shows the server error or "Registration failed"; an unreachable server shows the server-error text |
| `LoginPage.Lower` | src/Authentication/OAuth.jsx:120 | lower-cases letter by letter and keeps the length |
| `LoginPage.OAuthUrl` | src/Authentication/OAuth.jsx:119-120 | the popup URL: the back end's address, `/auth/` and the lower-cased provider name; no ensures, and `LoginPage.OAuthUrlGitHub` and `LoginPage.ButtonsOpenStartRoutes` state its values |
| `LoginPage.ButtonLabel` | src/Authentication/OAuth.jsx:236-273 | the provider name each button passes: "Google", "Facebook", "GitHub"; no ensures, and `LoginPage.ButtonsOpenStartRoutes` states where each leads |
| `LoginPage.OAuthUrlGitHub` | src/Authentication/OAuth.jsx:119-120 | "GitHub" opens `http://localhost:5000/auth/github` |
| `LoginPage.ButtonsOpenStartRoutes` | src/Authentication/OAuth.jsx:13 | each provider button opens the back end's start route for that provider |
| `LoginPage.LoginRepliesHandled` | src/Authentication/OAuth.jsx:77-81 | every login reply of the back end is handled as meant: a session logs in, and an error shows the server's own text, never the fallback |
| `LoginPage.FilledFormPassesServerCheck` | src/Authentication/OAuth.jsx:93-110 | input the form accepts never meets the server's missing-field rejection; the reply shows success on 201 and "Email already exists" otherwise |
| `LoginPage.LoginForm.constructor` | src/Authentication/OAuth.jsx:32-36 | empty fields, the login tab, no message |
| `LoginPage.LoginForm.Edit` | src/Authentication/OAuth.jsx:157 | the fields become the typed text |
| `LoginPage.LoginForm.OnAuthMessage` | src/Authentication/OAuth.jsx:40-54 | performs `Dispatch`: the `onLogin` call, an error message, or nothing |
| `LoginPage.LoginForm.SubmitLogin` | src/Authentication/OAuth.jsx:65-70 | clears the message; with an empty email or password sets "Please enter all fields" and sends nothing |
| `LoginPage.LoginForm.ReceiveLogin` | src/Authentication/OAuth.jsx:71-86 | an ok reply calls `onLogin`; anything else sets the error message of `LoginReplyAction` |
| `LoginPage.LoginForm.SubmitRegister` | src/Authentication/OAuth.jsx:90-95 | clears the message; with any of name, email or password empty sets "Please enter all fields" and sends nothing |
| `LoginPage.LoginForm.ReceiveRegister` | src/Authentication/OAuth.jsx:96-115 | shows the reply's notice and switches to the login tab on success only |
| `LoginPage.LoginForm.SubmitForm` | src/Authentication/OAuth.jsx:139-142 | the register tab submits a registration and the login tab a login, each with its own field check |
| `LoginPage.LoginForm.ToggleTab` | src/Authentication/OAuth.jsx:215-218 | flips between the login and register tabs and clears the message |

## Left out

- bcrypt is idealised. A hash records the 72 key bytes it was computed from, and `Matches` compares those. Salting and cost are kept as data. One-wayness, timing and digest collisions between different key bytes are not modelled.
- Passwords are strings of Unicode scalar values. A JavaScript string can also hold a lone surrogate; how bcryptjs encodes one is not modelled.
- Token signing and encoding are not modelled. A token is its claims (`id`, `iat`, `exp`). The front end carries these claims where the browser carries the signed string.
- The MongoDB connection and queries are replaced by an in-memory sequence of records in insertion order (backend/server.js:34-37). A lookup returns the first match. Database failures and the 500 replies they cause (backend/server.js:161-163, 187-189) are not modelled.
- Express setup, CORS, sessions, strategy registration, the provider consent redirects and `serializeUser`/`deserializeUser` are framework plumbing (backend/server.js:17-31, 83-144). `Server.StartPath` keeps only the start route names.
- Concurrent requests are not modelled. Each request runs atomically, so the race between two first logins with the same new email does not arise.
- The handoff page's HTML and script text is not modelled; the page is the payload it posts and its target origin. `Server.SuccessHandoff`: the payload carries the name and email exactly as stored, which is what correct escaping would give. The page at backend/server.js:202-205 pastes them into a script unescaped. A `"` in a name or email ends the string literal early. When the text after it is not valid script, the script breaks, nothing is posted and the opener is never logged in. When it is valid script, the page posts a different user (the name `A", nick: "B` posts the name "A") or runs that text as script before posting (the name `A" + alert(1) + "`). Local registration accepts any name with an unverified email, and linking keeps that name (backend/server.js:67), so the name is the user's choice. A line break inside the literal breaks the script. `</script>` ends the script element, so the script breaks and any markup after it runs. A `\` changes the text that arrives or, when it ends the value or starts a malformed escape such as `\x` or `\u` without hex digits, stops the script. `LoginPage.SuccessHandoffLogsIn` therefore holds only for names and emails without such characters.
- Login takes its email and password as strings, and registration (`Server.RegisterOutcome`) takes name, email and password as optional strings. The server parses any JSON value (`express.json()`), and the model does not cover request fields of other JSON types. A body that lacks a login field would pass `undefined` to the database and to bcrypt. An object such as `{"$ne": null}` as the email reaches `User.findOne({ email })` (backend/server.js:153, 170) as a query operator. On login it finds the first record without knowing its email. On registration it answers "Email already exists" whenever any record exists. Neither case is modelled.
- A provider profile always has an id.
- The image fetch and its URL, `fetch` calls, `window.open`, `postMessage` and listener registration are I/O. Their outcomes are inputs: a status with photos, or a thrown error, for the search; an answer with status and body, or an unreachable server, for the forms.
- JSON parsing of a fetch body is not modelled. A body that is not JSON would be caught and shown as the generic error.
- Browser storage is a map from keys to stored items, and the JSON round trip of the stored user is the identity. `App.AppState.constructor`: a "user" entry that the page did not write itself is treated as absent. For an empty entry the page agrees, since an empty string is falsy (src/App.jsx:34). For any other entry, with a stored token, the page would set logged-in anyway. With text that is not JSON, the parse then throws. With JSON that is not a user object, such as `{}` or `null`, the page stays logged in with that value as the user.
- `LoginPage.Lower` lower-cases ASCII letters only; `toLowerCase` covers all of Unicode. The provider names it is applied to are ASCII.
- The console warning for an unknown message origin has no effect on state and is not modelled beyond `LoginPage.WarnsAboutOrigin`, which `LoginPage.DispatchIgnoresOrigin` states about.
- Rendering components (dashboard, header, image results) and all markup and styling are not part of this model.
