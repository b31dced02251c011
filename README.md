# field-survey: signup, login and KYC gating

This project models the account and KYC workflow of the field-survey web
application. A user signs up as an admin, a manager or a surveyor, then logs
in. A surveyor must submit one KYC (Aadhar name and number, phone, address)
before using the surveyor area. The model has three layers.

- **Server handlers.** `POST /api/signup`, `POST /api/login`,
  `POST /api/kyc`, `GET /api/kyc` and `GET /api/auth/check-kyc`.
  - The store is a class `Server.Store` with two maps: users by id, and KYC
    rows by the owning user's id. So a user has at most one KYC row.
  - The two handlers that insert a row are module-level methods that take
    the store (`db: Store`) and may modify it. The read-only handlers are
    functions over a snapshot of its maps.
  - Each contract states, in the handler's check order, which status and body
    every input produces. It also states which cases leave the store
    unchanged, and the exact row added on success.
  - The store invariant: ids are keys, emails are unique, and every KYC row
    belongs to an existing SURVEYOR. Both inserting handlers preserve it.
- **Validation.** The zod schemas are interpreted by module `Zod`.
  - zod collects every failing check, key by key in schema order. A handler
    reports the first one.
  - For each schema, a lemma states exactly which bodies it accepts.
  - The digit filters on the KYC form's inputs, and `trim`, are modelled as
    string functions.
- **Client components.** The three forms, the KYC page gate and the
  surveyor-area gate are classes over their React state. The browser (the
  `sessionStorage` user id, navigations and alerts) is a class `Browser`
  they update.
  - Each `handleSubmit` is split at its awaited `fetch`. `BeginSubmit` runs
    the checks and yields the request; `FinishSubmit` takes what the fetch
    produced.
  - That result is a `Reply`: either the request threw, or `res.ok` with the
    JSON fields the component reads.

Parameters stand for what the handlers do not decide themselves:
- `Env` holds the zod email and UUID checks, bcrypt's hash and compare, and
  whether `NODE_ENV` is `development`. `HashSound` states bcrypt's guarantee
  that a password matches its own hash, which is never empty.
- `Faults` says whether the database lookup throws (and with what message),
  whether `$connect` fails, and whether the insert throws.
- Generated ids and `createdAt` timestamps are passed in.

The journeys in `Workflow` tie the layers together:
- A surveyor signs up, and the first login sends them to `/kyc`. They submit
  the KYC, and the next login sends them to `/surveyor`.
- A repeated signup or KYC submission is refused.
- Signing up and then logging in with the same credentials always succeeds.
- The KYC form removes the session id on success. So the surveyor area it
  navigates to bounces the user to `/login` and keeps showing "Verifying
  access...".

Where the system's written description and its code differ, the model
follows the code:
- The description calls the signup role case-insensitive. The code's
  `z.enum` accepts only the lower-case ids, so "Surveyor" is refused with the
  role message (`SignupRoute.RoleRejected`).
- The description assumes emails are compared case-insensitively. The code
  looks users up by the exact email string, and so does the model.
- The duplicate-KYC pre-check answers "KYC has already been submitted. You
  cannot submit it again.". A unique-violation error caught later answers
  "KYC has already been submitted for this user". Both are 400, and the model
  keeps the two texts apart.

## Model

| member | source | states |
|---|---|---|
| Text.DigitsOnly | components/auth/kyc-form.tsx:120 | `replace(/\D/g, "")` yields only digits, no longer than the input, in the input's order (a subsequence) |
| Text.DigitsOnlyKeepsDigits | components/auth/kyc-form.tsx:120 | every digit of the input is kept as often as it occurs, and every non-digit is dropped |
| Text.DigitsOnlyFixesDigits | components/auth/kyc-form.tsx:134 | removing non-digits from a string of digits changes nothing |
| Text.Prefix | components/auth/kyc-form.tsx:120 | `slice(0, n)` is a prefix of the input, of length n or the input's length if shorter |
| Text.TrimStart | components/auth/kyc-form.tsx:36 | drops exactly the leading ECMAScript whitespace: what it drops is whitespace, and what it keeps does not start with whitespace |
| Text.TrimEnd | components/auth/kyc-form.tsx:36 | drops exactly the trailing whitespace, the mirror image of `TrimStart` |
| Text.Trim | components/auth/kyc-form.tsx:36-69 | `s.trim()` is a slice of s, everything it removes at either end is whitespace, and the result neither starts nor ends with whitespace |
| Text.TrimEmptyIffBlank | components/auth/kyc-form.tsx:36-54 | `!s.trim()` holds exactly when every character of s is whitespace |
| Text.TrimFixesDigits | components/auth/kyc-form.tsx:66-68 | trimming a string of digits changes nothing |
| Text.ToUpper | app/api/signup/route.ts:72 | `toUpperCase` keeps the length and upper-cases each ASCII letter in place |
| Text.Contains | app/api/kyc/route.ts:121-129 | `s.includes(part)` needs `part` to be no longer than s, and holds whenever s starts with `part` |
| Text.ContainsInfix | app/api/kyc/route.ts:121-129 | `includes` finds `part` wherever it occurs: at the start, in the middle or at the end |
| Zod.CheckIssues | app/api/kyc/route.ts:8-9 | a chain of string checks reports nothing exactly when every check holds, and otherwise reports the first failing check's message first |
| Zod.RuleIssues | app/api/signup/route.ts:6-13 | a key reports nothing exactly when it is present and passes its rule (a string check chain, or membership of the enum). A present string key reports exactly its check chain's messages, a missing one exactly "Required", and a rejected enum key exactly its own message |
| Zod.Issues | app/api/kyc/route.ts:25-26 | `safeParse` fails exactly when some key is rejected, and the first error comes from the first rejected key |
| Zod.FirstIssueOfRejectedKey | app/api/signup/route.ts:33-37 | if key k is the first rejected key, the first error is the first message of key k |
| Zod.FirstMessage | app/api/kyc/route.ts:29 | `errors[0]?.message \|\| "Invalid input"` is the first error's message when that is not empty, "Invalid input" when it is, and never empty |
| Server.IsUniqueViolation | app/api/kyc/route.ts:121-129 | the catch blocks' test looks for "Unique constraint", "Unique violation" or "P2002" in the message; a message shorter than five characters never matches |
| Server.UniqueViolationMarkers | app/api/kyc/route.ts:121-129 | a message that contains any of the three markers anywhere is taken for a uniqueness violation |
| Server.CatchError | app/api/kyc/route.ts:118-143 | the catch block answers 400 with the conflict message exactly when the error's message mentions a unique violation or P2002. Otherwise it answers 500 with the error's message in development and the generic message elsewhere. The signup handler's block at app/api/signup/route.ts:119-144 is the same |
| SignupRoute.SignupSchemaAccepts | app/api/signup/route.ts:6-13 | the signup schema accepts a body exactly when the name has 1 to 255 characters, the email is well formed, the password has at least 6 characters, and the role is admin, manager or surveyor |
| SignupRoute.RoleRejected | app/api/signup/route.ts:10-12 | a body that is valid except for a missing or differently cased role gets the role message as its first error |
| SignupRoute.RoleOfName | app/api/signup/route.ts:74-81 | maps ADMIN, MANAGER and SURVEYOR to the enum and every other string to the defensive check's refusal |
| SignupRoute.StoredRole | app/api/signup/route.ts:72 | the stored role of a validated input is the enum value named by its upper-cased form |
| SignupRoute.RoleUppercasing | app/api/signup/route.ts:74-81 | upper-casing any role the schema accepts names an enum value, so the defensive role check never refuses |
| SignupRoute.NewUser | app/api/signup/route.ts:86-92 | the inserted row keeps the name and email, stores the hash of the password rather than the password, and has the upper-cased role |
| SignupRoute.Post | app/api/signup/route.ts:21-109 | checks run in order: validation (400, first message), connection (500), lookup error, email taken (400), insert error. It answers 201 exactly when all pass and the insert succeeds; then exactly the new user is added and the answer carries its public fields without the password. Every other answer leaves the users unchanged. KYC rows never change, and the store invariant is kept |
| LoginRoute.LoginSchemaAccepts | app/api/login/route.ts:6-9 | the login schema accepts a body exactly when the email is well formed and the password is not empty |
| LoginRoute.KycFlag | app/api/login/route.ts:75 | `hasKYC` is present exactly for a SURVEYOR, and true exactly when that SURVEYOR has a KYC row; it is null for every other role |
| LoginRoute.LoginErrorMessage | app/api/login/route.ts:95-99 | `error.message \|\| "Failed to login"` is the error's message when that is not empty and "Failed to login" when it is, so never empty |
| LoginRoute.Post | app/api/login/route.ts:11-91 | answers only 200, 400, 401 or 500. 400 exactly for an invalid body, 500 exactly for a valid body whose lookup throws. It answers 200 exactly when some user with that email has a non-empty stored hash that the password matches, and then returns that user's public fields, role and KYC flag. Unknown email, missing hash and wrong password all give one 401 body |
| CheckKycRoute.Get | app/api/auth/check-kyc/route.ts:4-63 | a missing or empty id gives 400, a lookup error 500, an unknown id 404. Otherwise it gives 200 with the stored role and a `hasKYC` that is null unless the user is a SURVEYOR, and then true exactly when a KYC row exists |
| CheckKycRoute.AgreesWithLogin | app/api/auth/check-kyc/route.ts:38-55 | for the store a successful login read, the status check of the logged-in user answers 200 with the same role and `hasKYC` as the login |
| KycRoute.KycSchemaAccepts | app/api/kyc/route.ts:5-11 | the KYC schema accepts a body exactly when the user id is a UUID, the name has 1 to 255 characters, the Aadhar number is 12 digits, the phone number 10 to 15 digits, and the address 1 to 500 characters |
| KycRoute.Public | app/api/kyc/route.ts:92-98 | the returned KYC record carries id, user id, name, phone and creation time, and neither the Aadhar number nor the address |
| KycRoute.NewKyc | app/api/kyc/route.ts:84-91 | the inserted row holds exactly the validated fields, under the generated id and time |
| KycRoute.Post | app/api/kyc/route.ts:13-108 | checks run in order: validation (400), lookup error, unknown user (404), not a SURVEYOR (403), KYC present (400), connection (500), insert error. It answers 201 exactly when all pass and the insert succeeds; then exactly one row is added under the user's id, and the answer omits the Aadhar number and address. Every other answer leaves the KYC rows unchanged. Users never change, and the store invariant (one KYC row per SURVEYOR at most) is kept |
| KycRoute.Get | app/api/kyc/route.ts:154-190 | a missing or empty id gives 400 and a lookup error 500. Otherwise it gives 200, with `exists` true exactly when a row exists and `kyc` null exactly when none does, else the row's public fields |
| LoginForm.Destination | components/auth/login-form.tsx:38-51 | ADMIN goes to /admin, MANAGER to /manager, a SURVEYOR with `hasKYC === false` to /kyc, and everything else, including other SURVEYORs and unknown roles, to /surveyor |
| LoginForm.LoginForm.constructor | components/auth/login-form.tsx:9-11 | empty fields, not loading |
| LoginForm.LoginForm.BeginSubmit | components/auth/login-form.tsx:13-27 | sets loading and sends exactly the email and password |
| LoginForm.LoginForm.FinishSubmit | components/auth/login-form.tsx:29-57 | a non-ok answer alerts the error and neither writes the session nor navigates. An ok answer stores the user id and navigates once, to `Destination`. A thrown request, or an ok answer without a user, alerts "Something went wrong". Loading ends in every case |
| SignupForm.SignupRequest | components/auth/signup-form.tsx:39-44 | the request has exactly the keys name, email, password and role, with the full name under `name`, and never the confirmation |
| SignupForm.RequestMeetsSchema | components/auth/signup-form.tsx:39-44 | a request built with a role the selector offers passes the server schema exactly when the name, email and password rules hold |
| SignupForm.SignupForm.constructor | components/auth/signup-form.tsx:10-15 | empty fields, no role, not loading |
| SignupForm.SignupForm.ChooseRole | components/auth/signup-form.tsx:118 | the selector sets one of its three ids |
| SignupForm.SignupForm.BeginSubmit | components/auth/signup-form.tsx:17-45 | with no role it alerts "Please select a role"; otherwise, with differing passwords, it alerts "Passwords do not match". In both cases it sends nothing and does not start loading. Otherwise it starts loading and sends the request, whose role is always one of the three ids the selector offers |
| SignupForm.SignupForm.FinishSubmit | components/auth/signup-form.tsx:47-59 | a non-ok answer alerts the server error. An ok answer alerts success and navigates to /login. A thrown request alerts "Something went wrong". Loading ends in every case |
| KycForm.DigitFilter | components/auth/kyc-form.tsx:118-136 | the filtered input has only digits and is a prefix of the input's digits: all of them when there are at most `limit`, and exactly `limit` of them otherwise |
| KycForm.DigitFilterIdempotent | components/auth/kyc-form.tsx:118-136 | filtering an already filtered value returns it unchanged |
| KycForm.PreSubmitError | components/auth/kyc-form.tsx:31-54 | no error exactly when every check passes: a session id, a non-blank name, a 12-character Aadhar number, a phone number of at least 10 characters, a non-blank address |
| KycForm.PreSubmitErrorMessages | components/auth/kyc-form.tsx:31-54 | each of the five messages is shown exactly when its check is the first to fail: the session message exactly without a session id, the name message exactly for a blank name, and each later message exactly when every earlier check passes and its own fails |
| KycForm.KycRequest | components/auth/kyc-form.tsx:64-70 | the request has exactly the five KYC keys with the given values |
| KycForm.TrimmedRequest | components/auth/kyc-form.tsx:64-70 | the request sends the session id and each field trimmed |
| KycForm.FilteredRequestMeetsServerRules | components/auth/kyc-form.tsx:41-49 | for numbers as the digit filters leave them (digits only, at most 12 and 15 of them) that pass the pre-submit checks, the request's Aadhar number is 12 digits, its phone 10 to 15 digits, and its name and address are non-empty. The server schema then accepts it once the id is a UUID and the name and address are within their length limits |
| KycForm.KycForm.constructor | components/auth/kyc-form.tsx:9-25 | the mount effect takes a truthy session id, and otherwise shows "User session not found. Please login again." |
| KycForm.KycForm.ChangeAadharName | components/auth/kyc-form.tsx:108 | the name input stores what was typed |
| KycForm.KycForm.ChangeAadharNumber | components/auth/kyc-form.tsx:118-122 | the Aadhar input stores the typed text filtered to at most 12 digits |
| KycForm.KycForm.ChangePhoneNumber | components/auth/kyc-form.tsx:132-136 | the phone input stores the typed text filtered to at most 15 digits |
| KycForm.KycForm.ChangeAddress | components/auth/kyc-form.tsx:161 | the address input stores what was typed |
| KycForm.KycForm.BeginSubmit | components/auth/kyc-form.tsx:27-71 | the error becomes the first failing check's message, and nothing is sent then. Otherwise the form starts loading and sends the trimmed request, whose Aadhar number is 12 digits and phone number 10 to 15 digits, as the server requires |
| KycForm.KycForm.FinishSubmit | components/auth/kyc-form.tsx:73-88 | an ok answer removes the session id, alerts success and navigates to /surveyor. A non-ok answer shows the server's error or "Failed to submit KYC" and keeps the session. A thrown request shows "Something went wrong. Please try again.". Loading ends in every case |
| KycPage.KycPage.constructor | app/kyc/page.tsx:10-11 | checking, and not allowed to submit |
| KycPage.KycPage.Render | app/kyc/page.tsx:51-76 | the loading view exactly while checking, and the form exactly when checking is over and submitting is allowed; nothing otherwise |
| KycPage.KycPage.CheckKycStatus | app/kyc/page.tsx:13-49 | with no session id it pushes /login and stays checking. Otherwise checking ends. An ok answer for a SURVEYOR with KYC pushes /surveyor, for any other role pushes /login, and for a SURVEYOR without KYC allows the form. A failed check changes nothing else |
| KycPage.MountedView | app/kyc/page.tsx:13-76 | a freshly mounted page shows the form exactly when a session id exists and the check answered ok for a SURVEYOR whose `hasKYC` is not true. It stays on the loading view exactly when there is no session id, and navigates at most once |
| SurveyorLayout.SurveyorLayout.constructor | app/surveyor/layout.tsx:12 | checking |
| SurveyorLayout.SurveyorLayout.Render | app/surveyor/layout.tsx:47-58 | the verifying view exactly while checking, the children otherwise |
| SurveyorLayout.SurveyorLayout.CheckKyc | app/surveyor/layout.tsx:14-45 | with no session id it pushes /login and stays checking. Otherwise checking ends, and it pushes /kyc exactly when the answer is ok for a SURVEYOR whose `hasKYC` is falsy. Every other answer, and a failed request, renders the children |
| Workflow.SignupThenLogin | app/api/login/route.ts:28-70 | after a successful signup, logging in with the same email and password answers 200 for the new user, whatever KYC rows exist |
| Workflow.SurveyorJourney | components/auth/login-form.tsx:42-48 | a new surveyor's signup answers 201 and the first login leads to /kyc; the KYC submission answers 201 and the next login leads to /surveyor |
| Workflow.SignupTwice | app/api/signup/route.ts:56-66 | after a successful signup, the same body again is refused with "User with this email already exists", and only one user was added |
| Workflow.SubmitKycTwice | app/api/kyc/route.ts:64-70 | after a successful submission, the same body again is refused as already submitted, and exactly the first row was added |
| Workflow.GatesAgree | app/kyc/page.tsx:13-49 | fed the status check's answer for a logged-in user, the surveyor layout (app/surveyor/layout.tsx:14-45) and the KYC page agree: a SURVEYOR without KYC is sent from the layout to /kyc and gets the form there; a SURVEYOR with KYC stays in the layout and is sent from the KYC page to /surveyor; any other role stays in the layout and is sent from the KYC page to /login |
| Workflow.ResubmissionShown | components/auth/kyc-form.tsx:75-76 | when a first KYC submission succeeded, submitting the form again shows the server's "already submitted" message and ends loading |
| Workflow.ReturnAfterKyc | app/surveyor/layout.tsx:16-21 | after a successful KYC submission the surveyor area finds no session id, sends the user on to /login and keeps its verifying view |

## Left out

- Request parsing: a body is modelled as the string-valued keys of a JSON
  object. Malformed JSON, non-object bodies and non-string values are not
  modelled. The first reaches the catch block; the last would get zod's
  "Expected string" messages.
- Lengths count Dafny characters (Unicode scalar values). JavaScript and zod
  count UTF-16 code units, so a character outside the Basic Multilingual
  Plane counts once here and twice there.
- bcrypt: the hash and compare functions are parameters, and only
  `HashSound` is assumed of them. Salting and the cost factor are not
  modelled.
- The zod email and UUID regular expressions are parameters (`Formats`).
- Prisma: the database is two maps. Generated ids and timestamps are
  parameters. Prisma's own enforcement of unique emails and unique KYC user
  ids appears only as the insert-error message the handlers map to 400.
- Concurrency: the model is sequential. Two concurrent requests that both
  pass the duplicate pre-check are not modelled, only the mapping of the
  resulting unique-violation error.
- Thrown values that are not `Error` instances: the handlers' fallback
  answers ("An unexpected error occurred during ...") are not modelled.
  Every modelled fault is an `Error` with a message.
- `console` logging, the React rendering markup, the error banner's
  animation and `framer-motion` are not modelled. `fetch` and `res.json()`
  are replaced by the `Reply` parameter, and `alert` and navigation by the
  `Browser` fields.
- The login and signup forms' text inputs assign their state directly. Those
  setters are plain field assignments and are not separate methods.
- React state updates are applied at once. Re-running an effect when its
  router dependency changes is not modelled: each gate effect runs once, at
  mount.
- An ok login answer holding a user without an `id` would store the text
  "undefined" in the session. `FromLogin` always carries the id the handler
  returns, so this case is not represented.
- Text.ToUpper: upper-cases ASCII letters only, because it is applied only
  to the three validated lower-case role ids.
- Zod.FirstMessage: its "Invalid input" fallback is unreachable in these
  schemas, because every message is non-empty. The model keeps the fallback
  anyway.
- SignupRoute.Post: the defensive role check at app/api/signup/route.ts:74-81
  has no branch of its own, because `RoleUppercasing` proves it never fails.
- The presentational components and the composition-only pages hold no
  decisions and are not part of this model. The middleware always passes
  the request through, so it has no decision to model either.
