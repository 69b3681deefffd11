# Fleet-management demo: user-record store and session model

This project models the logic of a browser-based fleet-management demo. That logic is a
small table of user records kept in the browser's local storage under the key
`"fleetUser"`, and the pages that use it:

- **Record store** — `lib/utils.ts`. Records are `{email, businessName, password,
  isLoggedIn}`, looked up by exact email. A record is created only for an email not
  yet present. An update sets the session flag of one record and rewrites the whole
  collection.
- **Dashboard layout** — `app/dashboard/layout.tsx`. The current user is the first
  record whose `isLoggedIn` is set. Mounting the layout either shows that user or goes
  to `/login`. Logging out clears the flag.
- **Login and registration form controllers** — `app/login/page.tsx` and
  `app/register/page.tsx`. Each validates its form with a schema and turns the
  validation issues into per-field errors. Login then looks the email up, compares
  the password and marks the session. Registration hashes the password and creates
  the record (unless one exists), then reports success and goes to the dashboard.

The Dafny modules follow the files:

- `Utils` models `lib/utils.ts`.
- `DashboardLayout` models `app/dashboard/layout.tsx`.
- `Login` models `app/login/page.tsx`.
- `Register` models `app/register/page.tsx`.
- `Forms` holds what the two form pages share: schema issues, their conversion into
  field errors, and the status banner.
- `Scenarios` holds properties and runs that span several pages against one storage.

Local storage is a `LocalStorage` object whose `items` map keys to record collections.
JSON encoding is taken as the identity. Each read returns a fresh array, as
`JSON.parse` does, so the in-place writes of the update and of logout never touch
storage until the collection is written back.

Each page is a class holding its React state: `formData`, `errors`, `status`,
`isLoading`, `userData`, `isMounted`. Each router call appends its destination to a
`pushed` sequence.

`Login.AfterLogin` (the collection a granted login leaves, app/login/page.tsx:84-86) and
`Register.IsRegistration` (the collection a registration of a new email leaves,
lib/utils.ts:44-52) are helpers with no contract of their own; they are stated through
the rows of `Login.LoginPage.HandleSubmit`, `Login.LoginKeepsOtherSessions`,
`Register.RegisterPage.HandleSubmit` and `Scenarios.RegisterThenLogin`, which use them.

The submit handlers are proved against pure decision functions (`LoginDecision`,
`RegisterErrors`, `IsRegistration`, `MountGate`), and the cross-page lemmas are stated
about those functions.

The model keeps the code's behaviour as written:

- `updateUserInStorage` ignores its flag argument and always sets `isLoggedIn` to true.
- Registration reports success and redirects even when the email already existed and
  nothing was stored.
- Logging in with an unknown email dereferences `users[-1]`. Reading its password throws
  a `TypeError`, and the page shows the "unexpected error" banner, not the
  invalid-credentials one.
- Mounting the dashboard with records present but none logged in reads `storedUsers[-1]`
  and throws on `.isLoggedIn`, so the inner redirect to `/login` is unreachable.
  Logging out with nobody logged in throws on `users[-1].isLoggedIn = false` and
  writes nothing.
- zod's `refine` runs even after field checks fail, because string checks do not abort
  parsing. A password mismatch is therefore reported on `confirmPassword`, and since it
  comes last it overwrites that field's own length message.

Two parts of the code are not defined by the model itself; they come in as parameters:

- bcrypt is a key-derivation function `kdf(salt, password)`. A digest is a 29-character
  salt followed by `kdf(salt, password)`; comparing recomputes the tail from the
  digest's salt. The salt is chosen nondeterministically.
- zod's email format check is a predicate `isEmail`.

## Model

| member | source | states |
|---|---|---|
| Utils.LocalStorage.constructor | lib/utils.ts:27-42 | the storage starts with the given key-to-collection contents |
| Utils.GetUsersFromStorage | lib/utils.ts:27-34 | returns a fresh array holding the collection stored under the key, and the empty array when the key is absent |
| Utils.WriteStorage | lib/utils.ts:36-42 | the key now holds exactly the written collection, so a read right after gives it back; every other key keeps its value |
| Utils.FindIndex | lib/utils.ts:23 | the `findIndex` scan: -1 exactly when no element satisfies the predicate, otherwise the first index that satisfies it |
| Utils.FindUserByEmail | lib/utils.ts:21-25 | -1 exactly when no record's email equals the given one (exact, case-sensitive); otherwise the index of the first record with that email |
| Utils.SetLoggedIn | lib/utils.ts:58 | the spread-and-override of one record: same length, that record's flag set as given, its other fields and every other record unchanged |
| Utils.CreateUserInStorage | lib/utils.ts:44-54 | with id -1 the store holds the old collection plus one logged-in record with exactly the given email, business name and password; any other id leaves the store unchanged; the caller's array is never modified |
| Utils.UpdateUserInStorage | lib/utils.ts:56-61 | with id >= 0, record id gets `isLoggedIn` true whatever the flag argument, nothing else in the array changes, and the store then holds the updated array; with id < 0 neither the array nor the store changes |
| Utils.ComparePassword | lib/utils.ts:17-19 | a password matches a digest exactly when the digest is some 29-character salt followed by the tag that salt gives for that password |
| Utils.EncryptPassword | lib/utils.ts:9-19 | the digest produced always compares equal to the password it was made from |
| Forms.FieldErrors | app/login/page.tsx:110-115 | the forEach over the issues: no issues give no errors, and the last issue's field always ends with the last issue's message |
| Forms.FieldErrorsDomain | app/login/page.tsx:110-115 | a field has an error exactly when some issue's path is that field |
| Forms.FieldErrorsKeepsLast | app/login/page.tsx:110-115 | a field that several issues share shows the message of the last of them |
| Forms.FieldErrorsThenCheck | app/register/page.tsx:95-100 | appending one check's issues writes its message over the field's earlier entry when the check fails, and leaves the errors unchanged when it passes |
| Login.LoginIssues | app/login/page.tsx:18-21 | the login schema reports no issue exactly when the email passes the email check and the password has at least 6 characters |
| Login.LoginErrors | app/login/page.tsx:108-116 | the email field has an error exactly when the email check fails, and the password field exactly when the password is shorter than 6; each carries its schema message |
| Login.LoginDecision | app/login/page.tsx:45-121 | the outcome of a submit. It is rejected exactly when the schema fails, with the converted field errors. It is unexpected exactly when the input is valid and no record has the email. It is granted exactly when the first record with the email matches the password, and then names that record. Otherwise it is wrong credentials. Success turns on the password alone. |
| Login.LoginPage.constructor | app/login/page.tsx:27-33 | empty form, no errors, cleared banner, not loading, no navigation |
| Login.LoginPage.HandleChange | app/login/page.tsx:35-43 | only the named field takes the value; only that field's error is cleared, and only when one is shown; banner, loading flag and navigation unchanged |
| Login.LoginPage.HandleSubmit | app/login/page.tsx:45-126 | follows `LoginDecision`. A rejected form sets the errors and leaves the banner cleared. Granted gives the success banner, sets only that record's flag in storage and moves to `/dashboard`. Wrong credentials gives the invalid-credentials banner, and an unknown email the unexpected-error banner; neither writes. Loading ends false. |
| Login.LoginKeepsOtherSessions | app/login/page.tsx:84-86 | a granted login marks the found record and leaves every other record, and so every other session, as it was |
| Register.RegisterIssues | app/register/page.tsx:19-30 | the registration schema reports no issue exactly when the email passes, the business name has at least 2 characters, the phone number at least 10, both passwords at least 6, and the two passwords are equal |
| Register.RegisterChecksFold | app/register/page.tsx:95-100 | the issues of the six checks, in schema order and whatever their outcomes, convert to the six checks recorded one after the other |
| Register.RecordChecks | app/register/page.tsx:19-30 | recording the six checks marks each field exactly when its own check fails, with its message; confirmPassword is marked when its length check or the refinement fails, and carries the refinement's message whenever the refinement failed |
| Register.RegisterErrors | app/register/page.tsx:93-101 | each field has an error exactly when its check fails; confirmPassword also has one when the passwords differ, and then shows "Passwords do not match" instead of its length message |
| Register.RegisterPage.constructor | app/register/page.tsx:36-48 | empty form, no errors, cleared banner, not loading, no navigation |
| Register.RegisterPage.HandleChange | app/register/page.tsx:50-58 | only the named field takes the value; only that field's error is cleared, and only when one is shown; banner, loading flag and navigation unchanged |
| Register.RegisterPage.HandleSubmit | app/register/page.tsx:61-111 | a rejected form sets the errors, leaves the banner cleared and writes nothing. An accepted form always gives the success banner and moves to `/dashboard`. With a new email it appends exactly one logged-in record holding the email, the business name and a digest that compares equal to the password. With an existing email storage is unchanged. Loading ends false. |
| DashboardLayout.GetAuthUser | app/dashboard/layout.tsx:52-55 | -1 exactly when no record is logged in, otherwise the first logged-in record; the flag argument is ignored |
| DashboardLayout.MountGate | app/dashboard/layout.tsx:57-76 | redirect to login exactly when the collection is empty; show the dashboard exactly when some record is logged in, with the first such record; fault exactly when records exist but none is logged in |
| DashboardLayout.Layout.constructor | app/dashboard/layout.tsx:47-49 | no user shown, not mounted, no navigation |
| DashboardLayout.Layout.Mount | app/dashboard/layout.tsx:57-76 | marks the layout mounted and follows `MountGate`. It either shows the first logged-in user, or goes to `/login` leaving `userData` as it was, or fails with a type error. It never writes storage. |
| DashboardLayout.Layout.HandleLogout | app/dashboard/layout.tsx:78-86 | with a logged-in record it clears the first one's flag, stores the whole collection otherwise unchanged and moves to `/login`; with none it fails with a type error and changes nothing |
| DashboardLayout.LogoutEndsOnlySession | app/dashboard/layout.tsx:80-83 | when exactly one record is logged in, after logout no current user is found |
| DashboardLayout.LogoutLeavesLaterSession | app/dashboard/layout.tsx:80-83 | when a later record is also logged in, logout clears only the first and the next logged-in record becomes the current user |
| Scenarios.RegisterThenLogin | app/login/page.tsx:65-77 | after registering a new email with password p, logging in with that email and p is granted, for the record the registration appended |
| Scenarios.LoginThenCurrentUser | app/dashboard/layout.tsx:52-55 | after a granted login the current user is at or before the record just marked, and is that record exactly when no earlier record was already logged in |
| Scenarios.RegisterAcme | app/register/page.tsx:61-91 | registering a@x.com on an empty storage leaves exactly that one record in it |
| Scenarios.RegisterLoginLogout | app/dashboard/layout.tsx:57-86 | register, log in, mount, log out, mount again: the dashboard shows the new user; afterwards the one record is logged out and still compares with its password, and the second mount faults |
| Scenarios.DuplicateRegistration | app/register/page.tsx:76-91 | registering the same email twice reports success and navigates both times, but the record keeps its first password |
| Scenarios.UnknownEmailLogin | app/login/page.tsx:65-71 | logging in with an email nobody registered ends in the unexpected-error banner and writes nothing |

## Left out

- bcrypt's salt generation, cost factor and hash function are not modelled; digests come from the `kdf` parameter. The model proves that a digest compares equal to its password. It does not prove that a digest differs from the plaintext, which holds for bcrypt but not for an arbitrary `kdf`.
- bcrypt's `compare` on a malformed digest is modelled as `false` for digests shorter than the salt; other malformed digests go through the same recomputation.
- zod's email regular expression is not modelled; it is the `isEmail` parameter. String lengths are counted in Dafny characters, not UTF-16 code units.
- `JSON.parse`/`JSON.stringify` are taken as the identity. A malformed stored blob makes `JSON.parse` throw in the code; that case is not modelled. Only an absent or empty entry reads as no records.
- Utils.UpdateUserInStorage: requires `id < users.Length`. With a larger id the code would create a sparse array; no caller does that, since the id always comes from a lookup in the same array.
- A failure of the hash computation itself (the generic catch branch of registration) is not modelled: `EncryptPassword` always succeeds.
- `setTimeout` delays, `async`/`await` and `console.log` are left out. A navigation is modelled as its destination appended to `pushed`, which happens at once.
- Clearing an error in `handleChange` sets the field to `undefined`. The model removes the key instead; both show no error.
- Two tabs racing on the read-modify-write of the collection are not modelled: concurrency.
- `cn` (class-name merging) is not modelled; the dashboard's rendering of `userData` is markup.
- The pages under `app/dashboard/` other than the layout, and the landing page, are not modelled: they are presentation and static fixtures. The copy of `getAuthUser` in `app/dashboard/page.tsx` is not modelled; `DashboardLayout.GetAuthUser` does the same scan.
