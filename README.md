# Noted web client — a Dafny model of its page logic

Noted is a small Next.js client for keeping short text notes on a remote
server. Three pages carry logic worth specifying. This project models them:

- **The home page** (`src/app/page.tsx`). The feed of the signed-in user's
  notes is ordered by creation date, newest first ("Latest") or oldest first
  ("Oldest"). A case-insensitive search filter then keeps or drops each note,
  and each kept note gets a relative-age label in exactly one time unit. The
  panel shows a sign-in prompt, an empty-state message or that listing. The
  page's editor state is the create and update modals, their text buffers,
  the selected note, the user and stored session, and the route. Its handlers
  open and close the modals, pick a note to update, submit creates, updates
  and deletes, and log out. A successful mutation invalidates the cache key
  the list is fetched under.
- **The signup page** (`src/app/signup/page.tsx`). The zod schema is a list
  of issues: length bounds on three fields, then a password-match check
  reported on the confirmation. The submit handler moves `success` and
  `error`. A mount-time check is meant to redirect signed-in visitors to
  /, but as written it calls the pages-router singleton, which fails on
  this app-router page instead of navigating (see "## Findings").
- **The login page** (`src/app/login/page.tsx`). The schema requires two
  non-empty fields. The submit handler clears `error`. On success it signs
  the user in, navigates home and writes the session record. On failure it
  shows the server's message. Its mount-time check redirects signed-in
  visitors to /.

Modules:

- `Wrappers`: `Option`.
- `Decimal`: the `${n}` text of an integer, and its parser.
- `Session`: the credential, the stored `"session"` record, the two
  mount-time gates, and the JSON text of a credential with its decoder.
- `Age`: the relative-age label.
- `Feed`: ordering, filtering, labelling and the panel's three branches.
- `Home`: the home page state, as a class whose methods are the handlers.
- `Forms`: issues and the message shown under each field.
- `Signup` and `Login`: the two schemas and the two page classes.

Server responses are inputs: a boolean for the note mutations, a message
for a failed signup or login, and a credential for a successful login.
Creation times and the current time are integer milliseconds, passed as
parameters. The stored session record is a field (home and login) or a
parameter (signup). Cache invalidation is a log of the keys handed to
`mutate`.

Points where the code's behaviour is easy to misread:

- Week and day labels carry an ` ago` suffix (`1w ago`, `1d ago`); hour,
  minute and second labels do not (`3h`, `5m`, `59s`).
- Only the exact empty string blocks a create or update. Whitespace-only
  text is sent.
- The list fetch's `error` and `isLoading` are never rendered. A failed
  first fetch leaves the data undefined, so the panel shows the sign-in
  prompt. A failed revalidation (such as the refetch `mutate` triggers after
  a create, update or delete) keeps the previously fetched data, so the old
  listing stays on screen; the model's `notes` parameter is whatever data
  the cache holds.
- zod's length checks are not fatal, so the password-match refinement runs,
  and reports, even when a length check has already failed.

## Model

| member | source | states |
|---|---|---|
| Decimal.ShowIntRoundTrip | src/app/page.tsx:511-519 | the `${n}` text of a count is non-empty, starts with a digit or a minus sign, and reads back as exactly `n` |
| Age.TimeSincePostCreation | src/app/page.tsx:496-521 | the label for a note created at `createdAt`, seen at `now`, reads back as the unit and count the cascade picks for `now - createdAt` |
| Age.AgeTextRoundTrip | src/app/page.tsx:510-520 | every label names exactly one unit: `<w>w ago`, `<d>d ago`, `<h>h`, `<m>m` or `<s>s`, and the unit and count can be recovered from the text |
| Age.ChainedFloors | src/app/page.tsx:503-507 | the chained floors equal direct division: minutes = diff div 60000, hours = diff div 3600000, days = diff div 86400000, weeks = diff div 604800000 |
| Age.DivDiv | src/app/page.tsx:503-507 | flooring by `b`, then by `c`, equals flooring by `b * c` for positive divisors, negative differences included |
| Age.AgeCascade | src/app/page.tsx:500-520 | weeks are chosen iff diff >= 1 week, days iff 1 day <= diff < 1 week, hours, minutes and seconds likewise; the count is diff divided by the unit; every unit but seconds has a positive count |
| Age.FutureIsSeconds | src/app/page.tsx:500-519 | a creation time at or after now falls through to seconds, with a count of at most zero |
| Age.LabelExamples | src/app/page.tsx:496-521 | 59 s gives `59s`, 90 s gives `1m`, 25 h gives `1d ago`, 8 days give `1w ago` |
| Session.HomeGate | src/app/page.tsx:138-145 | the home page redirects to /login exactly when no truthy session record is stored; an empty string counts as none |
| Session.GuestGate | src/app/login/page.tsx:77-82 | the login page redirects to / exactly when a truthy session record is stored; the signup page intends the same gate, but as written its check fails instead (see "## Findings") |
| Session.GatesComplementary | src/app/page.tsx:138-145 | whatever is stored, exactly one of the home gate and the guest gate redirects |
| Session.Serialize | src/app/login/page.tsx:70 | the JSON text written as the session record is never empty, so the gates see a session |
| Session.SerializeRoundTrip | src/app/login/page.tsx:64-70 | the stored record decodes back to exactly the credential the user was set to, whatever characters its fields hold |
| Session.SerializeInjective | src/app/login/page.tsx:70 | different credentials are never written as the same record |
| Feed.OrderBy | src/app/page.tsx:266 | the notes in genre order (dates non-increasing for Latest, non-decreasing for Oldest), as a permutation of the fetched notes |
| Feed.IncludesIff | src/app/page.tsx:270 | `s.includes(t)` holds iff `t` occurs in `s` at some position |
| Feed.Keep | src/app/page.tsx:268-270 | each note occurs in the kept sequence as often as in the input if the filter admits it, and not at all otherwise |
| Feed.KeepMembers | src/app/page.tsx:343-345 | with a non-empty filter, a note is rendered iff its lower-cased text contains the lower-cased filter |
| Feed.KeepAll | src/app/page.tsx:305 | an empty filter renders every note, in order |
| Feed.KeepOrdered | src/app/page.tsx:380 | filtering keeps the date order |
| Feed.FilterIgnoresCase | src/app/page.tsx:270 | lower-casing the filter does not change which notes are rendered |
| Feed.ProjectSpec | src/app/page.tsx:264-414 | the listing is in genre order, holds every admitted fetched note as often as fetched and nothing else, and labels each row with its note's age |
| Feed.ProjectEmptyFilter | src/app/page.tsx:305-336 | with an empty filter the listing is the whole fetch in genre order, a permutation of it |
| Feed.ViewBranches | src/app/page.tsx:262-263 | no user or no data gives the sign-in prompt; an empty fetch gives the empty-state message; otherwise the listing is the projection |
| Feed.FilteredOutIsBlankListing | src/app/page.tsx:415-427 | a non-empty fetch whose notes the filter all rejects shows an empty listing, not the empty-state message |
| Home.NotesKeyInjective | src/app/page.tsx:122 | different user ids give different list keys |
| Home.FetchKey | src/app/page.tsx:117-124 | the list is fetched (a key exists) exactly when a user is signed in |
| Home.MutationKey | src/app/page.tsx:70 | with a user, the key every mutation invalidates is the fetch key; without one it is the key for "undefined" |
| Home.HomePage.View | src/app/page.tsx:262-263 | the panel shows the sign-in prompt iff user or data is missing; a listing is the projection under the page's filter and genre |
| Home.HomePage.constructor | src/app/page.tsx:41-52 | initial state: Latest, empty filter, both modals closed, empty buffers, no selected note, nothing invalidated |
| Home.HomePage.Mount | src/app/page.tsx:138-145 | without a truthy stored session the route becomes /login; nothing else changes |
| Home.HomePage.SetFilter | src/app/page.tsx:151-153 | only the filter changes |
| Home.HomePage.SetGenre | src/app/page.tsx:208-209 | only the genre changes |
| Home.HomePage.OpenCreate | src/app/page.tsx:254 | only the create flag is set |
| Home.HomePage.EditCreateInput | src/app/page.tsx:126-130 | only the create buffer changes |
| Home.HomePage.CloseCreate | src/app/page.tsx:449-452 | the create modal closes and its buffer is cleared; nothing else changes |
| Home.HomePage.ChooseUpdate | src/app/page.tsx:282-286 | the note's id is selected, its text loaded into the update buffer, and the update modal opened; nothing else changes |
| Home.HomePage.EditUpdateInput | src/app/page.tsx:132-136 | only the update buffer changes |
| Home.HomePage.CloseUpdate | src/app/page.tsx:481-484 | the update modal closes and its buffer is cleared; nothing else changes |
| Home.HomePage.CreateNote | src/app/page.tsx:54-74 | an empty buffer sends nothing and changes nothing; otherwise the buffer is sent with the user id; ok closes the modal, clears the buffer and invalidates the list key; not ok changes nothing |
| Home.HomePage.UpdateNote | src/app/page.tsx:76-97 | as for create, with the selected note id and the update buffer in the request |
| Home.HomePage.DeleteNote | src/app/page.tsx:99-115 | the delete is always sent; ok invalidates the list key; nothing else changes |
| Home.HomePage.Logout | src/app/page.tsx:171-175 | the log-out handler: `removeSession` (lines 147-149) removes the stored session, the route becomes /login, the user is cleared (so no list fetch); nothing else changes |
| Forms.MinLength | src/app/signup/page.tsx:33-34 | a `.min(n, message)` check reports at most one issue, always on its field with its message, and reports it iff the value is shorter than n |
| Forms.MaxLength | src/app/signup/page.tsx:35 | a `.max(n)` check reports at most one issue, always on its field with zod's default message, and reports it iff the value is longer than n |
| Forms.FirstMessage | src/app/signup/page.tsx:121 | the message shown under a field is that of the first issue on its path, and there is none iff the field has no issue |
| Signup.IssuesByField | src/app/signup/page.tsx:29-50 | each field's path collects its own length issues in declared order; the confirmation also collects the mismatch |
| Signup.SignupAcceptsIff | src/app/signup/page.tsx:29-50 | the form is accepted iff 6 <= username <= 75, 6 <= password <= 100, 6 <= confirmation <= 100 and password = confirmation |
| Signup.FieldVerdicts | src/app/signup/page.tsx:31-45 | the username path is clean iff 6 <= length <= 75; the password path iff 6 <= length <= 100; the confirmation path iff 6 <= length <= 100 and it matches |
| Signup.EmptyFieldMessages | src/app/signup/page.tsx:33 | an empty field shows its first-declared "Please provide ..." message |
| Signup.ShortFieldMessages | src/app/signup/page.tsx:34 | a length of 1 to 5 fails only the six-character minimum among the length checks |
| Signup.LongFieldMessages | src/app/signup/page.tsx:35 | a field over its maximum shows zod's default "at most" message |
| Signup.MismatchOnConfirmation | src/app/signup/page.tsx:47-50 | unequal passwords report "Passwords do not match" on the confirmation path, shown there once the confirmation's length is in range |
| Signup.MismatchNeverOnPassword | src/app/signup/page.tsx:47-50 | the password path never carries the mismatch, and what it reports does not depend on the confirmation |
| Signup.MountAsWritten | src/app/signup/page.tsx:86-91 | as written, the mount check never navigates; it fails exactly when a session is stored |
| Signup.MountRedirectMissed | src/app/signup/page.tsx:3 | with a stored session the as-written check fails where the intended gate redirects to / |
| Signup.SignupPage.constructor | src/app/signup/page.tsx:20-21 | `error` is empty and `success` false at first |
| Signup.SignupPage.Mount | src/app/signup/page.tsx:86-91 | with a truthy stored session the route becomes /; nothing else changes |
| Signup.SignupPage.Submit | src/app/signup/page.tsx:60-74 | a request is sent iff the schema passes; it then resets success and error, and the body holds username and password only |
| Signup.SignupPage.Receive | src/app/signup/page.tsx:76-83 | ok sets success and clears error; a failure clears success and sets error to the server's message |
| Login.LoginAcceptsIff | src/app/login/page.tsx:29-32 | the form is accepted iff both fields are non-empty, with no other bound |
| Login.LoginMessages | src/app/login/page.tsx:30-31 | each empty field shows its own "Please provide ..." message, a non-empty one none; both empty give exactly two issues |
| Login.LoginPage.constructor | src/app/login/page.tsx:19-21 | the page starts with an empty error and the user and session the session store holds |
| Login.LoginPage.Mount | src/app/login/page.tsx:77-82 | with a truthy stored session the route becomes /; nothing else changes |
| Login.LoginPage.Submit | src/app/login/page.tsx:42-55 | a request is sent iff both fields are non-empty; it clears error first, and the body holds username and password |
| Login.LoginPage.Receive | src/app/login/page.tsx:56-74 | success sets the user to the credential, the route to /, and the session to its JSON, which decodes back to that user and passes the home gate; a failure sets error to the server's message and nothing else |

## Findings

| source | as written | input that shows it | evidently intended | confidence | as-written member | corrected member |
|---|---|---|---|---|---|---|
| src/app/signup/page.tsx:3 | the mount effect (lines 86-91) calls `replace` on the default export of "next/router". That is the pages-router singleton, which an app-router page never mounts, so the call throws instead of navigating | a stored session record `"{}"` when the signup page mounts (Signup.MountRedirectMissed) | redirect to /, as the login page does with `useRouter` from "next/navigation" (src/app/login/page.tsx:3, 77-82) | medium; not executed, rests on the framework's behaviour | Signup.MountAsWritten | Signup.SignupPage.Mount |

## Left out

- Network calls, request headers and JSON bodies are not modelled. Each response is a boolean, a message or a credential. The SWR cache and revalidation are not modelled: invalidation is the log of keys handed to `mutate`.
- Async interleaving is not modelled: stale, duplicate or overlapping responses, and state edited while a request is in flight. Each handler runs as one step from its state at the call.
- Date-string parsing and the wall clock are not modelled. Creation and current times are integer milliseconds passed in, so invalid dates (NaN) are out of scope.
- `toLowerCase` is modelled for ASCII letters only. Other characters are left unchanged, including those whose lower case changes length.
- String lengths count Unicode scalar values. JavaScript and zod count UTF-16 code units, so the two differ for characters outside the Basic Multilingual Plane.
- Feed.OrderBy: states date order and permutation only, not how ties are ordered. That tie order is lodash's concern, though the model's insertion is itself stable.
- Session.ParseCredential reads only the exact shape `Serialize` writes, not general JSON. It rejects `\u` escapes of surrogate halves, which `JSON.parse` would pair.
- Login.LoginPage.Receive: the credential is exactly `{id, username}`. The source stores whatever object the server returned. Failures inside the success callback (a malformed body, a throwing setter) that would land in its `catch` are not modelled.
- The user context (`src/app/context/UserProvider.tsx`) is not part of this model. Its state is the pages' `user` field, set from the constructor argument.
- Navigation is a `location` field set by replace-navigation. Browser history is not modelled.
- Markup, styling, icons, the genre menu's highlighting and the password-visibility toggles are not modelled, nor are `layout.tsx` and `tailwind.config.ts`.
