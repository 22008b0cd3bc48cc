# SoulSpace in Dafny

SoulSpace is a small journaling application. A Flask server keeps users and their
"unsent letters" in SQLite and tracks the signed-in user in a cookie session. A
React client shows a dashboard of features and keeps per-screen caches of what
the server returned. This project models the core of both halves and proves
properties of the model.

Server side:

- `Models` (`models.dfy`) holds the field rules of the database models:
  - the write-only password hash;
  - the email regular expression, characterised exactly;
  - case-insensitive uniqueness of usernames and emails;
  - the title, content, message, note and open-date rules.

  Each rule is a function from a value (and the user table) to a
  `Result` carrying the exception the Python code raises.
- `Api` (`api.dfy`) models the request handlers as a `Server` class. The class
  holds the session cell (`user_id` or nothing), the user table and the letter
  table, with one method per handler returning a `(status, body)` reply.
  - The pure parts of those handlers are functions the methods are specified by.
    They are the signup checks, the letter
    creation and patch rules, the owner filter and the newest-first ordering.
  - A table invariant (`Valid`) is kept by every handler.

Client side:

- `Http` (`http.dfy`) describes how a fetch response is read, and how every
  screen turns a rejection into a list of messages
  (`Array.isArray(err) ? err : [fallback]`). A response is an input to the
  model: an ok status with a parsed body, a non-ok status with the `errors`
  member of its body, or a request that never completed.
- `Context` (`context.dfy`) holds the shared `user` cell.
- `Routing` (`routing.dfy`) models react-router's path matching.
- `App` (`app.dfy`) covers three things: the one-time session check, the
  loading/error/route gate and the top-level route table.
- `Dashboard` (`dashboard.dfy`) covers the access gate, the nested feature
  routes and the logout handler.
- `Login` and `Signup` (`login.dfy`, `signup.dfy`) model the two forms' submit
  transitions.
- `Letters` (`letters.dfy`), `Capsules` (`capsules.dfy`) and `Quiet`
  (`quiet.dfy`) model the list and note screens, including the time-capsule
  form's day-granularity date guard.
- `Profile` (`profile.dfy`) models the all-or-nothing overview load and its
  top-three summaries.
- `Wire` (`wire.dfy`) joins the two halves. It reads a server reply as a client
  response and a client request body as the server's parsed request. Its
  lemmas follow a signup or login from the form through the server and back.

Each handler that changes state is a method whose `ensures` gives its whole new
state. The properties the code promises are lemmas and contracts over the
functions those methods use.

Two behaviours of the code are stated as written:

- The client's session check does not single out the server's 401
  "No active session." (`server/app.py:138`): `client/src/App.js:26-36` sends
  every non-ok status, 401 "No active session." included, and every transport
  failure to the same connection-error screen. The model follows the code (`App.NoActiveSessionIsConnectionError`).
- The time-capsule form reads a date-only text `YYYY-MM-DD` as midnight UTC.
  It then moves both that time and "now" to the start of their local day before
  comparing them (`client/src/components/TimeCapsules.js:49-54`).
  - On a clock behind UTC, midnight UTC of
    tomorrow falls on the local today. Choosing tomorrow is then refused as not
    in the future (`Capsules.DateOnlyTomorrowRejectedWestOfUtc`).
  - On a clock at or ahead of UTC, the guard is exactly "after today"
    (`Capsules.DateOnlyGuardAtOrEastOfUtc`), and whatever it lets through
    satisfies the server's own rule (`Capsules.DateOnlyPassingGuardIsFuture`).

## Model

| member | source | states |
|---|---|---|
| Models.ReadPasswordHash | server/models.py:29-31 | reading the password hash always fails with AttributeError "Password hashes may not be read." |
| Models.SetPassword | server/models.py:33-39 | succeeds iff the value is a string of at least 6 characters; a non-string gives TypeError "Password must be a string.", a short string ValueError "Password must be at least 6 characters long."; success changes only the stored hash |
| Models.AuthenticateAfterSet | server/models.py:41-42 | after setting password p, a candidate authenticates iff it equals p |
| Models.EmailFormatMatchesRegex | server/models.py:49 | the direct characterisation (non-empty text before the first '@', and a '.' strictly inside the segment between that '@' and the next '@' or the end) holds iff `re.match(r"[^@]+@[^@]+\.[^@]+", e)` succeeds, and nothing is required after the match |
| Models.ValidateEmail | server/models.py:47-55 | a non-string gives TypeError; a string the regular expression rejects gives "Invalid email format."; success iff the format matches and the first row whose email matches ignoring ASCII case is absent or the record itself; success returns the email |
| Models.NewUserNameTaken | server/models.py:63-65 | for a record not yet stored with a name of length 3..80, "Username already taken." is raised iff some row has the same name ignoring case |
| Models.NewUserEmailTaken | server/models.py:52-54 | for a record not yet stored with a well-formed email, "Email already in use." is raised iff some row has the same email ignoring case |
| Models.ValidateUsername | server/models.py:57-66 | a falsy value gives "Username cannot be empty."; a length outside 3..80 gives "Username must be between 3 and 80 characters."; a string of length 3..80 whose first case-insensitive holder is another row gives "Username already taken."; success iff a string of length 3..80 and no other row has the name ignoring case |
| Models.ValidateTitle | server/models.py:82-86 | succeeds iff the title is non-empty and at most 255 characters (255 accepted), otherwise ValueError "Title must be non-empty and less than 255 characters." |
| Models.ValidateLetterContent | server/models.py:88-92 | succeeds iff the content is non-empty, otherwise "Content cannot be empty." |
| Models.ValidateCapsuleMessage | server/models.py:108-112 | succeeds iff the message is non-empty, otherwise "Message cannot be empty." |
| Models.ValidateOpenDate | server/models.py:114-118 | succeeds iff the open date is strictly after the current UTC time, otherwise "Open date must be in the future." |
| Models.ValidateNoteContent | server/models.py:133-137 | succeeds iff the content is non-empty, otherwise "Note content cannot be empty." |
| Models.ValidateSoulNoteMessage | server/models.py:149-153 | succeeds iff the message is non-empty and at most 500 characters |
| Common.Lower | server/models.py:52 | SQL lower(): same length, each ASCII capital folded to lower case and every other character kept |
| Common.FirstMatch | server/models.py:63 | a query's `.first()`: nothing iff no row satisfies the filter, otherwise a row of the table that satisfies it |
| Api.ExceptReply | server/app.py:95-101 | the status is 400 iff the exception is a ValueError, with its message; every other exception gives 500 with the handler's fixed text |
| Api.ValidationErrorIsServerError | server/app.py:13-14 | ValidationError is not a ValueError, so a handler answers 500 with its generic text for it |
| Api.NextUserId | server/app.py:90-93 | a new user's id is positive and larger than every stored id |
| Api.NewUser | server/app.py:82-88 | the missing-field ValidationError comes first, then "Passwords do not match.", then the username, email and password rules in that order; on success the row carries the next id and the given fields, satisfies every row rule, and no stored user has its name or email ignoring case |
| Api.AddUserKeepsUsersOk | server/app.py:90-91 | storing a user that passed the rules keeps ids, usernames and emails distinct (the last two ignoring case) |
| Api.Server.Signup | server/app.py:74-101 | on success the user is appended, the session names it and the reply is 201 with the user; on failure nothing is stored, the session is unchanged and the reply is the exception mapping |
| Api.Server.Login | server/app.py:106-124 | missing fields give 500 "Login failed: An unexpected error occurred."; no row whose username or email equals the identifier, or a wrong password, gives 401 "Invalid identifier or password." with the session unchanged; otherwise the session names the user and the reply is 200 |
| Api.LoginWithoutAtIsUnambiguous | server/app.py:115 | an identifier without '@' can only match a username, and at most one row matches it |
| Api.Server.CheckSession | server/app.py:129-138 | no user id gives 401 "No active session."; an id naming no user clears the session and gives 401 "User not found."; otherwise 200 with the user and the session unchanged |
| Api.Server.Logout | server/app.py:143-145 | the session becomes empty whatever it held, and the reply is always 204, so a second call changes nothing |
| Api.LettersOf | server/app.py:161 | a letter is in the result iff it is stored and owned by the user |
| Api.InsertNewestFirst | server/app.py:161 | inserting into a newest-first list gives a newest-first list with exactly one more occurrence of the letter |
| Api.SortNewestFirst | server/app.py:161 | the result is ordered newest first and is a permutation of the input |
| Api.Server.ListLetters | server/app.py:156-162 | through the login decorator (`server/app.py:23-31`), without a user id the reply is 401 "Unauthorized: Please log in to access this resource."; otherwise 200 with a newest-first permutation of exactly the session user's letters |
| Api.NewLetter | server/app.py:175-182 | a missing title or content gives ValidationError "Title and content are required for a letter."; an over-long title gives the title ValueError; success iff both are given and the title fits, with the next id and the session user as owner |
| Api.Server.CreateLetter | server/app.py:167-192 | without a user id 401; on success the letter is appended and the reply is 201; on failure nothing is stored and the reply is 400 for a rule's ValueError, 500 "Failed to create letter." otherwise |
| Api.Server.GetLetter | server/app.py:204-211 | a stored letter with that id owned by the session user gives 200 with it; otherwise 404 "Letter not found or unauthorized." |
| Api.ApplyPatch | server/app.py:226-229 | succeeds iff every key present passes its rule; the title rule's error comes first; every failure is a ValueError; success changes only the keys present |
| Api.EmptyPatchIsIdentity | server/app.py:226-229 | a patch naming no field leaves the letter unchanged |
| Api.ReplaceKeepsLettersOk | server/app.py:226-231 | replacing a letter in place by a valid one keeps the letter ids distinct |
| Api.Server.PatchLetter | server/app.py:216-239 | a missing or foreign letter gives 404 with the table unchanged; a failing rule rolls back and leaves the table unchanged; success replaces the letter with that id in place and returns it |
| Api.RemoveKeepsLettersOk | server/app.py:249-250 | deleting by id keeps a table whose rows are valid and whose ids are distinct |
| Api.Server.DeleteLetter | server/app.py:241-255 | a missing or foreign letter gives 404 with the table unchanged; otherwise exactly that letter goes, the table shrinks by one, and the reply is 204 |
| Common.RemoveUniqueId | server/app.py:249 | with distinct ids, deleting an id that is present removes exactly one row |
| Http.Outcome | client/src/components/Login.js:25-30 | the chain yields a body iff the status is ok and the body parses; it rejects with the `errors` member iff the status is not ok and the body parses; every other case is a thrown Error |
| Http.ErrorMessages | client/src/components/Login.js:37 | an `errors` array is shown as is; anything else shows the one fallback message |
| Http.StringErrorsShowFallback | server/app.py:118 | an error body whose `errors` is a string, which is all the server sends, shows only the fallback message |
| Http.NoMessagesOnlyForEmptyArray | client/src/components/Signup.js:44 | the message list is empty iff the server sent an empty `errors` array |
| App.AppState.constructor | client/src/App.js:14-16 | on mount there is no user and no error, and loading is true |
| App.AppState.SettleSessionCheck | client/src/App.js:20-39 | loading ends false on every path; an ok body becomes the user and leaves the error; any non-ok status or failed request sets the fixed connection error and clears the user |
| App.NoActiveSessionIsConnectionError | client/src/App.js:26-36 | the server's 401, whatever its body, takes the failure path |
| App.Gate | client/src/App.js:45-59 | the loading screen shows iff loading; the error screen iff not loading and the error is a non-empty string; routes only otherwise |
| App.ConnectionErrorBlocksRoutes | client/src/App.js:53-59 | once the connection error is set, no route is reachable on any path |
| App.Route | client/src/App.js:65-73 | the home page shows iff the path is exactly "/"; the dashboard shows only with a user and on a dashboard path, showing that path's dashboard view (the other pages in App.RouteTable) |
| App.RouteTable | client/src/App.js:65-73 | the signup form shows iff the path is "/signup" or below it; the login form iff the path is "/login" or below it, or a dashboard path without a user; NotFound iff no route matches: not exactly "/", and not under "/login", "/signup" or "/dashboard" |
| App.DashboardGate | client/src/App.js:69-72 | every dashboard path shows the dashboard with a user and the login form without one |
| Routing.ExactRootIsOnlyRoot | client/src/App.js:65 | the exact root route matches the path "/" and nothing else, not even "//" |
| Routing.DisjointPatterns | client/src/App.js:65-73 | two route patterns that differ at some position never match the same path |
| Dashboard.Render | client/src/components/Dashboard.js:39-45 | the access-denied message with a link to /login shows iff there is no user; otherwise the board with the nested route's panel |
| Dashboard.NoFeatureWithoutUser | client/src/components/Dashboard.js:39-45 | without a user no feature panel is reachable on any path |
| Dashboard.SelectPanel | client/src/components/Dashboard.js:92-103 | a selected feature is one whose route matches; the select-a-feature prompt shows iff no feature route matches and the path is the dashboard path exactly |
| Dashboard.FeatureRoutesDisjoint | client/src/components/Dashboard.js:93-99 | no path matches the routes of two different features |
| Dashboard.FeatureRouteSelectsFeature | client/src/components/Dashboard.js:93-99 | each of profile, letters, time-capsules, quiet-page, loop-breaker, soul-notes and breath-ground (and anything below it) selects its own panel |
| Dashboard.ExactPathShowsPrompt | client/src/components/Dashboard.js:100-102 | the dashboard path itself shows the select-a-feature prompt |
| Dashboard.HandleLogout | client/src/components/Dashboard.js:18-37 | an ok response clears the user and navigates to /login; a non-ok one alerts "Failed to log out. Please try again." (or the unknown-error text when its body does not parse); a failed request alerts the network text; neither of the last two changes the user |
| Login.LoginForm.Submit | client/src/components/Login.js:13-24 | the errors are cleared, loading is set and the body is `{identifier, password}` |
| Login.LoginForm.Settle | client/src/components/Login.js:25-41 | an ok body becomes the user with navigation to /dashboard; a failure keeps the user and shows the normalised errors with the login fallback; loading ends false |
| Signup.SignupForm.Submit | client/src/components/Signup.js:15-30 | the errors are cleared, loading is set and the body carries the confirmation under `password_confirmation` |
| Signup.SignupForm.Settle | client/src/components/Signup.js:32-48 | an ok body becomes the user with navigation to /dashboard; a failure keeps the user and shows the normalised errors with the signup fallback; loading ends false |
| Wire.UserResponse | client/src/components/Login.js:25-30 | a server reply is ok for the client iff its status is 2xx; an error reply reaches the client as its status with a string `errors` |
| Wire.SignupRequestOf | client/src/components/Signup.js:25-30 | the confirmation the form sends is what the server reads as `password_confirmation` |
| Wire.ServerErrorsShowFallback | server/app.py:97 | every error reply of the server shows only the fallback message |
| Wire.SignupFailureShowsGenericMessage | client/src/components/Signup.js:42-45 | whichever signup rule the server rejects, the form shows only "Signup failed. Please try again." |
| Wire.MismatchedConfirmationRejected | server/app.py:84-85 | a filled-in form whose confirmation differs from the password is refused by the server with "Passwords do not match." |
| Wire.SignupSuccessSignsIn | client/src/components/Signup.js:38-41 | after a successful signup the client's user is the stored user |
| Wire.LoginFailuresShowGenericMessage | client/src/components/Login.js:35-38 | bad credentials and missing fields both show "Login failed. Please check your credentials or network." |
| Common.ReplaceById | client/src/components/LettersUnsent.js:70 | same length; exactly the elements with the saved id become the saved element and all others stay in place |
| Common.ReplaceByIdAppend | client/src/components/LettersUnsent.js:70 | replacing by id acts on each part of a list independently, so order is kept |
| Common.RemoveById | client/src/components/LettersUnsent.js:101 | no remaining element has the id, every remaining element was in the list, and the list does not grow |
| Common.RemoveByIdKeepsOthers | client/src/components/LettersUnsent.js:101 | every element with another id keeps its number of occurrences |
| Common.RemoveByIdAppend | client/src/components/LettersUnsent.js:101 | filtering distributes over concatenation, so the rest keeps its order |
| Common.RemoveAbsentId | client/src/components/LettersUnsent.js:101 | filtering an id that no element has returns the list unchanged |
| Letters.LettersScreen.Refresh | client/src/components/LettersUnsent.js:15-43 | without a user the list is emptied and nothing is fetched; with one, an ok body replaces the list and clears errors, and a failure keeps the list and shows the load fallback |
| Letters.LettersScreen.Submit | client/src/components/LettersUnsent.js:46-87 | PATCH of the letter being edited iff there is one, else POST with `{title, content}`; a saved new letter goes to the front and a saved edit replaces by id; success resets the form; failure keeps the form and shows the update or create fallback |
| Letters.CreateThenDeleteRestores | client/src/components/LettersUnsent.js:72 | creating a letter with a fresh id and then deleting it gives back the list as it was |
| Letters.ReplaceWithItselfIsIdentity | client/src/components/LettersUnsent.js:70 | with distinct ids, saving a letter unchanged leaves the list unchanged |
| Letters.LettersScreen.Delete | client/src/components/LettersUnsent.js:89-114 | nothing happens unless confirmed; an ok response removes every letter with the id and clears errors; a non-ok response leaves the list and the errors; a failed request shows "Failed to delete letter. Please try again." |
| Letters.LettersScreen.EditClick | client/src/components/LettersUnsent.js:116-121 | the form holds the letter's title and content, the letter is being edited and the form shows |
| Letters.LettersScreen.CancelEdit | client/src/components/LettersUnsent.js:123-129 | the form, the edited letter and the errors are reset, and the list is unchanged |
| Letters.Preview | client/src/components/LettersUnsent.js:209 | a text of at most n characters is shown whole; a longer one is its first n characters followed by "..." |
| Capsules.LocalDayStart | client/src/components/TimeCapsules.js:51-52 | the start of the local day holding a time: at most that time, less than a day before it |
| Capsules.GuardComparesDays | client/src/components/TimeCapsules.js:49-58 | the submit guard refuses a valid date iff its local day is today or earlier |
| Capsules.DateOnlyGuardAtOrEastOfUtc | client/src/components/TimeCapsules.js:49-54 | at or east of UTC, a date-only choice is refused iff it is not after the local today |
| Capsules.DateOnlyTomorrowRejectedWestOfUtc | client/src/components/TimeCapsules.js:49-54 | west of UTC, choosing tomorrow's date is refused |
| Capsules.DateOnlyPassingGuardIsFuture | client/src/components/TimeCapsules.js:54 | at or east of UTC, a date-only choice the guard lets through is strictly after now, so the server's open-date rule accepts it |
| Capsules.CapsulesScreen.Refresh | client/src/components/TimeCapsules.js:14-42 | without a user the list is emptied; with one, an ok body replaces the list and a failure keeps it and shows the load fallback |
| Capsules.CapsulesScreen.Submit | client/src/components/TimeCapsules.js:44-95 | a refused date sends nothing, shows "Open date must be in the future." and keeps the form; otherwise PATCH of the edited capsule iff there is one, else POST, and a saved capsule is prepended or replaces by id; failure keeps the form; loading ends false |
| Capsules.CapsulesScreen.Delete | client/src/components/TimeCapsules.js:97-121 | nothing happens unless confirmed; ok removes the id and clears errors; non-ok changes neither list nor errors; a failed request shows the delete fallback |
| Capsules.CapsulesScreen.CancelEdit | client/src/components/TimeCapsules.js:132-138 | the edited capsule, message, open date, form visibility and errors are reset |
| Capsules.OpenableStaysOpen | client/src/components/TimeCapsules.js:140-144 | once a capsule is openable it stays openable as time passes |
| Capsules.ShownMessage | client/src/components/TimeCapsules.js:225 | the message is shown iff the capsule is openable, and the sealed notice otherwise |
| Quiet.RequestFor | client/src/components/QuietPage.js:54-55 | PATCH of the current note iff its id is truthy (present and non-zero), else POST, with the page's text |
| Quiet.Shown | client/src/components/QuietPage.js:23-32 | a non-empty list shows the first note's text and id; an empty list shows an empty page with no id |
| Quiet.QuietPageScreen.Load | client/src/components/QuietPage.js:13-46 | without a user the page is blank with no id; with one, an ok list shows its first note; a failure keeps the page and shows the load fallback |
| Quiet.QuietPageScreen.Submit | client/src/components/QuietPage.js:48-85 | the request is the upsert for the current id; success takes the saved note's text and id and shows "Note saved successfully!", so a non-zero saved id makes every later submit a PATCH; failure keeps text and id and shows the update or create fallback; loading ends false |
| Profile.Summarise | client/src/components/UserProfile.js:96-112 | the empty prompt iff the list is empty; otherwise the first min(3, n) items, with the "...and n-3 more" line iff n > 3, and the lines account for all n items |
| Profile.SummaryIsPrefix | client/src/components/UserProfile.js:98 | a summary lists a prefix of the list, in order |
| Profile.CapsuleLabel | client/src/components/UserProfile.js:126 | the label is "Open" iff the capsule is openable, "Sealed" otherwise |
| Profile.NoteLines | client/src/components/UserProfile.js:153 | each note line is the first 50 characters of the note, followed by "..." iff it is longer |
| Profile.LetterLines | client/src/components/UserProfile.js:100 | each letter line is the letter's title, in list order |
| Profile.CapsuleLines | client/src/components/UserProfile.js:126 | each capsule line is its open/sealed label, in list order |
| Profile.Render | client/src/components/UserProfile.js:56-73 | the loading screen iff loading; the error screen iff not loading and there are errors; otherwise the three summaries |
| Profile.FirstRejection | client/src/components/UserProfile.js:19-23 | no rejection iff all three requests succeed; otherwise the first failing request's rejection |
| Profile.ProfileScreen.Load | client/src/components/UserProfile.js:13-42 | without a user loading stops and the three lists are emptied; with one, the three lists are replaced together iff all three succeed, and otherwise kept while the errors come from the first failure; loading ends false |

## Left out

- Password hashing: bcrypt is treated as opaque, so the stored hash stands for the last password set and `authenticate` is equality with it.
- Models.SetPassword: the setter's in-place write of `self._password_hash` is modelled as a function that returns the updated row.
- Flask, SQLAlchemy and cookies: queries become functions over in-memory tables, commit and rollback become "new table or old table", and `jsonify` becomes a `(status, body)` value.
- Serialization: `to_dict` and its nesting rules are reduced to the fields the client reads.
- Request bodies that are not JSON objects, and JSON arrays or objects as field values. The signup fields are modelled as Python values (string, integer, boolean, null); the login and letter fields as strings.
- Api.Server.Login: models only string or absent fields; a non-string identifier or password is not modelled.
- Api.Server.Login: when one user's username equals another user's email, the query at `server/app.py:115` has no ORDER BY, so which row `.first()` returns depends on the query plan; the model takes the first in table order.
- The Flask error handlers at `server/app.py:44-69`: they answer only unregistered paths (404) and exceptions raised outside the resources' own try blocks; neither is modelled.
- UTF-16: JavaScript `length` and `substring` count UTF-16 code units, whereas the model counts characters; the two differ only outside the Basic Multilingual Plane.
- Date handling is reduced to integers. Date parsing and formatting (`toISOString`, `toLocaleDateString`) are left out, and so is daylight saving: the local clock's lead over UTC is one constant per call. `new Date(text)` is given as a parsed value or an Invalid Date.
- Time-capsule edit click (`handleEditClick`, `client/src/components/TimeCapsules.js:123-130`): its logic is date formatting, which is left out above.
- Routing: react-router's case-insensitive matching and URL decoding are not modelled; patterns match exactly or at a segment boundary.
- Browser side effects: `window.confirm` is a boolean input. The model leaves out `alert` beyond the text it would show, `history.push` beyond the path it returns, `console.error`, and the `setTimeout` that clears the saved-note message after three seconds.
- Concurrency: each request's effects are applied as one step, in the order issued. Interleaved responses and stale closures over earlier state are not modelled, and `Promise.all` is taken as sequential and all-or-nothing.
- The server endpoints the client calls but `server/app.py` does not register (time capsules, user notes, soul notes, loop breaker, breath-and-ground) have no server model; their client screens are modelled against responses as inputs.
- The Soul Notes, Loop Breaker and Breath & Ground screens, Home, Navbar and NotFound: they only render or fetch and display.
- `server/config.py` (configuration; its SQLite choice fixes the case sensitivity and id allocation modelled here), `server/seed.py` (random data) and `client/src/index.js` (mounting): not part of this model.
- JSX markup and styling.
