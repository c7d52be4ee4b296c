# Om app: a verified model of its backend routes and page state

Om app is a meditation web app. An Express backend over SQLite serves accounts, a catalogue of audio
chants, a mood journal, an AI recommendation drawn from recent moods and a billing webhook. A single
React page holds a breathing animation, a player and a dashboard. This project models, in Dafny:

- the backend's route handlers over an in-memory model of the `users`, `moods` and `chants` tables
  (`server.dfy`, with the row types in `records.dfy`, the SQL statements in `queries.dfy` and the
  recommendation prompt in `recommend.dfy`);
- the state machines of the page: the breathing stage (`breathing.dfy`), the Meditate player
  (`meditate.dfy`), the dashboard's derived values (`dashboard.dfy`) and the page router (`router.dfy`).

Support modules: `wrappers.dfy` (an Option type for `undefined` and SQL NULL), `json.dfy` (JSON
values, JavaScript truthiness, `a?.b` and `a || b`), `seqs.dfy` (reversal and
`ORDER BY created_at DESC LIMIT n`) and `text.dfy` (`split`, `join` and integer rendering).

How the model is built:

- The database is the class `Server.Store`. It holds the three tables as sequences in insertion
  order, an AUTOINCREMENT counter per table and a clock that stamps `created_at`. The caller advances
  the clock with `AdvanceClock`. `Store.Valid()` says that ids increase, `created_at` never decreases
  along a table, e-mails are unique, the BOOLEAN columns hold 0 or 1 and every mood's `user_id` names a
  user. The last is the FOREIGN KEY of server.ts:44, which better-sqlite3 enforces by default. Every
  writing route keeps it.
- Routes that write are methods of `Store`. Their contracts give the reply and the whole new state.
  Routes that only read are functions of the table contents: `Login`, `ListChants`, `MoodHistory`,
  `Recommendation` and `AdminStats`.
- The libraries are the uninterpreted function fields of `Server.Oracles`. These are jsonwebtoken's
  sign and verify, bcryptjs's hash and compare, the generative-text call and `JSON.parse`. `verify`, `generate`
  and `parse` return an Option, and a throwing call is `None`. `sign`, `hash` and `compare` are
  total, so a jwt or bcrypt call that throws is not modelled. Every contract depends only on the
  handler code.
- `Recommendation` returns the AI request it made, or `None` when it made none. This makes "no
  external call for an empty history" a statement about the result.
- With a monotone clock, `ORDER BY created_at DESC` is the table read backwards. SQL leaves the order
  of rows with equal `created_at` open, and the model returns the newest-inserted first.
  `HistoryNewestFirst`, `HistoryKeepsNewest` and `HistoryIsComplete` state facts that hold for every
  order SQL allows: at most N rows, newest first, nothing newer left out. `HistoryStartsWithLatest`
  and `Seqs.NewestAfterAppend` require the new row to be strictly newer than the earlier ones, so
  their result does not depend on how ties are broken.

Some behaviours of the code are easy to mistake. The model follows the code:

- A duplicate e-mail at signup gets status 400 "Email already exists" (server.ts:110-111), not a
  conflict status.
- The webhook reads `RAZORPAY_WEBHOOK_SECRET` and never checks a signature (server.ts:194-195).
  `Store.Webhook` takes the signature and the secret as parameters, and its contract does not depend
  on them.
- The onboarding reply has the keys `recommendation` and `advice` (server.ts:149), not a `frequency`
  of 432Hz. `Dashboard.OnboardingCard` proves that the dashboard therefore shows 528Hz and "Heart
  Chakra Healing" for it, although its text recommends the 432Hz Morning OM.
- Login never reads `is_disabled` (server.ts:115-123). `Server.LoginIgnoresDisabled` proves that a
  disabled user logs in exactly as before.
- Ratings are stored unchecked (server.ts:133-135). Premium chants are served to every caller
  (server.ts:126-129) and locked only on the page (src/App.tsx:493, 518).

## Model

| member | source | states |
|---|---|---|
| `Json.LookupField` | src/App.tsx:330-334 | the last field with the key, and nothing exactly when no field has the key |
| `Json.Truthy` | src/App.tsx:330-334 | JavaScript truthiness: null, false, 0 and the empty string are falsy, everything else truthy |
| `Json.Member` | src/App.tsx:330-334 | `rec?.key` is defined only on an object, and on an object it is that object's last field with the key, or undefined when it has none |
| `Json.OrElse` | src/App.tsx:330-334 | `v \|\| fallback`: the value when it is defined and truthy, otherwise the fallback |
| `Json.AsFlag` | server.ts:227 | `x ? 1 : 0` is 0 or 1, and 1 exactly for a truthy value |
| `Seqs.Reverse` | src/App.tsx:249 | `slice().reverse()`: same length, element i is element n-1-i of the input |
| `Seqs.ReverseOfAscending` | server.ts:140 | a chronological table read backwards is newest first |
| `Seqs.Newest` | server.ts:140 | `ORDER BY created_at DESC LIMIT n`: min(n, rows) rows, the k-th newest at position k |
| `Seqs.NewestIsDescending` | server.ts:140 | on a chronological table the selection is in non-increasing key order |
| `Seqs.NewestKeepsNewest` | server.ts:140 | no row left out of the selection is newer than a selected one |
| `Seqs.NewestIsComplete` | server.ts:140 | a table with at most n rows is selected whole |
| `Seqs.NewestAfterAppend` | server.ts:134-140 | a row appended with a key above every earlier row's comes first, and every other selected row has a smaller key |
| `Text.Split` | server.ts:89 | `s.split(c)` gives at least one field, and no field contains the separator |
| `Text.JoinSplit` | server.ts:89 | joining the fields with the separator gives back the string: split drops no character |
| `Text.Join` | server.ts:153 | `parts.join(sep)`; `SplitJoin` and `JoinSplit` relate it to `Split` |
| `Text.IntToString` | server.ts:153 | a non-empty string of digits, starting with a minus sign exactly for a negative number, with no other minus sign and no leading zero |
| `Text.NatToStringValue` | server.ts:153 | the digits of a natural number's numeral denote that number |
| `Text.IntToStringValue` | server.ts:153 | the numeral of an integer denotes it: the minus sign, then its magnitude's digits |
| `Text.SplitJoin` | server.ts:153 | splitting a join of separator-free parts gives back the parts |
| `Queries.OfUser` | server.ts:140 | `WHERE user_id = ?` keeps a row exactly when the table holds it and it belongs to the user, and never grows the table |
| `Queries.OfUserCounts` | server.ts:140 | the filter keeps each of the user's rows as many times as the table holds it, and drops every other row |
| `Queries.OfUserAscending` | server.ts:140 | filtering keeps a chronological table chronological |
| `Queries.History` | server.ts:139-142 | the min(limit, n) newest of the caller's n rows, newest first: entry k is the user's k-th row from the end |
| `Queries.HistoryNewestFirst` | server.ts:140 | the history is in non-increasing `created_at` order |
| `Queries.HistoryKeepsNewest` | server.ts:140 | no omitted row of the user is newer than a returned row |
| `Queries.HistoryIsComplete` | server.ts:140 | a user with at most `limit` moods gets all of them |
| `Queries.HistoryIgnoresOthers` | server.ts:140 | another user's new mood leaves a user's history unchanged |
| `Queries.HistoryStartsWithLatest` | server.ts:132-142 | a mood posted later than the poster's earlier ones is first in their history, and every other row returned is older |
| `Records.NewUser` | server.ts:107 | the inserted row: the given id, e-mail, hash, name and time, with the column defaults of server.ts:26-33 |
| `Queries.UserByEmail` | server.ts:117 | `.get()` finds a row with the e-mail, and finds none exactly when no row has it |
| `Queries.UserByEmailAfterInsert` | server.ts:107-117 | after inserting an unused e-mail, the lookup finds the new row |
| `Queries.UserByEmailFindsRow` | server.ts:117 | with unique e-mails the lookup finds the one row holding the e-mail |
| `Queries.ProCount` | server.ts:212 | the number of rows whose plan is PRO, so never more than the number of users |
| `Queries.ProCountAfterSignup` | server.ts:107-212 | a signup adds one user and no PRO user |
| `Queries.PromoteRow` | server.ts:202 | plan PRO, status active, the subscription id; every other column, password, name and role included, kept |
| `Queries.Promote` | server.ts:202-203 | same number of rows; every row with the e-mail becomes PRO, active, with the subscription id, keeping every other column; every other row is unchanged |
| `Queries.PromoteIdempotent` | server.ts:202-203 | the same promotion twice equals once |
| `Queries.PromoteProCount` | server.ts:202-212 | after promotion the PRO rows are exactly those that were PRO or carry the e-mail |
| `Queries.PromoteKeepsPro` | server.ts:202-212 | promotion never lowers the PRO count |
| `Queries.SetDisabled` | server.ts:234 | same number of rows; the rows with the id get the flag and keep every other column; every other row is unchanged |
| `Queries.SetDisabledIdempotent` | server.ts:234 | setting the same value twice equals setting it once |
| `Queries.ToggleTwiceRestores` | server.ts:231-236 | the admin panel's toggle, which sends the negated flag, restores the table when done twice |
| `Queries.Summary` | server.ts:214 | the projected row keeps id, name, e-mail, plan, `created_at` and the disabled flag, and its type has no password |
| `Queries.RecentUsers` | server.ts:214 | the summaries of the min(10, n) newest users: entry k is the summary of the k-th row from the end |
| `Queries.RecentUsersNewestFirst` | server.ts:214 | newest first, and no user left out is newer than a listed one |
| `Queries.SeedRows` | server.ts:71-75 | four rows with consecutive ids and one timestamp; the last two are premium |
| `Recommendations.FrequencyText` | server.ts:153 | `${h.frequency}`: a NULL frequency renders as "null" |
| `Recommendations.HistoryLine` | server.ts:153 | the template line for one mood: rating, note, duration and frequency |
| `Recommendations.HistoryText` | server.ts:153 | the lines joined with "\n" |
| `Recommendations.Prompt` | server.ts:158-161 | the fixed head, the history text and the fixed instructions |
| `Recommendations.HistoryLines` | server.ts:153 | one line per mood, line i being the template line of mood i |
| `Recommendations.HistoryLineIsOneLine` | server.ts:153 | a line holds no line break unless its note or frequency has one |
| `Recommendations.HistoryTextOneLinePerMood` | server.ts:153 | when no note or frequency holds a line break, the prompt's history text splits on "\n" into exactly the per-mood lines, in order; a multi-line note from the textarea (src/App.tsx:571-576) adds lines |
| `Recommendations.Recommend` | server.ts:148-168 | no moods: the onboarding reply and no call; otherwise one request with the prompt, then the parsed answer, or the fixed 528Hz / "Love & Healing" reply when the call or the parse fails |
| `Server.BodyJson` | server.ts:90-236 | the JSON document each reply sends; a throwing handler gets Express's error page instead |
| `Server.BearerToken` | server.ts:89 | the token is the second space-separated field of the header, whatever the first field says; a token is found exactly when that field exists and is non-empty; it has no space |
| `Server.BearerTokenOfBearerHeader` | server.ts:89 | the header `Bearer <token>` yields the token |
| `Server.BearerTokenNeedsSpace` | server.ts:89-90 | a header without a space yields no token |
| `Server.Authenticate` | server.ts:88-98 | no token gives 401 "Unauthorized"; a failed verification gives 401 "Invalid token"; otherwise the verified claims |
| `Server.AdminGuard` | server.ts:210 | authentication failures pass through; a verified role other than 'admin' gives 403 "Forbidden" |
| `Server.Login` | server.ts:115-123 | 401 "Invalid credentials" when the e-mail is absent or the hash comparison fails; otherwise a token for the stored id, e-mail and role, and the stored user's fields |
| `Server.ListChants` | server.ts:126-129 | after the guard, every chant |
| `Server.MoodHistory` | server.ts:139-142 | after the guard, at most 30 of the caller's rows, all of them the caller's |
| `Server.Recommendation` | server.ts:145-169 | after the guard, `Recommend` applied to the caller's 7 newest moods; a rejected request makes no call |
| `Server.AdminStats` | server.ts:209-221 | 403 for non-admins; otherwise the number of users, of PRO users and of moods, and at most 10 recent summaries |
| `Server.Store.Valid` | server.ts:20-56 | ids increase and lie below the AUTOINCREMENT counters, `created_at` never decreases and is not in the future, e-mails are unique, the BOOLEAN columns hold 0 or 1, and every mood's `user_id` names a user row (the FOREIGN KEY) |
| `Server.Store.constructor` | server.ts:20-56 | an empty database whose ids start at 1 |
| `Server.Store.AdvanceClock` | server.ts:32 | only the clock moves |
| `Server.Store.SeedChants` | server.ts:69-76 | an empty table receives the four chants; a non-empty one is left as it is, so a second run changes nothing |
| `Server.Store.Signup` | server.ts:103-113 | a used e-mail gives 400 and changes nothing; otherwise exactly one row with role 'user', plan FREE, status inactive, `is_disabled` 0 and the hashed password, and a token for the new id, the e-mail and role 'user' |
| `Server.Store.PostMood` | server.ts:132-137 | after the guard, 500 with nothing written when the caller's id names no user (the FOREIGN KEY rejects the INSERT), otherwise exactly one mood row with the caller's id and the body fields; nothing else changes |
| `Server.Store.Webhook` | server.ts:193-206 | only "subscription.activated" writes, promoting exactly the rows with the notes' e-mail; the reply is `{status: "ok"}`, except 500 with nothing changed when that event's payload lacks `subscription.entity` or its notes |
| `Server.Store.AddChant` | server.ts:223-229 | 403 for non-admins with nothing changed; otherwise one chant with `is_premium` 1 or 0 |
| `Server.Store.ToggleStatus` | server.ts:231-236 | 403 for non-admins with nothing changed; otherwise only the rows with that id get `is_disabled` 1 or 0 |
| `Server.SignupThenLogin` | server.ts:103-123 | logging in with the credentials just signed up with succeeds, with the new id and role 'user' |
| `Server.SignupTokenAuthenticates` | server.ts:88-108 | the signup token, sent as a bearer header, authenticates as the new user |
| `Server.LoginIgnoresDisabled` | server.ts:115-123 | changing `is_disabled` never changes a login's reply |
| `Server.WebhookThenLogin` | server.ts:193-206 | after promotion the user's login reports plan PRO |
| `Breathing.StageAfter` | src/App.tsx:77-83 | the stage after n ticks of the updater |
| `Breathing.Next` | src/App.tsx:78-82 | every step changes the stage |
| `Breathing.ThreeStepsReturn` | src/App.tsx:78-82 | three steps return to the start |
| `Breathing.StageAfterIsPeriodic` | src/App.tsx:76-83 | the stage after n ticks depends on n mod 3 only |
| `Breathing.StageAtTick` | src/App.tsx:74-83 | after n ticks the stage is Inhale, Hold or Exhale as n mod 3 is 0, 1 or 2 |
| `Breathing.BreathingCircle.constructor` | src/App.tsx:74 | the circle starts at Inhale |
| `Breathing.BreathingCircle.Tick` | src/App.tsx:77-83 | a tick applies the stage updater |
| `Meditate.Locked` | src/App.tsx:493-518 | a chant is locked exactly when it is premium and the user's plan is FREE; no user without a plan is refused |
| `Meditate.MoodPost` | src/App.tsx:404-409 | the posted body has the rating, the note, duration 10 and the active chant's frequency |
| `Meditate.Player.constructor` | src/App.tsx:365-371 | no chants, no active chant, not playing, rating 3, empty note, dialog closed |
| `Meditate.Player.Load` | src/App.tsx:376-379 | the list is stored; the first chant becomes active when there is one, otherwise the active chant stays |
| `Meditate.Player.Select` | src/App.tsx:492-496 | refused with no change exactly when locked; otherwise that chant becomes active and playback stops |
| `Meditate.Player.TogglePlay` | src/App.tsx:382-390 | nothing happens without an audio element; otherwise the playing flag flips, so two toggles restore it |
| `Meditate.Player.HandleFinish` | src/App.tsx:392-395 | the dialog opens and playback stops |
| `Meditate.Player.SetRating` | src/App.tsx:558 | only the rating changes |
| `Meditate.Player.SetNote` | src/App.tsx:573 | only the note changes |
| `Meditate.Player.CloseModal` | src/App.tsx:543 | only the dialog closes |
| `Meditate.Player.SubmitMood` | src/App.tsx:397-413 | posts the current rating, note, 10 and the frequency; once delivered the dialog closes and the note clears, and the rating stays |
| `Dashboard.ChartData` | src/App.tsx:249-252 | same length as the history, reversed, each rating and date kept |
| `Dashboard.ChartIsChronological` | src/App.tsx:249-252 | the chart of the server's history runs oldest to newest |
| `Dashboard.RecentMoods` | src/App.tsx:344 | the first min(3, n) history entries |
| `Dashboard.NoteLabel` | src/App.tsx:350 | never empty; shows the note when it has one, and 'Meditation Session' when the note is empty |
| `Dashboard.ShownFrequency` | src/App.tsx:330 | `recommendation?.frequency \|\| '528Hz'` |
| `Dashboard.ShownType` | src/App.tsx:331 | `recommendation?.type \|\| 'Heart Chakra Healing'` |
| `Dashboard.ShownAdvice` | src/App.tsx:334 | `recommendation?.advice` or the default advice |
| `Dashboard.RecommendationCardFrequency` | src/App.tsx:330 | for every reply of the recommendation route, the frequency line is the parsed service answer's truthy `frequency`, and 528Hz in every other case: onboarding, fallback and rejected requests |
| `Dashboard.OnboardingCard` | src/App.tsx:330-334 | the onboarding reply shows 528Hz, "Heart Chakra Healing" and its own advice |
| `Dashboard.FallbackCard` | src/App.tsx:330-334 | the server's fallback reply shows 528Hz, "Love & Healing" and its advice |
| `Dashboard.ErrorCard` | src/App.tsx:330-334 | an `{error}` object, or no reply at all, shows the three defaults |
| `Dashboard.EmptyHistoryShows528` | src/App.tsx:330 | for a caller without moods the recommendation shows 528Hz, and no call is made |
| `Router.RenderPage` | src/App.tsx:836-846 | each of the six page names maps to its view; any other name renders the landing page |
| `Router.Redirected` | src/App.tsx:830-834 | with a user, 'login' and 'signup' become 'dashboard'; every other page stays |
| `Router.SignedInNeverSeesAuthForms` | src/App.tsx:830-846 | with a user, the rendered view after the effect is never a login or signup form, and a second run changes nothing |
| `Router.App.constructor` | src/App.tsx:827 | the app starts on 'landing' |
| `Router.App.Navigate` | src/App.tsx:827 | `setPage` sets the page |
| `Router.App.SyncWithUser` | src/App.tsx:830-834 | the effect applies `Redirected` |

## Left out

- JWT signing and verification, bcrypt, the generative-text client and `JSON.parse` are
  uninterpreted parameters. `jwt.sign` is called without `expiresIn` (server.ts:108, 121), so tokens never expire.
  bcrypt's random salt and the AI model's behaviour are not modelled.
- The create-subscription stub (server.ts:172-190) is left out: it returns a random id from
  `Math.random`. The Razorpay client set-up (server.ts:82-85) is left out too.
- The `analytics` table (server.ts:58-65) is left out: no route uses it.
- Server start-up is left out: Vite middleware, static serving, `listen` (server.ts:239-259), `dotenv`
  and the environment defaults. Start-up is modelled as `Store` construction followed by `SeedChants`.
- SQL details are left out: the second-granularity `CURRENT_TIMESTAMP` (replaced by the caller's
  clock), the storage classes, and the UNIQUE constraint's treatment of NULL e-mails.
- Request bodies have typed fields. A missing or wrongly typed JSON field is not modelled, with two
  exceptions: a mood's frequency may be absent, and the webhook payload may lack
  `subscription.entity.notes`. That webhook payload makes the handler throw, and Express then replies
  500 with nothing changed.
- JSON numbers are unbounded integers, while JavaScript numbers are doubles. POST /api/moods would store a fractional rating or duration unchecked, but the page never sends one. A huge rating would print in exponent form in the prompt (server.ts:153), for example 1e21 as "1e+21"; `IntToString` always prints every digit.
- Asynchronous interleaving of requests is not modelled: each route runs to completion on its own.
- All rendering in src/App.tsx is left out: JSX, animations, charts, `cn`, `toLocaleDateString`,
  `alert`, the Navbar, the auth form and the admin form state. The model also leaves out the
  `setInterval` timing (each tick is a `Tick` call), the `fetch` calls (their results are
  parameters) and the auth store (`planType` and `signedIn` are parameters).
- Meditate.Player.TogglePlay: the audio element's own `play()`/`pause()` is not modelled, only the
  `isPlaying` flag.
- Dashboard.ChartData: a history reply that is not an array is not modelled. A token that fails verification (forged, malformed, or signed with another secret) gives `{error: "Invalid token"}` (server.ts:96); `history.slice()` (src/App.tsx:249) then throws, and the page does not render.
- Meditate.Player.Load: a reply that is not an array is not modelled. This is what a token that fails verification
  (forged, malformed, or signed with another secret) produces (`{error: ...}`), and the page cannot render it.
- Dashboard.ChartData: the weekday label is represented by the `created_at` it is formatted from.
