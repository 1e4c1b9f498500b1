# Session coordinator and sign-in form logic of the StoryBot pages

This project models, in Dafny, the non-presentational logic of two pages of
the StoryBot web app.

The main page (`src/pages/Index.tsx`) coordinates one editing session. A
conversational agent sends feature updates, and a quality scorer sends
metrics updates. The page keeps the current document, the signed-in user,
the overall score, the saved estimation, a progress pair, a start signal,
the active tab, the mobile flag and the "document updated" badge. It writes
revisions to the `n8n_storymapper_feature_history` table: one row per
accepted update, and later the metrics as the estimation of the newest row
of the session. On load it restores the document from the user's newest row.
It announces progress on a loading-state topic.

The sign-in page (`src/pages/Auth.tsx`) captures marketing (UTM) query
parameters into session storage. It also runs the email and Google sign-in
handlers and the sign-in/sign-up toggle, with a fixed discipline over its
`isLoading` and `error` flags.

Files:

- `js_values.dfy` — `Option` and JavaScript string truthiness (`||`, `if (s)`).
- `payloads.dfy` — the feature-update and metrics-update bodies; which updates are accepted.
- `history.dfy` — the revision table as a sequence of rows stamped by a forward-only clock; the newest-row search; appending; attaching an estimation; lemmas relating them.
- `coordinator.dfy` — class `Coordinator`, one method per handler and effect of the main page, a whole session round on one page, and a save-then-reload round trip.
- `utm.dfy` — the six captured parameters, the query lookup, and the UTM capture loop.
- `auth_page.dfy` — validation, and class `AuthForm` with the three form handlers.

The database, the broadcast transport and the authentication service are not
modelled. Their outcomes are parameters: `insertFails`, `updateFails`,
`queryFails`, `AuthResult`, `OAuthResult` and `crmThrows`. Each handler is
modelled as one atomic step: its awaited database call completes inside the
method that issues it, and no other handler runs in between (see "Left out"
for the interleavings this excludes). Broadcasts are recorded as event names
appended to an outbox.

Behaviour of the code worth noting:

- Every metrics update overwrites the estimation of the newest row of the session, however many times metrics arrive for it.
- Index.tsx never hides the progress indicator itself. It only emits events, and only `startWaiting` and `handleProgressChange` set progress.
- Bootstrap keeps the previously saved estimation when the newest row has a non-empty document but no estimation.

## Model

| member | source | states |
|---|---|---|
| `SessionCoordinator.Coordinator.constructor` | src/pages/Index.tsx:14-29 | Initial page state: empty document, no score, no saved estimation, hidden progress at 0, start signal 0, chat tab, no badge, no events; the table is an existing well-formed table |
| `SessionCoordinator.Coordinator.StartWaiting` | src/pages/Index.tsx:40-55 | Progress becomes exactly (visible, 12), the start signal rises by exactly 1, and `waiting-for-feature` is appended once to the page channel's outbox and once to the fail-safe channel's; nothing else changes |
| `SessionCoordinator.Coordinator.HandleProgressChange` | src/pages/Index.tsx:65-67 | Progress becomes exactly the reported (visible, value) pair; nothing else changes |
| `SessionCoordinator.Coordinator.TrackDocumentUpdate` | src/pages/Index.tsx:70-75 | The badge is raised iff it was already raised or the view is mobile, the content differs from the previously seen content, the tab is not the document tab and the content is non-empty; the previously seen content always becomes the current content |
| `SessionCoordinator.Coordinator.ClearBadgeOnDocumentTab` | src/pages/Index.tsx:78-82 | On the document tab the badge is cleared; on any other tab it is kept |
| `SessionCoordinator.Coordinator.SelectTab` | src/pages/Index.tsx:69-82 | After a tab switch and both badge effects, the badge is off on the document tab and unchanged elsewhere; the invariant (badge never on while on the document tab) is kept |
| `SessionCoordinator.Coordinator.LoadLastFeature` | src/pages/Index.tsx:85-123 | Without a user, or on a query error, nothing changes. Otherwise the user's newest row by creation time decides: a non-empty document is restored, and the estimation is replaced only when the row has one; no row or an empty document clears the document and the saved estimation |
| `SessionCoordinator.Coordinator.SetUser` | src/pages/Index.tsx:36-38 | The user ref follows the new user and the bootstrap runs for that user, with the outcomes of `LoadLastFeature` stated for the new user, including the badge its content change raises |
| `SessionCoordinator.Coordinator.SetContent` | src/pages/Index.tsx:301 | A panel's edit (chat `onFeatureChange` or editor `onChange`) becomes the document, and the badge is raised iff it was raised or the edit qualifies under the badge rule against the previous document |
| `SessionCoordinator.Coordinator.SaveFeatureToDb` | src/pages/Index.tsx:126-163 | Without a current user id, or when the insert fails, the table is unchanged; otherwise exactly one row (user id, session id, before, after, message, comment, estimation) is appended after the existing rows, stamped later than all of them |
| `SessionCoordinator.Coordinator.SaveEstimationToDb` | src/pages/Index.tsx:166-197 | Without a current user id, or when the update fails, the table is unchanged; otherwise the table becomes the attach of the metrics to the newest (user, session) row |
| `SessionCoordinator.Coordinator.HandleFeatureUpdate` | src/pages/Index.tsx:205-240 | An update with neither truthy `content` nor `text` changes nothing. Otherwise the document becomes `content || text`; the saved row goes from the content held at that moment to the new text, with message and comment defaulting to empty and no estimation; then `feature-received` and `waiting-for-metrics` are appended in that order to both outboxes |
| `SessionCoordinator.Coordinator.HandleMetricsUpdate` | src/pages/Index.tsx:246-258 | A payload without `overall` changes nothing. Otherwise the score becomes `overall`, the whole payload is attached to the newest row of the session, and `metrics-received` is appended to the outbox afterwards |
| `SessionCoordinator.OpenPage` | src/pages/Index.tsx:85-123 | A page mounted for a signed-in user over an empty table: the bootstrap finds no revision, so the document stays empty and nothing is saved or sent |
| `SessionCoordinator.FeatureRound` | src/pages/Index.tsx:205-240 | On a page with no revision yet, waiting then a feature update `{content: doc}` leave exactly one row from "" to the document with empty message and comment and no estimation, the document shown, progress at (visible, 12), and `waiting-for-feature`, `feature-received`, `waiting-for-metrics` in that order |
| `SessionCoordinator.MetricsRound` | src/pages/Index.tsx:246-256 | On a page whose session has exactly one revision, a metrics update with a numeric `overall` makes the whole payload that revision's estimation, shows the score, and appends `metrics-received` |
| `SessionCoordinator.SessionRound` | src/pages/Index.tsx:40-256 | Mount, feature update and metrics update on one page leave exactly one revision carrying the metrics, the document and score shown, the four events in order; a page mounted afterwards for the same user restores the document and its metrics as the saved estimation |
| `SessionCoordinator.FeatureUpdateThenReload` | src/pages/Index.tsx:85-163 | For a signed-in user, after an accepted feature update is saved, a page mounted afterwards over the same table restores exactly the delivered document, and the user's newest revision starts from the document held before the update |
| `Payloads.FeatureText` | src/pages/Index.tsx:207-208 | An update is accepted iff its body has a truthy `content` or a truthy `text`; the accepted text is non-empty, is `content` when that is truthy and `text` otherwise |
| `Payloads.ScoreOf` | src/pages/Index.tsx:248-250 | The score shown is the number `overall` carries, or none for `null` |
| `History.LastMatch` | src/pages/Index.tsx:95-101 | Returns a matching row with no matching row after it, and returns none iff no row matches |
| `History.Newest` | src/pages/Index.tsx:179-187 | On an ordered table, returns the matching row whose creation time is the greatest of all matching rows, and none iff no row matches |
| `History.AttachEstimation` | src/pages/Index.tsx:179-187 | The table keeps its length and creation order; every row keeps every field except possibly its estimation; with no matching row the table is unchanged |
| `History.AttachTargetsNewest` | src/pages/Index.tsx:178-187 | The one row an attach changes is the newest row matching (user, session) by creation time, and it gets exactly the given estimation; every other row is unchanged |
| `History.AttachAfterAppend` | src/pages/Index.tsx:178-187 | After a row of (user, session) is appended, attaching for that session lands on the new row, whatever older rows of the session exist |
| `History.AttachOnFirstRevision` | src/pages/Index.tsx:178-187 | Metrics attached for a session whose only row is its first revision become that revision's estimation |
| `History.AttachIdempotent` | src/pages/Index.tsx:244-256 | Attaching the same metrics twice leaves the table as attaching once does, so a duplicated metrics broadcast is harmless |
| `History.SaveThenLoad` | src/pages/Index.tsx:95-109 | After a revision of a user is appended later than every existing row, the user's newest row is that revision |
| `UtmCapture.FirstIndex` | src/pages/Auth.tsx:37 | Finds the first query pair with the given name, with no pair of that name before it, and finds none iff no pair has that name (the lookup `URLSearchParams.get` performs) |
| `UtmCapture.CaptureUtm` | src/pages/Auth.tsx:31-49 | Only the six whitelisted parameters can be keys; each of the first five is present iff the query gives it a non-empty value, and then holds exactly that value; `landing_page` is always present, the query value if non-empty, otherwise the host name; the map is therefore always stored |
| `AuthPage.SchemaIssues` | src/pages/Auth.tsx:13-20 | The schema reports exactly the failing rules and nothing else: the email message iff the email rule fails and the password message iff the password is shorter than 6 characters, email first |
| `AuthPage.ValidationError` | src/pages/Auth.tsx:72-79 | Validation passes iff the email rule holds and the password has at least 6 characters; a failure shows the first issue |
| `AuthPage.FailureMessage` | src/pages/Auth.tsx:127-128 | The error shown for a caught failure is never empty: its own message when non-empty, and the default message exactly when the message is missing or empty |
| `AuthPage.AuthForm.constructor` | src/pages/Auth.tsx:21-49 | The form starts idle, error-free, in sign-in mode, with the captured parameters of the query stored: each of the five marketing parameters iff the query gives it a non-empty value, with that value, and `landing_page` from the query or else the host name |
| `AuthPage.AuthForm.EditCredentials` | src/pages/Auth.tsx:191-195 | The email and password fields take the typed values |
| `AuthPage.AuthForm.HandleEmailAuth` | src/pages/Auth.tsx:65-138 | Loading ends false on every path. Invalid credentials show the first validation message and make no call. Otherwise exactly one sign-up or sign-in call is made, and a rejection shows its message or the default. Stored parameters are removed only after a sign-up that returned a user and whose CRM request did not throw; a throwing CRM request still leaves no error |
| `AuthPage.AuthForm.SignInWithGoogle` | src/pages/Auth.tsx:139-169 | One OAuth call is made; loading stays on iff the redirect started, and an error or throw shows its message (or the default) |
| `AuthPage.AuthForm.ToggleMode` | src/pages/Auth.tsx:227-230 | The mode flips and the error is cleared |

## Left out

- Realtime channels (src/pages/Index.tsx:48-54, 199-204, 231-241, 259-267): subscribing, delivery, the 500 ms removal of the temporary channel, and cleanup. Only the event names sent are recorded.
- HandleFeatureUpdate, HandleMetricsUpdate, LoadLastFeature: each runs as one atomic step, but in the page a handler pauses at its awaited database call (src/pages/Index.tsx:95, 143, 179, 219, 253) and other handlers may run there. Not captured: a metrics update arriving while a feature update waits on its insert, which attaches the metrics to the previous revision of the session (or to none) and sends `metrics-received` before `feature-received`; two feature updates whose inserts overlap; and a bootstrap whose query returns after a feature update, which then overwrites the newer document.
- Fail-safe sends are recorded in their own outbox, `failSafeOutbox`, unconditionally; in the page they happen only once the temporary channel reports `SUBSCRIBED` (src/pages/Index.tsx:50, 233), so a channel that never subscribes sends nothing there. They happen in a subscription callback whose timing relative to later handlers is not determined, so their interleaving with the page channel's sends is not modelled.
- Event payloads (`ts: Date.now()`, the session id) are not recorded, only event names.
- The session id is a constant given to the constructor; its generation from the clock and a random number is not modelled.
- The query builder is not modelled. The table is a sequence with a forward-only creation clock, and "order by created_at descending, limit 1" is the newest matching row. An error means no change.
- Whether the PostgREST service honours `order`/`limit` on an update is not modelled; the update is modelled by its intent, the newest row of the session.
- The mobile flag is fixed at construction; the resize tracking of the mobile hook is not modelled.
- Payload fields are modelled as optional strings; non-string JavaScript values in `content`, `text`, `userMessage` or `comment` are not modelled.
- Numbers are modelled as reals; floating-point rounding is not modelled.
- The email-format rule of the validation library is an abstract boolean input, `emailWellFormed`, computed on the trimmed address; the rule itself is not visible.
- Password length counts characters; JavaScript counts UTF-16 code units, which differs for characters outside the Basic Multilingual Plane.
- The authentication service, the CRM function call, navigation, toasts, console logging and the authenticated-session check on mount are not modelled; their outcomes are inputs or they are left out.
- The CRM request body's `email` and `name` fields are not recorded; only the spread marketing parameters are.
- JSX rendering of both pages and src/components/AuthRedirect.tsx are not part of this model.
- The progress-bar reaction to loading events lives in FeatureEditor, ChatPanel and QualityPanel, which are not part of this model.
