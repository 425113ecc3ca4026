# Push-notification backend: dispatch pipeline and user store

This project models the core of a small Express + SQLite service that sends
Expo push notifications. Two route files form one state:

- a `users` table whose rows hold a nullable Expo push token;
- a `notifications` ledger of what was sent.

The operations on that state are the routes `/register`, `/login`, `/me`,
`/push-token`, `/send`, `/send-bulk`, `/send-all` and `/history`. Each route
is a pure function of the database value (`Store.Db`), the request fields
and the external services. The routes that can write (`/register`,
`/push-token` and the three `/send*` routes) return their reply (an
`Api.Error` kind or a success value) together with the database afterwards;
the sending routes also return the chunks they submitted to the gateway, in
submission order. `/login` and `/me` return only their reply, and
`/history` returns only the rows it lists.

The Expo SDK is a `Expo.Gateway` value with three opaque parts:

- `isPushToken`, the token-validity predicate;
- `chunk`, the chunker;
- `send(i, chunk)`, the oracle that answers the `i`-th submission with a list of tickets.

Lemmas assume only two contracts about it. `ChunkerSound` says the chunks
concatenate back to the input. `OneTicketPerMessage` (or its stronger form
`AnswersPerMessage`) says the sender returns one ticket per message. bcrypt
is an opaque `Auth.Bcrypt`. `JSON.stringify` is an opaque `stringify`
parameter. `CURRENT_TIMESTAMP` is a counter `clock` that every write
advances. AUTOINCREMENT is a next-id counter per table. `Store.Wf` states
the schema's constraints: a positive increasing primary key, unique emails,
ledger ids and creation times increasing in insertion order, and every
ledger row referencing an existing user.

Modules: `Base` (Option, Result, filter/map/flatten), `Store` (tables,
invariant, inserts), `Expo` (gateway, submission loop, ticket defaults),
`Api` (error kinds), `Auth`, `Notifications` (the routes),
`NotificationFacts` (properties of the routes) and `BulkAlignment` (the
finding below).

The routes, as written:

- `/send` answers one error for both an unknown user and a missing token. It does not split them into two kinds.
- No route checks that the ticket count matches the message count, so there is no result-mismatch error.
- The bulk ledger write is a loop of separate inserts, not one transaction.
- The bulk route writes one row per queried user, not one per message sent. See Findings.
- The broadcast route writes no ledger rows.

## Model

| member | source | states |
|---|---|---|
| Store.EmptyDb | src/db/database.js:10-35 | a fresh database has empty tables and satisfies the schema invariant |
| Store.FindById | src/routes/notifications.js:18 | the lookup by id returns a row with that id, and returns nothing exactly when no row has it |
| Store.FindByEmail | src/routes/auth.js:23 | the lookup by email returns a row with that email, and returns nothing exactly when no row has it |
| Store.FindByIdUnique | src/db/database.js:12 | under the primary-key constraint, the lookup by a row's id returns that very row |
| Store.Insert | src/routes/notifications.js:45-55 | one insert appends exactly one row with the next id and the current time as `sent_at` and `created_at`, and leaves users alone |
| Store.InsertAll | src/routes/notifications.js:106-118 | the insert loop appends one row per entry in order, with consecutive ids and times, and keeps the earlier ledger as a prefix |
| Store.InsertPreservesWf | src/db/database.js:20-31 | inserting a row that references an existing user keeps ids and creation times increasing and the foreign key satisfied |
| Store.InsertAllPreservesWf | src/routes/notifications.js:106-118 | a loop of such inserts keeps the schema invariant |
| Expo.Submit | src/routes/notifications.js:39-42 | the submission loop loses no reply: every chunk's reply fits within the gathered ticket list, and the list is empty exactly when every reply is empty |
| Expo.SubmitFlattensReplies | src/routes/notifications.js:36-42 | the ticket list gathered by the submission loop is the in-order concatenation of the per-chunk replies |
| Expo.TicketCountMatches | src/routes/notifications.js:97-103 | with a sound chunker and one ticket per message, a request gets back exactly as many tickets as messages |
| Expo.TicketsAlignWithMessages | src/routes/notifications.js:157-163 | when the sender answers message by message, ticket `i` answers message `i`, however the chunker split the list |
| Expo.StatusAt | src/routes/notifications.js:52 | a recorded status is never empty: the ticket's status when there is a ticket with a non-empty status, otherwise `"error"` |
| Expo.WithUserId | src/routes/notifications.js:90 | the message payload has the caller's keys plus `userId`, the recipient's id overrides any caller `userId`, and every other key keeps its value |
| Base.Utf16Length | src/routes/auth.js:18 | a string's JavaScript length is at least its character count and at most twice it |
| Base.Utf16LengthIsCount | src/routes/auth.js:18 | the JavaScript length equals the character count exactly when no character lies outside the Basic Multilingual Plane |
| Base.Utf16LengthAppend | src/routes/auth.js:18 | the JavaScript length of a concatenation is the sum of the lengths |
| Auth.Register | src/routes/auth.js:14-46 | missing credentials, a password under 6 UTF-16 code units (JavaScript's `.length`) and a taken email each fail with their own error and change nothing; success is exactly the remaining case, adds one user with the hashed password and no token, and returns the new row's id |
| Auth.PasswordLengthCountsCodeUnits | src/routes/auth.js:18-20 | the length rule counts UTF-16 code units: a password of three astral characters (six code units) is accepted, and one of five ASCII characters is refused as too short |
| Auth.AstralPasswordLength | src/routes/auth.js:18 | three astral characters are three characters but six UTF-16 code units |
| Auth.RegisterPreservesWf | src/routes/auth.js:23-35 | registration keeps the schema invariant, so no two users ever share an email |
| Auth.RegisterTwiceRefused | src/routes/auth.js:23-26 | a second registration with the same email is refused as `EmailInUse` and changes nothing |
| Auth.RegisterThenMe | src/routes/auth.js:29-46 | after a registration, `/me` for the returned id shows the registered email and no push token |
| Auth.RegisterThenLogin | src/routes/auth.js:64-73 | after a registration, logging in with the same password returns the new account, given that bcrypt accepts a password against its own hash |
| Auth.Login | src/routes/auth.js:59-84 | missing credentials are a 400; an unknown email and a wrong password give the same `InvalidCredentials`; success returns a stored account whose hash matched |
| Auth.LoginSucceedsIff | src/routes/auth.js:64-73 | with unique emails, login succeeds exactly when the password matches the hash of the one account with that email |
| Auth.Me | src/routes/auth.js:95-101 | `/me` fails with `UserNotFound` exactly when no row has the caller's id; otherwise it returns that row's id, email, token and creation time, and no password |
| Auth.SetPushToken | src/routes/auth.js:113-122 | an empty token is a 400 and changes nothing; otherwise the reply is success, only the caller's rows change, their token becomes the given one with no format check, and ids, emails, hashes, creation times and the ledger are unchanged |
| Auth.SetPushTokenPreservesWf | src/routes/auth.js:117-120 | a token update keeps the schema invariant |
| Auth.SetPushTokenThenMe | src/routes/auth.js:117-120 | after an existing user stores a token, `/me` reports that token |
| Auth.AccountRouteStatusCodes | src/routes/auth.js:14-115 | every refusal of `/register` and `/push-token` is a 400; a failed `/login` is a 400 when a credential is missing and a 401 otherwise; a missing `/me` user is a 404 |
| Notifications.StoredToken | src/routes/notifications.js:18-22 | the token `/send` uses is present exactly when the user exists and holds a non-empty token |
| Notifications.Recipients | src/routes/notifications.js:78-81 | the recipient query returns exactly the asked-for users whose token is not NULL, as (id, token) pairs |
| Notifications.Messages | src/routes/notifications.js:83-91 | the filter and map build at most one message per queried row, and every message goes to a token the gateway accepts |
| Notifications.MessagesAreReachableUsers | src/routes/notifications.js:83-91 | the query, the token filter and the message map send exactly one message to each asked-for user whose token the gateway accepts, in table order |
| Notifications.Send | src/routes/notifications.js:14-61 | missing fields, an unknown user or missing token, and a rejected token each fail with their own error, submit nothing and change nothing; on success one message to the stored token with `data` or `{}` is chunked, and exactly one row is appended with the request's user id, the first ticket's status or `"error"`, and its id or null |
| Notifications.SendBulk | src/routes/notifications.js:73-123 | missing fields or a non-array `userIds` fail with their own error; the route fails with `NoValidRecipients`, submitting and writing nothing, exactly when no asked-for user holds an accepted token; on success it returns the gathered tickets and appends one row per queried user, row `i` paired with ticket `i` |
| Notifications.SendAll | src/routes/notifications.js:135-168 | the database is never changed; missing fields fail with their own error, and the route fails with `NoValidRecipients`, submitting nothing, exactly when no user holds an accepted token; on success the reported count is the number of tickets gathered |
| Notifications.History | src/routes/notifications.js:178-183 | history returns exactly min(50, the number of the caller's ledger rows) rows, all of them the caller's |
| NotificationFacts.SendTargetsStoredToken | src/routes/notifications.js:18-36 | with unique ids, `/send` to an existing user succeeds exactly when that user's token is non-empty and accepted, and the one message submitted goes to that token |
| NotificationFacts.SendUnknownUserRejected | src/routes/notifications.js:20-22 | `/send` to an id no user has fails with `UserOrTokenMissing`, submits nothing and changes nothing |
| NotificationFacts.SendRecordsItsTicket | src/routes/notifications.js:36-61 | with one ticket per message, `/send` gets exactly one ticket, reports it, and records its status |
| NotificationFacts.SendPreservesWf | src/routes/notifications.js:45-59 | `/send` keeps the schema invariant, and the reported notification id is above every earlier row's id |
| NotificationFacts.SendingRouteStatusCodes | src/routes/notifications.js:14-155 | every refusal of `/send`, `/send-bulk` and `/send-all` is a 400 |
| NotificationFacts.BulkMessagesAreReachableUsers | src/routes/notifications.js:83-103 | the bulk messages are one per asked-for user whose token is accepted, in table order, each carrying that user's id as `userId` |
| NotificationFacts.BulkRecordsOutnumberMessages | src/routes/notifications.js:106-118 | the bulk route writes at least as many rows as messages sent, and exactly as many only when every queried user's token is accepted |
| NotificationFacts.BulkTrailingRecordsDefault | src/routes/notifications.js:114-115 | with one ticket per message, every bulk row past the number of messages falls back to `"error"` and a null ticket id |
| NotificationFacts.BulkPreservesWf | src/routes/notifications.js:106-118 | the bulk route keeps the schema invariant: every row it writes references an existing user |
| NotificationFacts.BroadcastReachesEveryValidToken | src/routes/notifications.js:139-168 | the broadcast messages are one per user holding an accepted token, in table order, and with one ticket per message the count is the number of such users |
| NotificationFacts.OwnRowsIncreasing | src/routes/notifications.js:178-179 | the caller's ledger rows, in ledger order, have strictly increasing creation times |
| NotificationFacts.HistoryNewestFirst | src/routes/notifications.js:179 | history lists the caller's rows in strictly decreasing creation time |
| NotificationFacts.NewestSuffix | src/routes/notifications.js:179 | taking the first rows of a newest-first listing leaves out only rows older than every row kept |
| NotificationFacts.HistoryKeepsNewest | src/routes/notifications.js:178-181 | every caller row history leaves out is older than all it shows, and with at most 50 rows it leaves none out |
| BulkAlignment.BulkLedgerMisaligned | src/routes/notifications.js:106-118 | on a table where user 1's token is rejected and user 2's accepted, the ledger credits user 2's ticket to user 1 and records user 2 as an error |
| BulkAlignment.SendBulkAligned | src/routes/notifications.js:73-123 | the corrected bulk route gives the same reply and submissions, and writes one row per recipient that was sent a message, row `i` paired with ticket `i` |
| BulkAlignment.AlignedRecordsMatchMessages | src/routes/notifications.js:106-118 | in the corrected route, with one ticket per message, there is one row per message, row `i` belongs to the user whose id message `i` carries, and its status and id come from ticket `i` |
| BulkAlignment.AlignedRecordsCarryOwnTicket | src/routes/notifications.js:106-118 | in the corrected route, when the gateway answers message by message, each user's row records the status of that user's own ticket |
| BulkAlignment.AlignedPreservesWf | src/routes/notifications.js:106-118 | the corrected route keeps the schema invariant |

## Findings

| source | as written | input that shows it | evidently intended | confidence | as-written member | corrected member |
|---|---|---|---|---|---|---|
| src/routes/notifications.js:106-118 | the ledger loop runs over every queried user and pairs `users[i]` with `tickets[i]`. Tickets exist only for users whose token passed `isExpoPushToken`, so after the first rejected token each row gets the next user's ticket, and the last rows fall back to `'error'`/`null` | `userIds` `[1, 2]`; user 1 holds a token the gateway rejects and user 2 one it accepts. Row 1 is recorded `"ok"` with user 2's ticket id. Row 2 is recorded `"error"` with a null id | one row per message sent, each paired with the ticket for that same message | high; not executed | BulkAlignment.BulkLedgerMisaligned | BulkAlignment.SendBulkAligned |

`Notifications.SendBulk` stays as written, because it models what the route
does. `BulkAlignment.SendBulkAligned` is the corrected route, and the
intended properties are proved about it.

## Left out

- HTTP plumbing: Express routing, response bodies and message texts, and the catch-all 500 handlers. Each outcome is an error kind or a success value.
- The authentication middleware is not part of this model. The caller of `/me`, `/push-token` and `/history` is a plain input, and `/send*` take no caller.
- JWT signing and expiry: the register and login replies carry the account but not the token.
- bcrypt is opaque. `hash` is a function of the password, so the model does not capture that real bcrypt salts are random.
- Expo SDK internals (the push-token grammar, the maximum chunk size, the network) are opaque gateway functions. No chunk size is fixed.
- `JSON.stringify` is an opaque `stringify` parameter.
- JSON object key order: a payload (`Store.Payload`, and `Obj` values inside it) is a map, so the order of its keys is lost. `JSON.stringify` writes keys in object order, so `{"a":1,"b":2}` and `{"b":2,"a":1}` give different `data` text in the source but the same `stringify` result in the model. Likewise `{ ...data, userId }` appends `userId` last unless the caller sent one; the model states only the keys and their values.
- Notifications.Send: the stored `data` column is `stringify` of an unordered payload, so the contract cannot tell apart two requests whose `data` objects differ only in key order, while the source stores different text for them.
- Notifications.SendBulk: the same holds for the `data` column of every bulk row.
- `CURRENT_TIMESTAMP` has one-second resolution, and SQLite orders equal `created_at` values arbitrarily. The model's clock is strictly increasing, so `/history` breaks such ties by insertion order.
- The bulk and broadcast queries have no `ORDER BY`. The model returns rows in table (insertion) order.
- Request fields of unexpected JSON types are not modelled. `userId` is an integer, and a string id that SQLite would coerce is left out. `data` is an object or absent, and a truthy non-object `data` such as a string is left out. `password` is a string, and its length is counted in UTF-16 code units, as `.length` counts it.
- JSON numbers in payloads are integers.
- `send-notification.js` is a command-line duplicate of `/send-all` and is not part of this model.
- `src/db/database.js` contributes only the schema: column defaults and the UNIQUE and FOREIGN KEY constraints in `Store.Wf`. The mismatch between its synchronous handle and the routes' async calls is not modelled.
- Concurrency and atomicity: requests are modelled one at a time. A storage failure part-way through the bulk insert loop is not modelled.
- Notifications.History: the function's own contract states the exact row count and that the rows belong to the caller. Ordering and completeness are in the `NotificationFacts` history lemmas, which need the ledger invariant.
