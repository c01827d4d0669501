# Gmail-to-SQLite prototype: main-process back end in Dafny

This project models the back end of an Electron prototype that signs a user in to Gmail with the OAuth2 authorisation-code flow and copies the account's messages into a local SQLite database. The model covers four parts:

- **Token manager** (`main/auth.js`, module `Auth`). Three mutable cells: the redirect URI, the lazily created OAuth2 client, and the credential store's `"gmail-token"` slot. `GetAuthUrl` installs the loopback URI of a truthy port. `HandleAuthCallback` exchanges the code against whatever redirect URI is in force. `GetOAuth2Client` fails when no token is stored.
- **Message normaliser** (`main/gmail.js`, module `Gmail`). `ProcessEmail` flattens a Gmail message. It sets the subject, sender, recipient and date from the first header with that exact name. The body comes from the first `text/plain` or `text/html` part when there are parts, and from the payload's own body otherwise. A missing payload, header list or part body raises the TypeError the JavaScript would throw. `FetchEmails` lists ids and normalises each fetched message. The result keeps listing order and fails as a whole.
- **Local store** (`main/database.js`, module `Database`). `emails` is a map from id to row and `email_labels` is a set of `(id, label)` pairs. `SaveEmails` runs the batch of INSERT OR REPLACE statements as one transaction on working copies, and commits only if every email is written. The two read statements, `GetEmails` and `GetEmailById`, name result columns with the bare words `from` and `to`. SQLite's parser does not accept `from` as a bare alias, so `prepare` throws a syntax error on every call to either of them (see "## Findings"). The corrected reads, `GetEmailsIntended` and `GetEmailByIdIntended`, quote those aliases. The paged one orders rows by `internal_date` descending, compared as TEXT, then applies SQLite's LIMIT/OFFSET; the other is the point read.
- **Loopback server and IPC handlers** (`main/index.js`, module `Index`). `React` is the request handler's decision. The `App` class holds the module-level `authServer`, the window flag, this file's own `db` handle and the close timers, and its methods are the `get-auth-url`, `handle-auth-callback`, `fetch-emails`, `get-emails`, `get-email-by-id` and `check-database` handlers. The two read handlers come as written, always failing with the syntax error, and over the corrected reads.

The external calls are parameters that share one meaning throughout:
- `list` and `get` are the Gmail API's `users.messages.list` and `get`.
- `decode` is `Buffer.from(data, "base64").toString("utf-8")`.
- `generate` is `generateAuthUrl`.
- `exchange(code, redirectUri)` is `getToken`.
- `fault(e)` is the error SQLite raises while writing email `e`, if any.
- `storeError` is the error the credential store raises when a token is written, if any.
- `boundPort` is the port the operating system assigns when the server listens on port 0.

Some behaviour is modelled as the code has it, not as a cleaned-up design would have it:
- A re-save adds labels and never removes them. An email's stored labels are its old labels plus every label listed by the batch (`Database.SaveAllLabels`, `Database.LabelsAccumulate`). A point read through the corrected statement (`Database.EmailStore.GetEmailByIdIntended`) after a save returns exactly the email's label set when every label stored for it before is among the ones it lists, in particular when none were stored (`Database.SaveOneThenFind`).
- The body is taken from the first part that is either plain text or HTML. Plain text is not preferred (`Gmail.FirstTextPartWins`). If that part has no data, the body is empty and no later part is tried (`Gmail.SelectedPartWithoutDataGivesEmptyBody`).
- The code has no single-flight guard, no listener timeout, no token refresh-retry and no redirect-mismatch error kind.
- Each `get-auth-url` starts a fresh server and leaves the previous one listening.
- The 6000 ms close timer shuts whichever server is current when it fires. A callback that reaches an older server therefore closes the newer one and leaves the older one open (`Index.StaleServerStaysOpen`).
- The code exchange always uses the redirect URI of the most recent server (`Index.App.SubmitAuthCode`, `Index.App.Valid`), whichever server received the code.
- `get-emails` and `get-email-by-id` always answer `{success: false, error: 'near "from": syntax error'}` (`Index.App.GetEmailsHandler`, `Index.App.GetEmailByIdHandler`). They never return a record or "Email not found".
- The corrected paged read (`Database.EmailStore.GetEmailsIntended`) orders by `internal_date` compared as TEXT; the statement as written never gets that far. For digit strings of the same width this is numeric order (`Database.TextOrderIsNumericForEqualWidth`), but `"1000"` sorts below `"999"` (`Database.TextOrderIsNotNumeric`).

## Model

| member | source | states |
|---|---|---|
| `Auth.Consent` | main/auth.js:43-48 | the consent request asks for offline access, exactly the `gmail.readonly` scope, forced consent, and carries the given redirect URI |
| `Auth.Decimal` | main/auth.js:38 | a port renders as a non-empty string of decimal digits, one digit exactly when the port is below 10 |
| `Auth.DecimalInjective` | main/auth.js:38 | different port numbers render as different strings |
| `Auth.DecimalDenotes` | main/auth.js:38 | the decimal rendering of a port is a digit string whose numeric value is that port |
| `Auth.LoopbackUriIdentifiesPort` | main/auth.js:36-39 | two loopback URIs are equal exactly when their ports are, and no loopback URI equals the default `http://127.0.0.1` |
| `Auth.RedirectIsLastTruthyPort` | main/auth.js:36-39 | after a series of consent-URL requests the redirect URI is the loopback URI of the most recent truthy port; with no truthy port (absent or 0) it is still the starting URI |
| `Auth.TokenManager.constructor` | main/auth.js:9-12 | the process starts with redirect URI `http://127.0.0.1`, no client, and the persisted token slot |
| `Auth.TokenManager.InitAuth` | main/auth.js:15-28 | creates a new client that holds the stored token when there is one, replacing any client; nothing else changes |
| `Auth.TokenManager.EnsureClient` | main/auth.js:32-34 | a client is created only when there is none; an existing client is kept |
| `Auth.TokenManager.GetAuthUrl` | main/auth.js:31-49 | a truthy port installs `http://127.0.0.1:<port>`, a falsy one leaves the URI unchanged; the URL is generated from the consent request for the URI now in force; the token slot is untouched |
| `Auth.TokenManager.HandleAuthCallback` | main/auth.js:52-87 | the code is exchanged against the redirect URI in force; on success the client credentials and stored token both become the returned tokens and the result is success; a failed exchange returns its message and changes neither; a failed store write returns its message after the credentials were set |
| `Auth.TokenManager.GetOAuth2Client` | main/auth.js:90-118 | fails with the "No authentication token found" message when the slot is empty, otherwise returns the (lazily created) client; only the lazy creation changes state |
| `Gmail.Find` | main/gmail.js:50 | returns the index of the first element satisfying the predicate, or nothing exactly when no element does |
| `Gmail.HeaderValue` | main/gmail.js:49-53 | the value of the first header whose name equals the given one exactly, or the default when there is no such header or its value is empty |
| `Gmail.ExtractBody` | main/gmail.js:56-69 | with a non-empty part list the first plain-text or HTML part alone decides: its decoded data, "" when it has none, a TypeError when it has no body, "" when no part qualifies; otherwise the decoded payload body or "" |
| `Gmail.ProcessEmail` | main/gmail.js:45-83 | fails with the TypeError for a missing payload or header list or a selected part without body; otherwise id, thread id, label ids, snippet and internal date are copied unchanged, subject defaults to the no-subject marker, sender/recipient/date to "", and the body is the selected one |
| `Gmail.FetchAll` | main/gmail.js:26-35 | one record per listed id in listing order when every fetch and normalisation succeeds; otherwise the error of one failing message and no records |
| `Gmail.FetchEmails` | main/gmail.js:5-42 | fails with the no-token error when no token is stored and with the listing's error when listing fails; an absent or empty listing gives no records; otherwise the all-or-nothing, order-preserving fetch of the listed ids |
| `Gmail.FirstTextPartWins` | main/gmail.js:59-61 | an HTML part ahead of a plain-text part supplies the body |
| `Gmail.SelectedPartWithoutDataGivesEmptyBody` | main/gmail.js:57-66 | a selected part without data gives an empty body although a later part and the payload body hold data |
| `Database.PairsMembership` | main/database.js:83-87 | the label pairs written for an email are exactly its id paired with each listed label, duplicates collapsing |
| `Database.SaveAllRows` | main/database.js:55-59 | after a save an id is stored exactly when it was before or is in the batch; rows of ids outside the batch are unchanged |
| `Database.LastSaveWins` | main/database.js:67-80 | the row of an id holds the scalar fields of the last email in the batch with that id |
| `Database.SaveAllLabels` | main/database.js:83-87 | the stored label pairs after a save are the old ones together with those of every batch email whose label list is present; nothing is removed |
| `Database.SaveKeepsLabelsReferencingRows` | main/database.js:33-40 | a save keeps every label pair pointing at a stored email |
| `Database.SaveIsIdempotent` | main/database.js:55-65 | saving the same batch twice leaves both tables as saving it once |
| `Database.LabelsAccumulate` | main/database.js:62-65 | a re-save never removes a label already stored for an email |
| `Database.FindById` | main/database.js:138-160 | the corrected point read yields nothing exactly when the id is not stored |
| `Database.SaveThenFind` | main/database.js:133-161 | a corrected point read after a save returns the fields of the last batch email with that id, and labels that are the previously stored ones plus those listed by every batch email with that id |
| `Database.SaveOneThenFind` | main/database.js:156-160 | saving one email whose previously stored labels are all among the ones it lists (or none) reads back, through the corrected point read, as that email, with its label list as a set |
| `Database.TextLessIrreflexive` | main/database.js:119 | no TEXT value sorts before itself |
| `Database.TextLessTransitive` | main/database.js:119 | the TEXT order is transitive |
| `Database.TextLessTotal` | main/database.js:119 | of two distinct TEXT values one sorts before the other |
| `Database.TextOrderIsNotNumeric` | main/database.js:27 | as TEXT, `"1000"` sorts before `"999"` |
| `Database.TextOrderIsNumericForEqualWidth` | main/database.js:27 | for digit strings of one width, TEXT order is numeric order |
| `Database.InsertByDate` | main/database.js:119 | inserting an id into a newest-first list keeps it newest-first and duplicate-free, adding exactly that id |
| `Database.OrderByDate` | main/database.js:116-119 | the ORDER BY of the corrected paged read: lists every stored id exactly once, most recent `internal_date` first, compared as TEXT |
| `Database.SqlPage` | main/database.js:120 | the LIMIT/OFFSET of the corrected paged read: skips `offset` rows (a negative offset counts as 0), keeps at most `limit` (a negative limit keeps all), in order |
| `Database.Summaries` | main/database.js:126-129 | in the corrected paged read, one summary per listed id, in list order, carrying that row's columns except the body and exactly the labels stored for the id; the label set is empty exactly when no label pair names the id |
| `Database.FirstPageIsNewest` | main/database.js:119-120 | in the corrected paged read, no stored row left off the first page is more recent than a row on it |
| `Database.FirstPageOfThree` | main/database.js:111-123 | for rows dated 100, 300 and 200 the corrected paged read's first page of two is the rows dated 300 and 200, in that order |
| `Database.EmailStore.constructor` | main/database.js:5 | the module starts with no handle, over the database file as found |
| `Database.EmailStore.InitDatabase` | main/database.js:8-43 | opens the handle and creates the tables only when absent; stored data is kept, so a second call changes nothing |
| `Database.EmailStore.EnsureOpen` | main/database.js:47-49 | the database is initialised when the handle is not set; the tables are unchanged |
| `Database.EmailStore.SaveEmails` | main/database.js:46-103 | returns the batch length and commits the batch when no write fails; otherwise rethrows the first failing email's error and leaves both tables as before |
| `Database.PrepareError` | main/database.js:111-121 | `prepare` throws SQLite's `near "<word>": syntax error` at the first result column whose alias is a bare reserved word, compared without case, and succeeds exactly when there is none; the reserved words are a listed subset of SQLite's reserved words that never fall back to identifiers |
| `Database.QuoteReserved` | main/database.js:113-114 | quoting the rejected aliases keeps every column's expression and name, changes no accepted column, and leaves a list that prepares |
| `Database.ListStatementDoesNotPrepare` | main/database.js:111-114 | the paged read's result columns, as written, fail to prepare with `near "from": syntax error` |
| `Database.PointStatementDoesNotPrepare` | main/database.js:138-141 | the point read's result columns, as written, fail to prepare with `near "from": syntax error` |
| `Database.EmailStore.ListEmails` | main/database.js:106-130 | the handle is opened first; a rejected column list throws its parse error; otherwise the page of summaries (no body) of some newest-first order of all rows, with limit 100 and offset 0 by default; the tables are unchanged |
| `Database.EmailStore.GetEmails` | main/database.js:106-130 | as written: after opening the handle, every call throws `near "from": syntax error`, whatever the tables hold; the tables are unchanged |
| `Database.EmailStore.GetEmailsIntended` | main/database.js:106-130 | with the aliases quoted: the page of summaries (no body) of some newest-first order of all rows, defaults 100 and 0; the tables are unchanged |
| `Database.EmailStore.ReadEmail` | main/database.js:133-161 | the handle is opened first; a rejected column list throws its parse error; otherwise nothing for an unknown id and the full row with body and label set for a stored one; the tables are unchanged |
| `Database.EmailStore.GetEmailById` | main/database.js:133-161 | as written: after opening the handle, every call throws `near "from": syntax error`, for every id; the tables are unchanged |
| `Database.EmailStore.GetEmailByIdIntended` | main/database.js:133-161 | with the aliases quoted: nothing for an unknown id, otherwise the full row with body and its label set; the tables are unchanged |
| `Index.React` | main/index.js:47-90 | 200 with the HTML success page and a scheduled close exactly when the path is `/` and `code` is truthy; every other request gets 404 with no body, no forwarding and no close; the code is forwarded only when the window is available |
| `Index.Server.constructor` | main/index.js:94-98 | a new server listens on the port it was given |
| `Index.App.constructor` | main/index.js:20-22 | no auth server, no handle, no codes sent, no timers |
| `Index.App.GetAuthUrlHandler` | main/index.js:137-152 | a fresh listening server on the assigned port becomes `authServer`, the redirect URI becomes that port's loopback URI and the URL is generated for it; the previous server is left as it was |
| `Index.App.HandleAuthRequest` | main/index.js:46-91 | a request received by a listening server gets the response `React` decides, its forwarded code is appended to the codes sent and its close is counted; the current server is not changed, whichever server received the request |
| `Index.App.FireCloseTimer` | main/index.js:79-85 | a fired timer leaves the current server, whichever it is, not listening |
| `Index.App.SubmitAuthCode` | main/index.js:154-165 | the code is exchanged against the loopback URI of the most recent server; result and stored token follow the exchange |
| `Index.App.FetchEmailsHandler` | main/index.js:167-189 | `maxResults` defaults to 100 when falsy; a failure leaves the tables unchanged; a success reports the fetched count and emails, all fetched in order with no write fault, and the tables become the saved batch; an empty list leaves the store wholly unchanged; the stored token and redirect URI stay, and only the lazy client creation changes the token manager |
| `Index.App.GetEmailsHandler` | main/index.js:191-203 | as written: always the failure carrying the read's syntax error message; the tables are unchanged |
| `Index.App.GetEmailsHandlerIntended` | main/index.js:191-203 | over the corrected read: success with the page of some newest-first order of the stored rows |
| `Index.App.GetEmailByIdHandler` | main/index.js:205-220 | as written: always the failure carrying the read's syntax error message, never the record nor "Email not found"; the tables are unchanged |
| `Index.App.GetEmailByIdHandlerIntended` | main/index.js:205-220 | over the corrected read: the stored record, or failure "Email not found" for an unknown id |
| `Index.App.CheckDatabaseHandler` | main/index.js:223-259 | in a state where this module's handle is set only over an existing schema: the handle is initialised and the tables, server, window flag, codes and timers are unchanged; the row count; `sample` and `sampleData` present exactly when the count is positive, `sampleData` carrying a stored row's id, subject and sender |
| `Index.StaleServerStaysOpen` | main/index.js:78-85 | after two consent flows, a callback received by the first server and its timer close the second server and leave the first listening |

## Left out

- Electron window lifecycle (`createMainWindow`, `app.whenReady`, `window-all-closed`, `activate`): the window is one availability flag, and the start-up calls of `initAuth` and `initDatabase` are not sequenced.
- `main/preload.js` and the renderer: IPC forwarding and UI. They are not part of this model.
- Network calls to Google, Base64 and UTF-8 decoding, and the HTTP server and URL parser are abstract parameters. Requests arrive already parsed. The oracles do not see the client's credentials.
- Timers and real time: the 6000 ms delay and the page's 5 s auto-close script become a count of scheduled closes and an explicit firing step.
- `Promise.all` parallelism: every `get` is issued even after one fails, and which rejection wins depends on timing. The model states only that the error comes from some failing message.
- The `created_at` column: it comes from the clock.
- SQLite errors other than a failure while writing an email and the parse error of the two read statements: failing reads and the catch branch of `check-database`.
- Foreign-key enforcement: label pairs referencing stored rows is kept as an invariant, but a violation error is not modelled.
- `GROUP_CONCAT` and `split(",")`: labels are read back as a set. A label containing a comma, or a lone empty label, would read back differently in the code.
- JavaScript `undefined` and SQL `NULL` in message fields: id, thread id, snippet, internal date and header values are strings. Only the payload, header list, part body, body data and label list may be absent.
- A listen failure: the server's promise would never settle.
- Interleaving of handlers: each IPC handler and each request runs to completion on its own, one at a time. In the code the `listen` callback (main/index.js:94-97) reads the global `authServer`. Two overlapping `get-auth-url` calls can therefore resolve the first with the second server's port, or throw when that server is not yet bound. The model does not capture this.
- Requests on a closed server: a request is handled only by a listening server. A request on a kept-alive connection to a server that has already been closed is not modelled.
- A non-string code passed to `handle-auth-callback`: the code is a string here.
- OAuth2 client configuration: the environment's client id and secret, and the redirect URI given to the client's constructor. Every call overrides that URI with an explicit one.
- Logging.
- The token record's contents: the core never inspects them.
- Index.App.SubmitAuthCode: states the result and the stored token only. The client credentials and the store-write failure are stated on `Auth.TokenManager.HandleAuthCallback`.
- Index.App.FetchEmailsHandler: does not pin the failure message for a failing listing, fetch or write. Those messages are stated on `Gmail.FetchEmails` and `Database.EmailStore.SaveEmails`.
- Database.PrepareError: it checks only the result-column aliases, against the subset of SQLite's reserved words listed in `ReservedWords`; the rest of each statement's text is taken to parse.
- Database.EmailStore.GetEmailsIntended: ties among equal dates may come in any order, as SQLite leaves them, so the result is stated for some date order rather than one fixed order.

## Findings

| source | as written | input that shows it | evidently intended | confidence | as-written member | corrected member |
|---|---|---|---|---|---|---|
| main/database.js:113 | the paged read aliases `e.sender as from`; `from` is a reserved word SQLite never takes as a bare name, so `prepare` throws `near "from": syntax error` | any call `getEmails()`, on any data | the aliases quoted (`as "from"`, `as "to"`), giving the newest-first page | high (not executed) | `Database.EmailStore.GetEmails` | `Database.EmailStore.GetEmailsIntended` |
| main/database.js:140 | the point read has the same bare alias `from`, so `prepare` throws for every id | any call `getEmailById("x")`, on any data | the aliases quoted, giving the record or null | high (not executed) | `Database.EmailStore.GetEmailById` | `Database.EmailStore.GetEmailByIdIntended` |
