# Table generator core in Dafny

A model of the small core of a browser table generator. A user fills in a form,
a hosted text-generation service returns a table as JSON, and the page shows it and
exports it as tab-separated text. A separate store module saves tables to a
per-user document store and fetches them back; this revision's page does not call
it. The model covers three pieces:

- **The table store** (`firestore_service.dfy`). It covers the two converters
  between the app's table shape (`header`, `rows` as lists of cell lists) and the
  store's shape (each row wrapped in a `{cells}` record). It also covers saving a
  table and fetching a user's five newest tables. The document store is a class
  holding one collection per user and a monotone clock that stamps each save.
- **The page state** (`app.dfy`). This covers the generate gate (`canGenerate`)
  and the generation step, which forces the first header cell to `"Number"`. It
  also covers the tab-separated export, built with loops as in the source, and the
  form reset.
- **The authentication session** (`auth_context.dfy`). A provider class holds the
  current user, the busy flag of sign-in, sign-up and sign-out, and the
  initial-check flag. It models the auth-change notification, the three forwarding
  operations and the render gate.

`interfaces.dfy` holds the shared data shapes. `js_strings.dfy` holds the
JavaScript string built-ins the page relies on: `trim`, `join` and `split`. Here
`split` is the inverse that the export's line-count property is stated with.
`wrappers.dfy` holds `Option`, `Result` and `Outcome`.

External services become parameters:

- Creating the text-generation client is an optional thrown value. That step comes
  before the `try`, so its throw escapes with the page still busy.
- The text-generation call is a `Result` holding the optional response text or
  what the call threw.
- `JSON.parse` is a function parameter.
- The identity service's sign-in and sign-up are function parameters. Its
  sign-out is an `Outcome` value.
- The store's chosen document id is a parameter, and so is a failure of a store
  read or write.

Each asynchronous operation is one sequential step. Where the source awaits in
the middle of an operation, the model splits it at the `await`:
`BeginGeneration`/`FinishGeneration` and `BeginCall`/`EndCall`. The state between
the two halves is what the page shows while a call is in flight.

Facts about this revision of the code that the model keeps:

- The export is tab-separated, although the file is named the title plus `.csv`.
  No characters are stripped from the name.
- Saving has no limit on the number of records per user. A save always adds a
  record. The limit of five exists only on the fetch's query.

The object spread `...params` in the saved document is modelled as one nested
`params` field. It holds the same five values.

## Model

| member | source | states |
|---|---|---|
| `FirestoreService.WrapRows` | src/firebase/FirestoreService.ts:27 | same number of records as rows; the i-th record's `cells` is the i-th row |
| `FirestoreService.UnwrapRows` | src/firebase/FirestoreService.ts:35 | same number of rows as records; the i-th row is the i-th record's `cells` |
| `FirestoreService.ConvertToFirestoreFormat` | src/firebase/FirestoreService.ts:24-29 | header passed through; rows kept in order and count, each wrapped as `{cells: row}` |
| `FirestoreService.ConvertFromFirestoreFormat` | src/firebase/FirestoreService.ts:32-37 | header passed through; each record's `cells` returned in order, same count |
| `FirestoreService.RoundTrip` | src/firebase/FirestoreService.ts:24-37 | decoding an encoded app table gives back the table |
| `FirestoreService.ReverseRoundTrip` | src/firebase/FirestoreService.ts:24-37 | encoding a decoded stored table gives back the stored table, since a row record has only `cells` |
| `FirestoreService.QueryNewest` | src/firebase/FirestoreService.ts:74-78 | over a chronological collection: min(n, size) records, strictly newest first, and every record left out is older than every record returned |
| `FirestoreService.TableStore.SaveTableToFirestore` | src/firebase/FirestoreService.ts:40-66 | empty user id fails with its message and changes nothing; a store failure is passed on and changes nothing; otherwise exactly one record is appended to that user's collection and other users' collections are unchanged. The record holds the id, the owner, every parameter, the converted table and the next stamp. The saved id is returned |
| `FirestoreService.TableStore.GetLastFiveUserTables` | src/firebase/FirestoreService.ts:69-100 | empty user id fails with its message; a store failure is passed on; otherwise at most five of the user's records, newest first by `createdAt`, all newer than the records left out, each with its table decoded and every other field unchanged |
| `FirestoreService.Decoded` | src/firebase/FirestoreService.ts:85-93 | a fetched record keeps the document's id, owner, parameters and stamp, and its decoded table encodes back to the stored table |
| `FirestoreService.SavedTableFetchesBack` | src/firebase/FirestoreService.ts:51-56 | a saved record, once fetched and decoded, holds exactly the id, owner, parameters, table and stamp that were saved |
| `JsStrings.Trim` | src/App.tsx:46-47 | the result is an infix of the input between a white-space prefix and a white-space suffix, neither starting nor ending with white space; it is empty exactly when the input is all white space |
| `JsStrings.TrimEmptyIff` | src/App.tsx:46-47 | the trimmed text is empty exactly when every character of the input is white space |
| `JsStrings.Join` | src/App.tsx:131-139 | `join` with a one-character separator: the parts' characters plus one separator between each two neighbours, starting with the first part; the empty list joins to `""` |
| `JsStrings.SplitJoin` | src/App.tsx:131-139 | splitting the join of a non-empty list of parts gives back the parts when no part contains the separator |
| `App.NormalizeHeader` | src/App.tsx:103 | the first header cell is `"Number"`, every other cell is unchanged, and an empty header becomes `["Number"]` |
| `App.BuildTable` | src/App.tsx:98-103 | the stored table has the form's title and description, the parsed rows, and the parsed header with its first cell forced to `"Number"` |
| `App.ExportLineCount` | src/App.tsx:124-139 | when no cell contains a newline, the export splits on newlines into exactly the header line and one line per row, `rows.length + 1` in all |
| `App.ExportCellsRecoverable` | src/App.tsx:126-139 | when no cell contains a tab or newline, the header line and each row's line split on tabs back into their cells when the header or row is non-empty; an empty one comes back as `[""]` |
| `App.AppState.constructor` | src/App.tsx:13-23 | the initial page state: empty title and description, 5 rows, `"Short to medium"`, temperature 1.0, not busy, no error, no table, form shown |
| `App.AppState.CanGenerate` | src/App.tsx:46-47 | true exactly when the title and the description each contain a non-white-space character and the page is not busy |
| `App.AppState.BeginGeneration` | src/App.tsx:51-52 | busy is raised and the error cleared; nothing else changes |
| `App.AppState.FinishGeneration` | src/App.tsx:96-116 | busy is cleared in every case. On success the built table is stored and the form hidden. On failure the thrown error's message, or the generic message, is recorded and the table and form are left as they were |
| `App.AppState.GenerateTable` | src/App.tsx:49-117 | a throw while creating the client escapes, leaving busy raised, no error and the table and form as they were. Otherwise both halves run: success stores the normalised table with the title and description from the start, hides the form and leaves no error; failure only records the error; an empty response text is always a failure, since `JSON.parse` rejects it; busy is false at the end. The form fields never change |
| `App.AppState.ExportTableToCsv` | src/App.tsx:119-147 | no download without a current table; otherwise the file is named title + `.csv` and holds the tab-joined header line and tab-joined row lines, newline-joined in order |
| `App.AppState.HandleResetForm` | src/App.tsx:149-156 | title and description empty, 5 rows, `"Short to medium"`, temperature 1.0, error cleared; the table, form visibility and busy flag unchanged |
| `AuthContext.AuthProvider.constructor` | src/store/AuthContext.tsx:20-30 | no user, not loading, initial check in progress, listener registered; the context value equals the default context value |
| `AuthContext.AuthProvider.ContextValue` | src/store/AuthContext.tsx:77-84 | the exposed user, loading flag and initial-check flag are the provider's own fields; while the initial check runs, consumers see no user |
| `AuthContext.AuthProvider.Render` | src/store/AuthContext.tsx:86-93 | children are rendered, under the context value, exactly when the initial check has completed; otherwise only the placeholder |
| `AuthContext.AuthProvider.OnAuthStateChanged` | src/store/AuthContext.tsx:25-28 | while registered, a notification replaces the user and ends the initial check for good; after unsubscribing it changes nothing; the busy flag is never touched |
| `AuthContext.AuthProvider.Unsubscribe` | src/store/AuthContext.tsx:29 | the listener is deregistered and no other field changes |
| `AuthContext.AuthProvider.BeginCall` | src/store/AuthContext.tsx:33 | busy raised before the external call; user and initial-check flag unchanged |
| `AuthContext.AuthProvider.EndCall` | src/store/AuthContext.tsx:42-44 | busy cleared in `finally`; user and initial-check flag unchanged |
| `AuthContext.AuthProvider.SignUp` | src/store/AuthContext.tsx:32-45 | the credentials go to the service; success returns normally and a failure is passed on unchanged; busy is false afterwards; the user is not assigned |
| `AuthContext.AuthProvider.SignIn` | src/store/AuthContext.tsx:47-60 | the same as sign-up, for the sign-in call |
| `AuthContext.AuthProvider.SignOut` | src/store/AuthContext.tsx:62-75 | the service's outcome is returned unchanged; busy is false afterwards; the user is not assigned |

## Left out

- The text-generation client (its creation is modelled only by what it may throw), its prompt and response schema, and `JSON.parse` itself. The model takes the call's outcome and an abstract parse function instead. A parse that succeeds yields a well-formed table. The source would instead throw a `TypeError` on a payload without `header`, or keep a missing `rows`; in the model both are folded into the parse function's failure.
- Firebase set-up, persistence settings and the thin wrappers around the identity service. The service is a parameter of each operation.
- Firestore's collection and query APIs and `serverTimestamp`. They are replaced by the in-memory `TableStore`, whose clock stamps each save. The store chooses document ids, which the model takes as a parameter. The model proves nothing about id uniqueness. User ids are taken as opaque collection keys, whereas the store would split a user id on `/` as a path segment; identity-service uids contain no `/`, so this changes nothing for real callers.
- The browser download in the export: `Blob`, object URLs and the anchor click. Only the file name and the text are modelled.
- The duplicate auth listener in the page component. It repeats the provider's user update and adds nothing.
- The JSX markup, the form component's input bounds (HTML attributes, not checked in code), the table view's own `"Number"` label (a copy of the header normalisation), the login button and modal, the logout handler and the form setters.
- Interleaving. Overlapping generations, saves or auth calls are unguarded in the source. Each operation here is one sequential step, so notifications that arrive while a sign-in is in flight are not interleaved with it.
- Floating point. The temperature is a `real` that is only copied.
- JavaScript's number and string types are narrowed. The form's row count comes from `Number(...)` and may be a non-integer, while the model uses `int`; the row count is only copied. JavaScript strings are UTF-16 code units, while Dafny strings are Unicode scalar values, so lone surrogates cannot be represented. No white-space character is a surrogate code unit, so `trim`, `join` and the export would treat a lone surrogate like any other non-white-space character; neither narrowing changes a computed value.
- Console logging.
- Deleting a stored table, and gating save, fetch and delete on the session. This revision's store file has no delete, and its page component never calls the store.
- The in-place assignment `header[0] = "Number"` acts on a freshly parsed array that nothing else references. It is modelled as a value update.
