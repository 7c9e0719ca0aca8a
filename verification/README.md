# note-service in Dafny

A model of the error-classification pipeline of the note service. The note
service is a small Go HTTP service that stores notes in Azure Cosmos DB,
partitioned by category. The model has four layers, and each one is an
immutable record plus pure functions:

- **Storage layer** (package `db`).
  - `checkError` turns a client failure into `ErrInvalidInput`,
    `ErrNotFound` or `ErrAlreadyExists`, keyed on the `*azcore.ResponseError`
    status code. Every other failure becomes `ErrInternalDB` wrapping the cause.
  - The five operations run over an abstract partitioned client (`Storage.Client`).
    Its answer to each call is an input.
  - Listing drains a pager page by page, in order. It aborts on the first
    failure with the raw error and no notes.
- **Service layer** (package `notes`).
  - `NewService` takes functional options.
  - `toNoteDB` and `fromNoteDB` map between the two note shapes.
  - `checkError` re-classifies storage sentinels into service sentinels.
  - The five operations run over the injected `database` interface. The
    not-found errors of the read operations carry context.
- **HTTP layer** (package `server`).
  - The `errorCodeMaps` table and the `errorCodes` lookup. The order of Go's
    map iteration is an input (`order`), so a property can hold for every order.
  - `newResponseError`, `writeError` and `writeServerError`.
  - `decode`'s classification of JSON failures, the error `encode` returns,
    and `logError`.
  - The create, update and delete handlers, with their fixed order of checks.
- **Server construction.** `New` and `WithOptions` in server/server.go, and
  `WithAddress` in server/options.go.

Go errors form a closed datatype (`GoErrors.Error`):
- `Named` is a package-level sentinel.
- `Wrap` is `fmt.Errorf` with one `%w`.
- `Join` is `fmt.Errorf("%w: %w", …)`.
- `Response` is an `*azcore.ResponseError`.
- `Syntax` is a `*json.SyntaxError`.
- `Fresh` is an `errors.New` made on the spot.

`errors.Is` and `errors.As` are recursive functions over this datatype.

The module `Pipeline` plugs the storage layer into the service's `database`
interface and proves end-to-end facts. The headline: a backend status of
400, 404 or 409 reaches HTTP as 400 `InvalidInput`, 404 `NotFound` or 409
`AlreadyExists`. Any other failure whose cause wraps none of the storage or
HTTP-table sentinels, transport failures included, is unrecognised by the HTTP
table, and the handlers answer such a service failure with a 500 that carries
no cause text. A body that fails to decode is written as the source writes it,
with whatever `errorCodes` returns, so an unrecognised decoder error gets
status 0 (see Findings).

Some things are parameters rather than code:
- JSON marshalling (`Storage.Json`).
- `uuid.Parse` (`Handlers.UuidParser`).
- `uuid.NewString` (the `newId` argument).
- `time.Now` (the `now` argument).
- The raw result of the JSON decoder (the `body` argument of the handlers).

Where the source's own types disagree, the model picks one typing:
- Both note shapes carry the ID as a string. The service note's ID is the
  canonical UUID text, and its zero value is the nil UUID's text.
- The `database` interface returns a note from Create and Update, as
  notes/service.go declares it. The adapter `Pipeline.Cosmos` returns the
  caller's note, which db/cosmos.go updates through its pointer.
- The handlers use only the error of the service's `CreateNote` and
  `UpdateNote`, as server/handlers_notes.go does.
- `ErrIDRequired` is commented out in server/errors.go, yet the handlers use
  it. It is modelled as a sentinel with the text "id is required".

Where the service's documented behaviour and its code differ, the model follows
the code:
- Storage `CreateNote` always replaces the ID. The creation time is stamped by
  the service's `toNoteDB` on every conversion, updates included, not by the
  storage layer.
- Listing and payload-decode failures come back raw. There is no separate
  malformed-payload class. As a result, the service's not-found branch in
  `GetNotesByCategory` is taken only when a page error or a payload-decode
  error itself wraps storage `ErrNotFound`. When none does, which is the case
  for raw backend and JSON errors, listing failures become `ErrService` around
  the raw error (`Pipeline.ListingSkipsNotFoundBranch`,
  `Pipeline.ListingFailureIsUnclassified`).
- Reading a missing note makes the service return an error with the text
  "category C, id I: not found", not a bare "not found", and `errorCodes`
  still maps that error to 404 `NotFound` (`Pipeline.ReadMissingNoteIs404`).
  The `getNoteByID` handler that would write it is not part of this model.
- A success body is the JSON message string alone. A successful update
  answers "Note is created".
- The service's `checkError(nil)` wraps a nil error into `ErrService`.

## Model

| member | source | states |
|---|---|---|
| Storage.CheckError | db/errors.go:46-65 | Never nil, and always matches one of the four storage sentinels. A nil input gives bare `ErrInternalDB`. The class depends only on the `errors.As` status: 400, 404 and 409 give the bare invalid-input, not-found and already-exists sentinels. Any other status, or no `ResponseError` at all, gives `ErrInternalDB` joined with the cause, whose text is "internal database error: " followed by the cause's text. |
| Storage.InternalKeepsCause | db/errors.go:57-61 | An internal classification matches exactly `ErrInternalDB` plus every sentinel the cause matched, so the cause stays reachable through `errors.Is`. |
| Storage.CreateNote | db/cosmos.go:58-77 | The note's ID is replaced by the generator's value, even when an ID was supplied. A marshal failure returns that raw error and the client is never called. Otherwise `CreateItem` runs in the note's category partition with the marshalled payload, and a client failure is classified. |
| Storage.UpdateNote | db/cosmos.go:79-95 | The note is unchanged. A marshal failure returns raw and makes no call. Otherwise `ReplaceItem` runs with the note's category and ID, and a client failure is classified. |
| Storage.DeleteNote | db/cosmos.go:97-105 | `DeleteItem` runs with partition = category and the given id. The result is nil exactly when the client succeeded; otherwise it is the classified failure. |
| Storage.GetNoteById | db/cosmos.go:133-149 | `ReadItem` runs with partition = category and the given id. A client failure is classified. A payload that fails to decode returns the raw decode error. Every failure returns the zero note, and success returns the decoded note. |
| Listing.ListNotes | db/cosmos.go:107-131 | Issues the one query `SELECT * FROM c` in the category partition. Any failure returns no notes. |
| Listing.DecodeItemsSpec | db/cosmos.go:119-126 | Item decoding succeeds if and only if every item unmarshals. It then yields one note per item, in order. A failure carries the unmarshal error of one of the items. |
| Listing.CollectSuccess | db/cosmos.go:107-131 | The listing succeeds if and only if every page arrives and every item decodes. The result is then the in-order decoding of all items of all pages, and zero pages give an empty list. |
| Listing.CollectFailureIsRaw | db/cosmos.go:113-124 | A failed listing's error is a failed page's own error or an item's unmarshal error, returned as it came, without classification. |
| Listing.DecodeItemsFailureSticks | db/cosmos.go:121-124 | Once a prefix of a page's items fails to decode, the page fails with that same error: no partial result. |
| Listing.CollectFailureSticks | db/cosmos.go:112-117 | Once a prefix of the pages fails, the whole listing fails with that same error. |
| Listing.GetNotesByCategory | db/cosmos.go:107-131 | The pager loop, which appends each decoded item and returns on the first page or decode failure, computes exactly the aggregated listing: the same call, the same notes and the same error. |
| NoteService.NewService | notes/service.go:67-87 | A missing database gives `ErrDbRequired`, and is checked before a missing logger, which gives `ErrLoggerRequired`. Otherwise the service keeps both, and its timeout is what the options leave after running in order over the 15s default. |
| NoteService.NewServiceTimeout | notes/service.go:14 | With no options the timeout is 15s. The option applied last decides the timeout. |
| NoteService.ToNoteDB | notes/service.go:159-167 | `fromNoteDB(toNoteDB(n)) == n`: ID, category and text survive, and the creation time is `now` on every conversion. |
| NoteService.StorageRoundTrip | notes/service.go:169-176 | `fromNoteDB` drops only the timestamp: stamping the result again with the original time restores the storage note. |
| NoteService.CheckError | notes/errors.go:33-47 | Never nil, and always matches a service sentinel. Storage invalid-input, not-found and already-exists are tried in that order, and each becomes its service sentinel. Anything else becomes `ErrService` joined with the cause. A nil error gives `ErrService` with a nil wrapped in. |
| NoteService.ServiceErrorKeepsCause | notes/errors.go:44-46 | A fallthrough error matches exactly `ErrService` plus every sentinel the cause matched. |
| NoteService.NotFoundIn | notes/service.go:131 | The context-wrapped not-found error matches `ErrNotFound` and no other sentinel. Its text is the context, ": ", then "not found". |
| NoteService.CreateNote | notes/service.go:89-99 | Fails if and only if the database fails, with the zero note and the re-classified error. Otherwise it returns the stored note mapped back. |
| NoteService.UpdateNote | notes/service.go:101-111 | Fails if and only if the database fails, with the zero note and the re-classified error. Otherwise it returns the stored note mapped back. |
| NoteService.DeleteNote | notes/service.go:113-122 | Deletes by the note's ID and category. The result is nil if and only if the database succeeded; otherwise it is the re-classified error. |
| NoteService.GetNotesByCategory | notes/service.go:124-142 | Fails if and only if the database fails, and then returns no notes. Storage not-found becomes not-found with "category C" context; other errors are re-classified. On success the result has the storage list's length, and element i is `fromNoteDB` of storage element i. |
| NoteService.GetNoteById | notes/service.go:144-157 | Fails if and only if the database fails, and then returns the zero note. Storage not-found becomes not-found with "category C, id I" context; other errors are re-classified. On success it returns the note mapped back. |
| HttpErrors.FirstMatch | server/errors.go:75-81 | A row found is one of the iterated rows, and the error matches its sentinel. Nothing is found if and only if the error matches none of them. |
| HttpErrors.ErrorCodes | server/errors.go:74-83 | For every iteration order, the status is 0, 400, 404 or 409. It is 0 if and only if the error matches no table sentinel via `errors.Is`, and then the code is empty. Otherwise the result is the status and code of a table row whose sentinel the error matches. |
| HttpErrors.NoMatchIsUnrecognised | server/errors.go:82 | An error that matches no table sentinel gives (0, "") in every iteration order. |
| HttpErrors.SoleMatchDecides | server/errors.go:58-83 | An error that matches exactly one row's sentinel, bare or context-wrapped, gets that row's status and code in every iteration order. It may also wrap any sentinels outside the table. |
| HttpErrors.NotFoundBesideEofIs404 | server/errors.go:74-83 | Not-found joined with `io.EOF` and wrapped in context matches one table row only, so it maps to 404 `NotFound` in every iteration order. |
| HttpErrors.DistinctTargets | server/errors.go:58-71 | No sentinel appears in two rows of the table. |
| HttpErrors.NewResponseError | server/errors.go:34-45 | Copies the status and the code. The response error's `Error()` text is the wrapped error's text. |
| HttpErrors.WriteError | server/errors.go:86-96 | Writes the given status with an error body of that status and code. The message is the error's text, or "internal server error" for a nil error. |
| HttpErrors.WriteServerError | server/errors.go:101-103 | Always the same response: 500 `ServerError` "internal server error", whatever caused it. |
| Handlers.Decode | server/handlers.go:22-35 | Success returns the value with a nil error. A JSON syntax error becomes `ErrMalformedRequestBody`. `io.EOF` becomes `ErrEmptyRequestBody`. Any other error passes through unchanged. The decoded value is returned on every path. |
| Handlers.DecodeFailureCodes | server/handlers.go:25-31 | A malformed body maps to 400 `MalformedRequestBody` and an empty body to 400 `EmptyRequestBody`, in every iteration order. |
| Handlers.EncodeError | server/handlers.go:15-16 | The error returned on an encode failure matches no sentinel (in particular not `ErrMalformedRequestBody`). Its text is "malformed request body: " followed by the cause's text. |
| Handlers.LogError | server/handlers.go:38-40 | Six arguments: the keys "error", "type" and "handler" in that order at the even positions, and a key/value reading of error = the error, type = "service", handler = the handler's name. Together these fix the whole list. |
| Handlers.LogErrorDetermined | server/handlers.go:38-40 | Any six-element list with those keys at positions 0, 2 and 4 and that key/value reading is exactly `["error", err, "type", "service", "handler", handler]`. |
| Handlers.ToCreateNote | server/handlers_notes.go:134-141 | Copies category and text and leaves the ID at the nil UUID. |
| Handlers.ToUpdateNote | server/handlers_notes.go:143-158 | A parse failure gives the zero note and the parser's error. Otherwise it gives the parsed ID with the body's category and text. |
| Handlers.ToDeleteNote | server/handlers_notes.go:160-174 | A parse failure gives the zero note and the parser's error. Otherwise it gives the parsed ID and the body's category, with empty text. |
| Handlers.WriteClassified | server/handlers_notes.go:24-32 | The status is 400, 404, 409 or 500. It is 500 if and only if the error matches no table sentinel, and then the response is the fixed cause-free server error. Otherwise the response is `writeError` with the table's status and code. |
| Handlers.RecognisedIsWritten | server/handlers_notes.go:25-28 | An error that matches exactly one row's sentinel, whatever non-table sentinels it also wraps, is written with that row's status and code and its own text. |
| Handlers.WriteDecodeFailureAsWritten | server/handlers_notes.go:17-22 | A decode failure is written with whatever `errorCodes` returns, (0, "") included, and with the error's text. |
| Handlers.TruncatedBodyWritesStatusZero | server/handlers_notes.go:17-22 | `io.ErrUnexpectedEOF` passes `decode` unchanged. As written, it is then written with status 0 and an empty code. The corrected path answers the cause-free 500. |
| Handlers.CreateNoteHandler | server/handlers_notes.go:15-41 | A decode failure is written as the source writes it: with whatever `errorCodes` returns, (0, "") included, and the error's text. Otherwise a service failure is written classified, and success is 201 "Note is created". The status is always one of 0, 201, 400, 404, 409 or 500. It is 0 exactly when the decode error is unrecognised, and a 500 never carries the cause. |
| Handlers.HandlersWriteStatusZero | server/handlers_notes.go:17-22 | All three handlers answer a truncated body (`io.ErrUnexpectedEOF`) with the same response: status 0 and an empty code. For update and delete this needs a non-empty path id. |
| Handlers.UpdateNoteHandler | server/handlers_notes.go:43-83 | The checks run in order. An empty path id is 400 `IDRequired`, before the body is read. A decode failure is written with whatever `errorCodes` returns, (0, "") included. A non-UUID id is a 500, not a 400. A service failure is written classified. Success is 200 "Note is created". The status is one of 0, 200, 400, 404, 409 or 500, and it is 0 exactly when the path id is non-empty and the decode error is unrecognised. |
| Handlers.DeleteNoteHandler | server/handlers_notes.go:85-132 | The checks run in order. An empty path id is 400 `IDRequired`. A decode failure is written with whatever `errorCodes` returns, (0, "") included. An empty body category is 400 `CategoryRequired`. A non-UUID id is a 500. A service failure is written classified. Success is 200 "Note is deleted". The status is one of 0, 200, 400, 404, 409 or 500, and it is 0 exactly when the path id is non-empty and the decode error is unrecognised. |
| Decimal.NatText | server/server.go:143 | The decimal text of a natural number is non-empty, all digits, and has no leading zero. |
| Decimal.Itoa | server/server.go:143 | `strconv.Itoa`'s text is non-empty and contains no colon. It is all digits if and only if the number is not negative. |
| Decimal.NatTextRoundTrip | server/server.go:143 | Reading the digits of n back gives n. |
| Decimal.ItoaRoundTrip | server/server.go:143 | The port text reads back as the same integer, so the address loses nothing. |
| ServerSetup.Configure | server/server.go:135-155 | A supplied router becomes router and handler; otherwise both are kept. A non-empty host or a positive port sets the address to host ":" port; otherwise the address is kept. Each timeout is replaced only by a positive value. The note service is untouched. |
| ServerSetup.SetAddress | server/options.go:4-8 | Sets the address, to the empty string too, and changes nothing else. |
| ServerSetup.ConfigureIdempotent | server/server.go:135-155 | Applying the same `Options` twice equals applying them once. |
| ServerSetup.ConfigureEmptyKeeps | server/server.go:137-153 | Empty `Options` (no router, no host, port 0, zero timeouts) leave the server unchanged. |
| ServerSetup.ConfiguredAddressParts | server/server.go:141-144 | The address is the host, one colon, then a colon-free port text that reads back as the port. An empty host with port p gives ":p". |
| ServerSetup.New | server/server.go:51-81 | A missing note service is an error. Otherwise the options run in order over the defaults. A fresh router is installed as router and handler only if no option supplied one. An empty address becomes "localhost:3000", so the address is never empty. The timeouts are what the options left. |
| ServerSetup.NewDefaults | server/server.go:17-24 | With no options the server gets address "localhost:3000", read/write/idle timeouts of 15s/15s/30s, and the fresh router as handler. |
| ServerSetup.EmptyAddressGetsDefault | server/server.go:76-78 | Options run before the address default, so a final `WithAddress("")` still yields "localhost:3000". |
| ServerSetup.NewWithOptions | server/server.go:56-78 | With one `WithOptions`, positive timeouts replace the defaults and the others keep them. The router is the supplied one, or else the fresh one, and it is the handler. The address is host:port when either is set, and "localhost:3000" otherwise. |
| FunctionalOptions.ApplyAllSnoc | notes/service.go:78-80 | Running the options in order means that an option appended last is applied after all the others: the last writer wins. |
| FunctionalOptions.ApplyAllConcat | server/server.go:67-69 | Running two option lists one after the other equals running their concatenation. |
| Pipeline.BackendStatusReachesHttp | db/errors.go:48-61 | For any backend failure whose cause wraps none of the storage sentinels and none of the HTTP-table sentinels (it may wrap `io.EOF` or `io.ErrUnexpectedEOF`): a 400, 404 or 409 status reaches HTTP as 400 `InvalidInput`, 404 `NotFound` or 409 `AlreadyExists` through both classifications. Every other status, and no status at all, gives (0, ""). This holds in every iteration order. |
| Pipeline.RecognisedStatusReachesHttp | db/errors.go:50-56 | The three recognised statuses reach HTTP as their rows, whatever else the cause wraps. |
| Pipeline.ServiceTranslates | notes/errors.go:35-43 | Storage invalid-input, not-found and already-exists land on the table rows of their service counterparts. |
| Pipeline.OtherFailureIsUnrecognised | db/errors.go:57-61 | For a cause with no known sentinel, an internal classification becomes `ErrService` around `ErrInternalDB` around the cause, and the HTTP table does not recognise it. |
| Pipeline.WrappedCauseIsUnmatched | notes/errors.go:44 | A cause with no known sentinel, wrapped in `ErrInternalDB` is none of the storage sentinels the service recognises. With `ErrService` added, it matches no table row. |
| Pipeline.CreateUsesGeneratedId | db/cosmos.go:59 | Creating through the service stores and answers the generator's ID, whatever ID the caller gave. Category and text survive. |
| Pipeline.DeleteMissingNoteIs404 | server/handlers_notes.go:114-119 | Deleting a note the backend answers 404 gives the client 404 `NotFound` "not found": deletion is not idempotent. |
| Pipeline.MissingNoteDeleteIsNotFound | notes/service.go:117-118 | A delete the backend answers 404 becomes the service's bare `ErrNotFound`. |
| Pipeline.NotFoundIsWritten404 | server/errors.go:65-67 | Service not-found is written as 404 `NotFound` with the text "not found", in every iteration order. |
| Pipeline.NotFoundResponse | server/errors.go:86-96 | A worked example: the exact response body `writeError` builds for 404 `NotFound` and bare service not-found. |
| Pipeline.UpdateFailureReachesHttp | server/handlers_notes.go:66-75 | An update that the backend rejects, with a cause that wraps no known sentinel, reaches the client with the status and code its backend status maps to, or else as the cause-free 500. |
| Pipeline.ReadMissingNoteIs404 | notes/service.go:148-151 | Reading a note the backend answers 404 gives the zero note and an error with the text "category C, id I: not found" that still maps to 404 `NotFound`. |
| Pipeline.MissingNoteReadIsNotFound | db/cosmos.go:136-140 | A read the backend answers 404 reaches the service as storage `ErrNotFound`. |
| Pipeline.NotFoundInIs404 | server/errors.go:74-80 | Not-found wrapped with any context still maps to 404 `NotFound`. |
| Pipeline.EmptyCategoryListsEmpty | db/cosmos.go:112-130 | A pager with no pages gives an empty listing, without error, all the way through the service. |
| Pipeline.ListingFailureIsUnclassified | db/cosmos.go:113-117 | A backend 404 while paging returns raw from storage. The service turns it into `ErrService` around it, not not-found, and HTTP does not recognise it. |
| Pipeline.ListingSkipsNotFoundBranch | notes/service.go:128-133 | When no failed page and no failed payload decode wraps storage `ErrNotFound`, listing through the service fails exactly when storage listing fails, with `checkError` of the storage error, and never with the service's not-found error for the category. |
| Pipeline.RawServiceErrorIsUnrecognised | notes/service.go:133 | A raw backend error with no known sentinel, re-classified by the service becomes `ErrService` around it, and HTTP does not recognise that. |
| Pipeline.SinglePageFailure | db/cosmos.go:113-116 | A pager whose only page fails makes the listing fail with that page's raw error. |

## Left out

- The `Start`/`stop` lifecycle of the server (server/server.go:84-132) is left out. It is goroutines, channels and OS signals.
- The context timeouts of the service operations are left out; they have no sequential meaning. The timeout is kept only as configuration.
- The `Logger` field of `ServiceOptions` is kept, but nothing is proved about it, because `NewService` never reads it back.
- `NewCosmosDB`, the Azure SDK, and the config files are foreign calls. The client is modelled only as its answers to calls.
- JSON encoding and decoding, `uuid.NewString`, `uuid.Parse` and `time.Now` are parameters, not verified code.
- Logging side effects (`c.log.Debug`, `fmt.Printf`) are left out. `logError` is modelled only as the argument list it builds.
- server/routes.go and the `getNoteByID` and `getNotesByCategory` handlers are not part of this model. The service operations they call are modelled.
- The write path of a response is not modelled: headers, the byte encoding, and an encode failure after the status is written. That covers the fallback `WriteHeader(500)` in `writeError` and the `writeServerError` after a failed success encode. `Handlers.EncodeError` models only the error value `encode` returns.
- cmd/cli, main.go, log/log.go and the unused `db.Counter` are left out. They are a client, wiring and logging.
- Nil interfaces and pointers are modelled as `Option`. A zero-page listing returns an empty sequence where Go returns a nil slice.

## Findings

| source | as written | input that shows it | evidently intended | confidence | as-written member | corrected member |
|---|---|---|---|---|---|---|
| server/handlers_notes.go:17-22 | A body that fails to decode is written with whatever `errorCodes` returns. For a decoder error that is neither a syntax error nor `io.EOF`, that is (0, ""), so `writeError` calls `WriteHeader(0)`, which `net/http` rejects. The same code sits at lines 51-57 and 93-100. | A truncated body such as `{"note":` makes the decoder return `io.ErrUnexpectedEOF` (`Handlers.TruncatedBodyWritesStatusZero`). All three handlers write it with status 0 (`Handlers.HandlersWriteStatusZero`) | An unrecognised decode failure answered like an unrecognised service failure: the cause-free 500 | not executed | Handlers.WriteDecodeFailureAsWritten | Handlers.WriteClassified |
