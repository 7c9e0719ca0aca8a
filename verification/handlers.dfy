/**
 The HTTP handlers for creating, updating and deleting notes
 (server/handlers_notes.go) and the request helpers they use
 (server/handlers.go). A handler is a function from the request's parts to the
 response it writes: the path id, the raw outcome of the JSON decoder on the
 body, the UUID parser, the service, the clock, and the iteration order of the
 error table.
 */
module Handlers {
  import opened Wrappers
  import opened GoTime
  import opened GoErrors
  import opened HttpErrors
  import NoteService

  /** `api.NoteRequest`: the request body. */
  datatype NoteRequest = NoteRequest(category: string, text: string)

  /** `uuid.Parse` followed by `String()`: the canonical UUID text, or the parser's error. */
  type UuidParser = string -> Result<string, Error>

  // ---------------------------------------------------------------------------
  // server/handlers.go

  /**
   `decode`: given what the JSON decoder left in the value and the error it
   returned, a syntax error becomes `ErrMalformedRequestBody`, `io.EOF` (an
   empty body) becomes `ErrEmptyRequestBody`, any other error passes through
   unchanged, and success returns the value with a nil error.
   */
  function Decode(raw: Ret<NoteRequest>): (r: Ret<NoteRequest>)
    ensures r.value == raw.value
    ensures r.err.None? <==> raw.err.None?
    ensures raw.err.Some? && AsSyntax(raw.err.value) ==> r.err == Some(Named(HttpMalformedRequestBody))
    ensures raw.err.Some? && !AsSyntax(raw.err.value) && Is(raw.err.value, IoEof) ==>
              r.err == Some(Named(HttpEmptyRequestBody))
    ensures raw.err.Some? && !AsSyntax(raw.err.value) && !Is(raw.err.value, IoEof) ==> r.err == raw.err
  {
    match raw.err
    case None => Ret(raw.value, None)
    case Some(e) =>
      var e1 := if AsSyntax(e) then Named(HttpMalformedRequestBody) else e;
      var e2 := if Is(e1, IoEof) then Named(HttpEmptyRequestBody) else e1;
      Ret(raw.value, Some(e2))
  }

  /** A malformed body is answered 400 `MalformedRequestBody`, an empty one 400 `EmptyRequestBody`. */
  lemma DecodeFailureCodes(raw: Ret<NoteRequest>, order: seq<Entry>)
    requires IsTableOrder(order)
    requires raw.err.Some? && (AsSyntax(raw.err.value) || Is(raw.err.value, IoEof))
    ensures AsSyntax(raw.err.value) ==>
              ErrorCodes(Decode(raw).err.value, order) == (400, "MalformedRequestBody")
    ensures !AsSyntax(raw.err.value) ==>
              ErrorCodes(Decode(raw).err.value, order) == (400, "EmptyRequestBody")
  {
    var x := if AsSyntax(raw.err.value) then Table[1] else Table[2];
    var d := Decode(raw).err.value;
    assert d == Named(x.target);
    SoleMatchDecides(d, order, x);
  }

  /**
   The error `encode` returns when writing the JSON fails: a fresh error whose
   text starts with "malformed request body" — it is not, and does not wrap,
   `ErrMalformedRequestBody` or any other sentinel.
   */
  function EncodeError(cause: Error): (r: Error)
    ensures Foreign(r)
    ensures Message(r) == "malformed request body: " + Message(cause)
  {
    var text := "malformed request body: " + Message(cause);
    assert forall t :: Is(Wrap(text, Fresh("malformed request body")), t) == Is(Fresh("malformed request body"), t);
    Wrap(text, Fresh("malformed request body"))
  }

  /** An argument of a structured log call. */
  datatype LogValue = Text(text: string) | ErrValue(err: Error)

  /** The key/value pairs of a structured log argument list, as a log sink reads them. */
  function Attributes(args: seq<LogValue>): map<string, LogValue>
    decreases |args|
  {
    if |args| < 2 then map[]
    else
      match args[0]
      case Text(key) => Attributes(args[2..])[key := args[1]]
      case ErrValue(_) => Attributes(args[2..])
  }

  /** `logError`: the arguments of an error log line — the error, the type "service" and the handler's name. */
  function LogError(err: Error, handler: string): (r: seq<LogValue>)
    ensures |r| == 6
    ensures r[0] == Text("error") && r[2] == Text("type") && r[4] == Text("handler")
    ensures Attributes(r) == map["error" := ErrValue(err), "type" := Text("service"), "handler" := Text(handler)]
  {
    var args := [Text("error"), ErrValue(err), Text("type"), Text("service"), Text("handler"), Text(handler)];
    assert Attributes(args[4..][2..]) == map[];
    assert Attributes(args[2..][2..]) == map["handler" := Text(handler)];
    assert Attributes(args[2..]) == map["type" := Text("service"), "handler" := Text(handler)];
    args
  }

  /** The contract of `LogError` fixes the list: any list meeting it is `logError`'s. */
  lemma LogErrorDetermined(err: Error, handler: string, r: seq<LogValue>)
    requires |r| == 6 && r[0] == Text("error") && r[2] == Text("type") && r[4] == Text("handler")
    requires Attributes(r) == map["error" := ErrValue(err), "type" := Text("service"), "handler" := Text(handler)]
    ensures r == LogError(err, handler)
  {
    assert r[4..][2..] == [];
    assert r[2..][2..] == r[4..];
    assert Attributes(r[4..]) == map["handler" := r[5]];
    assert Attributes(r[2..]) == map["type" := r[3], "handler" := r[5]];
    assert Attributes(r) == map["error" := r[1], "type" := r[3], "handler" := r[5]];
    assert Attributes(r)["error"] == r[1] && Attributes(r)["type"] == r[3] && Attributes(r)["handler"] == r[5];
    var l := LogError(err, handler);
    assert l[1] == ErrValue(err) && l[3] == Text("service") && l[5] == Text(handler);
  }

  // ---------------------------------------------------------------------------
  // Request-to-note conversions

  /** `toCreateNote`: category and text from the body, the ID left at its zero value. */
  function ToCreateNote(req: NoteRequest): (n: NoteService.Note)
    ensures n.id == NoteService.NilUuid && n.category == req.category && n.text == req.text
  {
    NoteService.Note(NoteService.NilUuid, req.category, req.text)
  }

  /** `toUpdateNote`: the parsed ID with the body's category and text; a parse failure gives the zero note and the parser's error. */
  function ToUpdateNote(id: string, req: NoteRequest, parse: UuidParser): (r: Ret<NoteService.Note>)
    ensures parse(id).Failure? ==> r == Ret(NoteService.ZeroNote, Some(parse(id).error))
    ensures parse(id).Success? ==> r == Ret(NoteService.Note(parse(id).value, req.category, req.text), None)
  {
    match parse(id)
    case Failure(e) => Ret(NoteService.ZeroNote, Some(e))
    case Success(u) => Ret(NoteService.Note(u, req.category, req.text), None)
  }

  /** `toDeleteNote`: the parsed ID and the body's category, with empty text. */
  function ToDeleteNote(id: string, req: NoteRequest, parse: UuidParser): (r: Ret<NoteService.Note>)
    ensures parse(id).Failure? ==> r == Ret(NoteService.ZeroNote, Some(parse(id).error))
    ensures parse(id).Success? ==> r == Ret(NoteService.Note(parse(id).value, req.category, ""), None)
  {
    match parse(id)
    case Failure(e) => Ret(NoteService.ZeroNote, Some(e))
    case Success(u) => Ret(NoteService.Note(u, req.category, ""), None)
  }

  // ---------------------------------------------------------------------------
  // Writing failures

  /**
   The handlers' answer to a failed service call: the table's status and code
   with the error's text when the error is recognised, otherwise a 500 that
   reveals nothing of the cause. It is also what a body that fails to decode
   evidently should get.
   */
  function WriteClassified(err: Error, order: seq<Entry>): (r: HttpResponse)
    requires IsTableOrder(order)
    ensures r.status in {400, 404, 409, 500}
    ensures r.status == 500 <==> !Matches(err)
    ensures r.status == 500 ==> r == ServerErrorResponse
    ensures r.status != 500 ==> r.body.ErrorBody? && r == WriteError(r.status, r.body.error.code, Some(err))
    ensures r.status != 500 ==> r.body.ErrorBody? && (r.status, r.body.error.code) == ErrorCodes(err, order)
  {
    var codes := ErrorCodes(err, order);
    if codes.0 != 0 then WriteError(codes.0, codes.1, Some(err)) else WriteServerError()
  }

  /** An error matching exactly one table row is written with that row's status and code and its own text. */
  lemma RecognisedIsWritten(err: Error, order: seq<Entry>, x: Entry)
    requires IsTableOrder(order)
    requires SoleTableMatch(err, x)
    ensures WriteClassified(err, order) == WriteError(x.status, x.code, Some(err))
  {
    assert x.status in {400, 404, 409};
    SoleMatchDecides(err, order, x);
    var codes := ErrorCodes(err, order);
    assert codes.0 == x.status;
  }

  /**
   A body that fails to decode, as server/handlers_notes.go writes it: with
   whatever `errorCodes` returns, even (0, "") for an error the table does not
   know.
   */
  function WriteDecodeFailureAsWritten(err: Error, order: seq<Entry>): (r: HttpResponse)
    requires IsTableOrder(order)
    ensures r.body.ErrorBody? && (r.status, r.body.error.code) == ErrorCodes(err, order)
    ensures r.body.ErrorBody? && r.body.error.message == Message(err)
  {
    var (status, code) := ErrorCodes(err, order);
    WriteError(status, code, Some(err))
  }

  /**
   A truncated body makes the JSON decoder return `io.ErrUnexpectedEOF`, which
   is neither a syntax error nor `io.EOF`: as written, the handler then writes
   status 0 with an empty code, a status `net/http` refuses.
   */
  lemma TruncatedBodyWritesStatusZero(order: seq<Entry>)
    requires IsTableOrder(order)
    ensures Decode(Ret(NoteRequest("", ""), Some(Named(IoUnexpectedEof)))).err == Some(Named(IoUnexpectedEof))
    ensures WriteDecodeFailureAsWritten(Named(IoUnexpectedEof), order).status == 0
    ensures WriteDecodeFailureAsWritten(Named(IoUnexpectedEof), order).body.ErrorBody?
    ensures WriteDecodeFailureAsWritten(Named(IoUnexpectedEof), order).body.error.code == ""
    ensures WriteClassified(Named(IoUnexpectedEof), order) == ServerErrorResponse
  {
    assert !Matches(Named(IoUnexpectedEof));
    NoMatchIsUnrecognised(Named(IoUnexpectedEof), order);
  }

  const IdRequiredResponse := WriteError(400, CodeIdRequired, Some(Named(HttpIdRequired)))
  const CategoryRequiredResponse := WriteError(400, CodeCategoryRequired, Some(Named(HttpCategoryRequired)))

  // ---------------------------------------------------------------------------
  // server/handlers_notes.go

  /**
   `createNote`: decode the body, create the note through the service, answer
   201 "Note is created". A decode failure is written with whatever
   `errorCodes` returns, (0, "") included; a service failure is written
   classified, with the cause-free 500 for an unrecognised one.
   */
  function CreateNoteHandler(svc: NoteService.Service, now: Time, order: seq<Entry>, body: Ret<NoteRequest>)
    : (r: HttpResponse)
    requires IsTableOrder(order)
    ensures r.status in {0, 201, 400, 404, 409, 500}
    ensures r.status == 500 ==> r == ServerErrorResponse
    ensures r.status == 0 <==> Decode(body).err.Some? && !Matches(Decode(body).err.value)
    ensures Decode(body).err.Some? ==> r == WriteDecodeFailureAsWritten(Decode(body).err.value, order)
    ensures Decode(body).err.None? ==>
              var e := NoteService.CreateNote(svc, ToCreateNote(body.value), now).err;
              && (e.Some? ==> r == WriteClassified(e.value, order))
              && (e.None? ==> r == HttpResponse(201, MessageBody("Note is created")))
  {
    var req := Decode(body);
    if req.err.Some? then WriteDecodeFailureAsWritten(req.err.value, order)
    else
      var e := NoteService.CreateNote(svc, ToCreateNote(req.value), now).err;
      if e.Some? then WriteClassified(e.value, order)
      else HttpResponse(201, MessageBody("Note is created"))
  }

  /**
   `updateNote`: checks, in order, a non-empty path id (400 `IDRequired`), the
   body (written as `createNote` writes a decode failure), the id's UUID syntax
   (a bad id is a 500), then the service call; success answers 200 with the
   text "Note is created".
   */
  function UpdateNoteHandler(svc: NoteService.Service, now: Time, order: seq<Entry>, parse: UuidParser,
                             pathId: string, body: Ret<NoteRequest>): (r: HttpResponse)
    requires IsTableOrder(order)
    ensures r.status in {0, 200, 400, 404, 409, 500}
    ensures r.status == 500 ==> r == ServerErrorResponse
    ensures r.status == 0 <==> |pathId| > 0 && Decode(body).err.Some? && !Matches(Decode(body).err.value)
    ensures |pathId| == 0 ==> r == IdRequiredResponse
    ensures |pathId| > 0 && Decode(body).err.Some? ==> r == WriteDecodeFailureAsWritten(Decode(body).err.value, order)
    ensures |pathId| > 0 && Decode(body).err.None? && parse(pathId).Failure? ==> r == ServerErrorResponse
    ensures |pathId| > 0 && Decode(body).err.None? && parse(pathId).Success? ==>
              var e := NoteService.UpdateNote(svc, ToUpdateNote(pathId, body.value, parse).value, now).err;
              && (e.Some? ==> r == WriteClassified(e.value, order))
              && (e.None? ==> r == HttpResponse(200, MessageBody("Note is created")))
  {
    if |pathId| == 0 then IdRequiredResponse
    else
      var req := Decode(body);
      if req.err.Some? then WriteDecodeFailureAsWritten(req.err.value, order)
      else
        var note := ToUpdateNote(pathId, req.value, parse);
        if note.err.Some? then WriteServerError()
        else
          var e := NoteService.UpdateNote(svc, note.value, now).err;
          if e.Some? then WriteClassified(e.value, order)
          else HttpResponse(200, MessageBody("Note is created"))
  }

  /**
   `deleteNote`: checks, in order, a non-empty path id, the body (as in
   `createNote`), a non-empty category in the body (400 `CategoryRequired`),
   the id's UUID syntax, then the service call; success answers 200
   "Note is deleted".
   */
  function DeleteNoteHandler(svc: NoteService.Service, order: seq<Entry>, parse: UuidParser,
                             pathId: string, body: Ret<NoteRequest>): (r: HttpResponse)
    requires IsTableOrder(order)
    ensures r.status in {0, 200, 400, 404, 409, 500}
    ensures r.status == 500 ==> r == ServerErrorResponse
    ensures r.status == 0 <==> |pathId| > 0 && Decode(body).err.Some? && !Matches(Decode(body).err.value)
    ensures |pathId| == 0 ==> r == IdRequiredResponse
    ensures |pathId| > 0 && Decode(body).err.Some? ==> r == WriteDecodeFailureAsWritten(Decode(body).err.value, order)
    ensures |pathId| > 0 && Decode(body).err.None? && |body.value.category| == 0 ==> r == CategoryRequiredResponse
    ensures |pathId| > 0 && Decode(body).err.None? && |body.value.category| > 0 && parse(pathId).Failure? ==>
              r == ServerErrorResponse
    ensures |pathId| > 0 && Decode(body).err.None? && |body.value.category| > 0 && parse(pathId).Success? ==>
              var e := NoteService.DeleteNote(svc, ToDeleteNote(pathId, body.value, parse).value);
              && (e.Some? ==> r == WriteClassified(e.value, order))
              && (e.None? ==> r == HttpResponse(200, MessageBody("Note is deleted")))
  {
    if |pathId| == 0 then IdRequiredResponse
    else
      var req := Decode(body);
      if req.err.Some? then WriteDecodeFailureAsWritten(req.err.value, order)
      else if |req.value.category| == 0 then CategoryRequiredResponse
      else
        var note := ToDeleteNote(pathId, req.value, parse);
        if note.err.Some? then WriteServerError()
        else
          var e := NoteService.DeleteNote(svc, note.value);
          if e.Some? then WriteClassified(e.value, order)
          else HttpResponse(200, MessageBody("Note is deleted"))
  }

  /**
   As written, all three handlers answer a truncated body with status 0 and an
   empty code, whatever the service and the path id.
   */
  lemma HandlersWriteStatusZero(svc: NoteService.Service, now: Time, order: seq<Entry>, parse: UuidParser,
                                pathId: string, req: NoteRequest)
    requires IsTableOrder(order)
    requires |pathId| > 0
    ensures var body := Ret(req, Some(Named(IoUnexpectedEof)));
            && CreateNoteHandler(svc, now, order, body) == WriteDecodeFailureAsWritten(Named(IoUnexpectedEof), order)
            && UpdateNoteHandler(svc, now, order, parse, pathId, body) == CreateNoteHandler(svc, now, order, body)
            && DeleteNoteHandler(svc, order, parse, pathId, body) == CreateNoteHandler(svc, now, order, body)
            && CreateNoteHandler(svc, now, order, body).status == 0
            && CreateNoteHandler(svc, now, order, body).body.error.code == ""
  {
    var body := Ret(req, Some(Named(IoUnexpectedEof)));
    assert Decode(body).err == Some(Named(IoUnexpectedEof));
    TruncatedBodyWritesStatusZero(order);
  }
}
