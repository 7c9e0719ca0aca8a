/**
 The HTTP error mapping of server/errors.go: the table from service and
 request sentinels to (status, code), the lookup over it, and the error
 responses the handlers write.
 */
module HttpErrors {
  import opened Wrappers
  import opened GoErrors

  /** One row of `errorCodeMaps`: a sentinel and the status and code it maps to. */
  datatype Entry = Entry(status: int, target: Sentinel, code: string)

  /** `errorCodeMaps`, flattened. */
  const Table: seq<Entry> := [
    Entry(400, HttpInvalidRequest, "InvalidRequest"),
    Entry(400, HttpMalformedRequestBody, "MalformedRequestBody"),
    Entry(400, HttpEmptyRequestBody, "EmptyRequestBody"),
    Entry(400, SvcInvalidInput, "InvalidInput"),
    Entry(404, SvcNotFound, "NotFound"),
    Entry(409, SvcAlreadyExists, "AlreadyExists")
  ]

  const CodeServerError := "ServerError"
  const CodeIdRequired := "IDRequired"
  const CodeCategoryRequired := "CategoryRequired"

  /**
   An order in which Go's map iteration may visit the table: `errorCodes`
   ranges over maps, whose iteration order is unspecified, so the order is an
   input — any permutation of the table (the table's rows are distinct, so
   holding each of them once in a sequence of the same length is being a
   permutation of it).
   */
  predicate IsTableOrder(order: seq<Entry>)
  {
    && |order| == |Table|
    && (forall x :: x in order ==> x in Table)
    && (forall x :: x in Table ==> x in order)
  }

  /** Some table row's sentinel is inside `err`. */
  predicate Matches(err: Error)
  {
    || Is(err, HttpInvalidRequest) || Is(err, HttpMalformedRequestBody) || Is(err, HttpEmptyRequestBody)
    || Is(err, SvcInvalidInput) || Is(err, SvcNotFound) || Is(err, SvcAlreadyExists)
  }

  /** The first row in `order` whose sentinel `err` matches. */
  function FirstMatch(err: Error, order: seq<Entry>): (r: Option<Entry>)
    ensures r.Some? ==> r.value in order && Is(err, r.value.target)
    ensures r.None? <==> forall k :: 0 <= k < |order| ==> !Is(err, order[k].target)
    decreases |order|
  {
    if |order| == 0 then None
    else if Is(err, order[0].target) then Some(order[0])
    else FirstMatch(err, order[1..])
  }

  /**
   `errorCodes`: the status and code of a table row whose sentinel the error
   matches via `errors.Is` (so context-wrapped sentinels are recognised), or
   (0, "") when none matches.
   */
  function ErrorCodes(err: Error, order: seq<Entry>): (r: (int, string))
    requires IsTableOrder(order)
    ensures r.0 in {0, 400, 404, 409}
    ensures r.0 == 0 <==> !Matches(err)
    ensures r.0 == 0 ==> r.1 == ""
    ensures r.0 != 0 ==> exists x :: x in Table && Is(err, x.target) && r == (x.status, x.code)
  {
    match FirstMatch(err, order)
    case None =>
      assert !Matches(err) by {
        forall i | 0 <= i < |Table|
          ensures !Is(err, Table[i].target)
        {
          assert Table[i] in Table;
          var k :| 0 <= k < |order| && order[k] == Table[i];
        }
        assert !Is(err, Table[0].target) && !Is(err, Table[1].target) && !Is(err, Table[2].target);
        assert !Is(err, Table[3].target) && !Is(err, Table[4].target) && !Is(err, Table[5].target);
      }
      (0, "")
    case Some(x) => (x.status, x.code)
  }

  /**
   `err` matches the sentinel of row `x` and of no other row. It may wrap any
   number of sentinels outside the table.
   */
  predicate SoleTableMatch(err: Error, x: Entry)
  {
    && x in Table && Is(err, x.target)
    && (Is(err, HttpInvalidRequest) ==> x.target == HttpInvalidRequest)
    && (Is(err, HttpMalformedRequestBody) ==> x.target == HttpMalformedRequestBody)
    && (Is(err, HttpEmptyRequestBody) ==> x.target == HttpEmptyRequestBody)
    && (Is(err, SvcInvalidInput) ==> x.target == SvcInvalidInput)
    && (Is(err, SvcNotFound) ==> x.target == SvcNotFound)
    && (Is(err, SvcAlreadyExists) ==> x.target == SvcAlreadyExists)
  }

  /** An error that matches no table row is unrecognised, whatever the order. */
  lemma NoMatchIsUnrecognised(err: Error, order: seq<Entry>)
    requires IsTableOrder(order) && !Matches(err)
    ensures ErrorCodes(err, order) == (0, "")
  {
  }

  /**
   An error that matches exactly one table row's sentinel gets that row's
   status and code, whatever order the map is iterated in. It may wrap any
   number of sentinels outside the table.
   */
  lemma SoleMatchDecides(err: Error, order: seq<Entry>, x: Entry)
    requires IsTableOrder(order)
    requires SoleTableMatch(err, x)
    ensures ErrorCodes(err, order) == (x.status, x.code)
  {
    var k :| 0 <= k < |order| && order[k] == x;
    var y := FirstMatch(err, order).value;
    assert y in Table && Is(err, y.target);
    DistinctTargets(x, y);
  }

  /** No sentinel appears twice in the table. */
  lemma DistinctTargets(a: Entry, b: Entry)
    requires a in Table && b in Table && a.target == b.target
    ensures a == b
  {
  }

  /**
   Not-found joined with `io.EOF` and wrapped in context also wraps a sentinel
   outside the table, yet matches one row only: it is 404 `NotFound`.
   */
  lemma NotFoundBesideEofIs404(context: string, order: seq<Entry>)
    requires IsTableOrder(order)
    ensures var e := Wrap(context, Join(Named(SvcNotFound), Named(IoEof)));
            Is(e, IoEof) && ErrorCodes(e, order) == (404, "NotFound")
  {
    var e := Wrap(context, Join(Named(SvcNotFound), Named(IoEof)));
    forall t
      ensures Is(e, t) == (t == SvcNotFound || t == IoEof)
    {
      assert Is(e, t) == Is(Join(Named(SvcNotFound), Named(IoEof)), t);
    }
    SoleMatchDecides(e, order, Table[4]);
  }

  /** `responseError`: the JSON error body. */
  datatype ResponseError = ResponseError(statusCode: int, code: string, message: string)

  /** `(*responseError).Error()`. */
  function ResponseErrorText(e: ResponseError): string
  {
    e.message
  }

  /** `newResponseError`: keeps the status and code; its `Error()` is the wrapped error's text. */
  function NewResponseError(statusCode: int, code: string, err: Error): (r: ResponseError)
    ensures r.statusCode == statusCode && r.code == code
    ensures ResponseErrorText(r) == Message(err)
  {
    ResponseError(statusCode, code, Message(err))
  }

  /** What a handler writes: a status and a JSON body. */
  datatype HttpResponse = HttpResponse(status: int, body: Body)

  datatype Body =
    | ErrorBody(error: ResponseError)
      /** a JSON-encoded message string */
    | MessageBody(text: string)

  /** The text written in place of a missing error. */
  const InternalServerError := "internal server error"

  /** `writeError`: the status and code as given; the message is the error's text, or a fixed text for a nil error. */
  function WriteError(statusCode: int, code: string, err: Option<Error>): (r: HttpResponse)
    ensures r.status == statusCode
    ensures r.body.ErrorBody? && r.body.error.statusCode == statusCode && r.body.error.code == code
    ensures r.body.error.message == (if err.Some? then Message(err.value) else InternalServerError)
  {
    var e := if err.None? then Fresh(InternalServerError) else err.value;
    HttpResponse(statusCode, ErrorBody(NewResponseError(statusCode, code, e)))
  }

  /** The one response every unclassified failure gets. */
  const ServerErrorResponse := HttpResponse(500, ErrorBody(ResponseError(500, CodeServerError, InternalServerError)))

  /** `writeServerError`: a 500 that carries no information about the cause. */
  function WriteServerError(): (r: HttpResponse)
    ensures r == ServerErrorResponse
  {
    WriteError(500, CodeServerError, None)
  }
}
