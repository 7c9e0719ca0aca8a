/**
 The layers composed: the storage layer plugged into the service's
 `database` interface, and what a backend failure becomes by the time it
 reaches an HTTP client.
 */
module Pipeline {
  import opened Wrappers
  import opened GoTime
  import opened GoErrors
  import Storage
  import Listing
  import NoteService
  import opened HttpErrors
  import Handlers

  /** The storage layer over `client`, seen through the service's `database` interface. */
  function Cosmos(client: Storage.Client, json: Storage.Json, newId: string): NoteService.Database
  {
    NoteService.Database(
      n => var o := Storage.CreateNote(client, json, newId, n); Ret(o.value, o.err),
      n => var o := Storage.UpdateNote(client, json, n); Ret(o.value, o.err),
      (id, category) => Storage.DeleteNote(client, id, category).err,
      category => var o := Listing.ListNotes(client, json, category); Ret(o.value, o.err),
      (category, id) => var o := Storage.GetNoteById(client, json, category, id); Ret(o.value, o.err))
  }

  /** The (status, code) a backend status is meant to reach HTTP as; (0, "") means unrecognised. */
  function HttpOfStatus(status: Option<int>): (int, string)
  {
    match status
    case Some(400) => (400, "InvalidInput")
    case Some(404) => (404, "NotFound")
    case Some(409) => (409, "AlreadyExists")
    case _ => (0, "")
  }

  /**
   The error wraps none of the storage sentinels the service recognises and
   none of the sentinels of the HTTP table: a raw backend or transport
   failure, even one that wraps `io.EOF` or `io.ErrUnexpectedEOF`.
   */
  predicate NoKnownSentinel(e: Error)
  {
    !Is(e, DbInvalidInput) && !Is(e, DbNotFound) && !Is(e, DbAlreadyExists) && !Matches(e)
  }

  /**
   A backend status of 400, 404 or 409 passes the storage and service
   classifications and reaches HTTP as 400 `InvalidInput`, 404 `NotFound` or
   409 `AlreadyExists`; every other failure, transport failures included, is
   unrecognised at the HTTP layer.
   */
  lemma BackendStatusReachesHttp(cause: Error, order: seq<Entry>)
    requires IsTableOrder(order)
    requires NoKnownSentinel(cause)
    ensures ErrorCodes(NoteService.CheckError(Some(Storage.CheckError(Some(cause)))), order)
            == HttpOfStatus(AsResponse(cause))
  {
    var status := AsResponse(cause);
    if status == Some(400) || status == Some(404) || status == Some(409) {
      RecognisedStatusReachesHttp(cause, order);
    } else {
      OtherFailureIsUnrecognised(cause, order);
    }
  }

  /** The three recognised statuses map to their rows, whatever the cause wraps. */
  lemma RecognisedStatusReachesHttp(cause: Error, order: seq<Entry>)
    requires IsTableOrder(order)
    requires AsResponse(cause) == Some(400) || AsResponse(cause) == Some(404) || AsResponse(cause) == Some(409)
    ensures ErrorCodes(NoteService.CheckError(Some(Storage.CheckError(Some(cause)))), order)
            == HttpOfStatus(AsResponse(cause))
  {
    var d := Storage.CheckError(Some(cause));
    if AsResponse(cause) == Some(400) {
      assert d == Named(DbInvalidInput);
      ServiceTranslates(d, order, Table[3]);
    } else if AsResponse(cause) == Some(404) {
      assert d == Named(DbNotFound);
      ServiceTranslates(d, order, Table[4]);
    } else {
      assert d == Named(DbAlreadyExists);
      ServiceTranslates(d, order, Table[5]);
    }
  }

  /** The storage sentinels the service recognises map to the table row of their service counterpart. */
  lemma ServiceTranslates(d: Error, order: seq<Entry>, x: Entry)
    requires IsTableOrder(order)
    requires || (d == Named(DbInvalidInput) && x == Table[3])
             || (d == Named(DbNotFound) && x == Table[4])
             || (d == Named(DbAlreadyExists) && x == Table[5])
    ensures ErrorCodes(NoteService.CheckError(Some(d)), order) == (x.status, x.code)
  {
    var e := NoteService.CheckError(Some(d));
    assert e == Named(x.target);
    SoleMatchDecides(e, order, x);
  }

  /** Any other failure of a cause with no known sentinel ends up matching no table row. */
  lemma OtherFailureIsUnrecognised(cause: Error, order: seq<Entry>)
    requires IsTableOrder(order)
    requires NoKnownSentinel(cause)
    requires AsResponse(cause) != Some(400) && AsResponse(cause) != Some(404) && AsResponse(cause) != Some(409)
    ensures ErrorCodes(NoteService.CheckError(Some(Storage.CheckError(Some(cause)))), order) == (0, "")
  {
    var d := Storage.CheckError(Some(cause));
    assert d == Join(Named(DbInternal), cause);
    WrappedCauseIsUnmatched(cause);
    var e := NoteService.CheckError(Some(d));
    assert e == Join(Named(SvcService), d);
    NoMatchIsUnrecognised(e, order);
  }

  /**
   A cause with no known sentinel, wrapped in the internal sentinel, is none
   of the storage sentinels the service recognises, and once the service
   sentinel is added it still matches no table row.
   */
  lemma WrappedCauseIsUnmatched(cause: Error)
    requires NoKnownSentinel(cause)
    ensures var d := Join(Named(DbInternal), cause);
            !Is(d, DbInvalidInput) && !Is(d, DbNotFound) && !Is(d, DbAlreadyExists)
    ensures !Matches(Join(Named(SvcService), Join(Named(DbInternal), cause)))
  {
    var d := Join(Named(DbInternal), cause);
    var e := Join(Named(SvcService), d);
    forall t | t != SvcService && t != DbInternal
      ensures Is(e, t) == Is(cause, t)
    {
      assert Is(d, t) == Is(cause, t);
    }
  }

  /**
   Creating through the service always stores, and answers with, the
   generator's identifier, whatever identifier the caller supplied; the
   category and text survive.
   */
  lemma CreateUsesGeneratedId(client: Storage.Client, json: Storage.Json, newId: string,
                              logger: NoteService.Logger, timeout: Duration,
                              note: NoteService.Note, now: Time)
    requires var d := NoteService.ToNoteDB(note, now);
             json.marshal(d.(id := newId)).Success?
             && client.send(Storage.CreateItem(note.category, json.marshal(d.(id := newId)).value)).Replied?
    ensures NoteService.CreateNote(NoteService.Service(Cosmos(client, json, newId), logger, timeout), note, now)
            == Ret(NoteService.Note(newId, note.category, note.text), None)
  {
  }

  /**
   Deleting a note the store does not have is not idempotent: the backend's
   404 reaches the client as 404 `NotFound` with the bare "not found" text.
   */
  lemma DeleteMissingNoteIs404(client: Storage.Client, json: Storage.Json, newId: string,
                               logger: NoteService.Logger, timeout: Duration, order: seq<Entry>,
                               parse: Handlers.UuidParser, pathId: string, body: Ret<Handlers.NoteRequest>,
                               uuid: string, text: string)
    requires IsTableOrder(order)
    requires |pathId| > 0 && body.err.None? && |body.value.category| > 0
    requires parse(pathId) == Success(uuid)
    requires client.send(Storage.DeleteItem(body.value.category, uuid)) == Storage.Failed(Response(404, text))
    ensures Handlers.DeleteNoteHandler(NoteService.Service(Cosmos(client, json, newId), logger, timeout),
                                       order, parse, pathId, body)
            == HttpResponse(404, ErrorBody(ResponseError(404, "NotFound", "not found")))
  {
    var note := NoteService.Note(uuid, body.value.category, "");
    assert Handlers.ToDeleteNote(pathId, body.value, parse) == Ret(note, None);
    MissingNoteDeleteIsNotFound(client, json, newId, logger, timeout, note, text);
    NotFoundIsWritten404(order);
  }

  /** The service reports a delete the backend answers 404 as its own not-found sentinel. */
  lemma MissingNoteDeleteIsNotFound(client: Storage.Client, json: Storage.Json, newId: string,
                                    logger: NoteService.Logger, timeout: Duration,
                                    note: NoteService.Note, text: string)
    requires client.send(Storage.DeleteItem(note.category, note.id)) == Storage.Failed(Response(404, text))
    ensures NoteService.DeleteNote(NoteService.Service(Cosmos(client, json, newId), logger, timeout), note)
            == Some(Named(SvcNotFound))
  {
    var svc := NoteService.Service(Cosmos(client, json, newId), logger, timeout);
    assert Storage.CheckError(Some(Response(404, text))) == Named(DbNotFound);
    assert svc.db.delete(note.id, note.category) == Some(Named(DbNotFound));
  }

  /** Service not-found is written as 404 `NotFound` with its text. */
  lemma NotFoundIsWritten404(order: seq<Entry>)
    requires IsTableOrder(order)
    ensures Handlers.WriteClassified(Named(SvcNotFound), order)
            == HttpResponse(404, ErrorBody(ResponseError(404, "NotFound", "not found")))
  {
    Handlers.RecognisedIsWritten(Named(SvcNotFound), order, Table[4]);
    NotFoundResponse();
  }

  /**
   A worked example: the exact response `writeError` builds for bare service
   not-found with status 404. `NotFoundIsWritten404` states the same response
   for every iteration order.
   */
  lemma NotFoundResponse()
    ensures WriteError(404, "NotFound", Some(Named(SvcNotFound)))
            == HttpResponse(404, ErrorBody(ResponseError(404, "NotFound", "not found")))
  {
  }

  /**
   An update that the backend rejects reaches the client with the status the
   backend status maps to, or as the cause-free 500 when it maps to nothing.
   */
  lemma UpdateFailureReachesHttp(client: Storage.Client, json: Storage.Json, newId: string,
                                 logger: NoteService.Logger, timeout: Duration, now: Time, order: seq<Entry>,
                                 parse: Handlers.UuidParser, pathId: string, body: Ret<Handlers.NoteRequest>,
                                 uuid: string, cause: Error)
    requires IsTableOrder(order)
    requires NoKnownSentinel(cause)
    requires |pathId| > 0 && body.err.None? && parse(pathId) == Success(uuid)
    requires var d := Storage.Note(uuid, body.value.category, body.value.text, now);
             json.marshal(d).Success?
             && client.send(Storage.ReplaceItem(body.value.category, uuid, json.marshal(d).value))
                == Storage.Failed(cause)
    ensures var r := Handlers.UpdateNoteHandler(NoteService.Service(Cosmos(client, json, newId), logger, timeout),
                                                now, order, parse, pathId, body);
            && (HttpOfStatus(AsResponse(cause)).0 == 0 ==> r == ServerErrorResponse)
            && (HttpOfStatus(AsResponse(cause)).0 != 0 ==>
                  r.status == HttpOfStatus(AsResponse(cause)).0
                  && r.body.ErrorBody?
                  && r.body.error.code == HttpOfStatus(AsResponse(cause)).1)
  {
    BackendStatusReachesHttp(cause, order);
  }

  /**
   Reading a missing note gives service not-found with the category and id as
   context; it still maps to 404 `NotFound`.
   */
  lemma ReadMissingNoteIs404(client: Storage.Client, json: Storage.Json, newId: string,
                             logger: NoteService.Logger, timeout: Duration, order: seq<Entry>,
                             category: string, id: string, text: string)
    requires IsTableOrder(order)
    requires client.send(Storage.ReadItem(category, id)) == Storage.Failed(Response(404, text))
    ensures var r := NoteService.GetNoteById(NoteService.Service(Cosmos(client, json, newId), logger, timeout),
                                             category, id);
            && r.value == NoteService.ZeroNote
            && r.err.Some?
            && Message(r.err.value) == "category " + category + ", id " + id + ": not found"
            && ErrorCodes(r.err.value, order) == (404, "NotFound")
  {
    var svc := NoteService.Service(Cosmos(client, json, newId), logger, timeout);
    MissingNoteReadIsNotFound(client, json, newId, category, id, text);
    var e := NoteService.NotFoundIn("category " + category + ", id " + id);
    assert NoteService.GetNoteById(svc, category, id) == Ret(NoteService.ZeroNote, Some(e));
    NotFoundInIs404(order, "category " + category + ", id " + id);
  }

  /** The storage layer reports a read the backend answers 404 as its not-found sentinel. */
  lemma MissingNoteReadIsNotFound(client: Storage.Client, json: Storage.Json, newId: string,
                                  category: string, id: string, text: string)
    requires client.send(Storage.ReadItem(category, id)) == Storage.Failed(Response(404, text))
    ensures Cosmos(client, json, newId).getById(category, id).err == Some(Named(DbNotFound))
  {
    assert Storage.CheckError(Some(Response(404, text))) == Named(DbNotFound);
    assert Storage.GetNoteById(client, json, category, id).err == Some(Named(DbNotFound));
  }

  /** Service not-found with any context still maps to 404 `NotFound`. */
  lemma NotFoundInIs404(order: seq<Entry>, context: string)
    requires IsTableOrder(order)
    ensures ErrorCodes(NoteService.NotFoundIn(context), order) == (404, "NotFound")
  {
    SoleMatchDecides(NoteService.NotFoundIn(context), order, Table[4]);
  }

  /** A category with no pages lists as empty, without error. */
  lemma EmptyCategoryListsEmpty(client: Storage.Client, json: Storage.Json, newId: string,
                                logger: NoteService.Logger, timeout: Duration, category: string)
    requires client.query(category, Storage.SelectAll) == []
    ensures NoteService.GetNotesByCategory(NoteService.Service(Cosmos(client, json, newId), logger, timeout), category)
            == Ret([], None)
  {
  }

  /**
   Listing failures are not classified by the storage layer, so a backend 404
   while paging becomes a plain service error, unrecognised at the HTTP
   layer, not a not-found.
   */
  lemma ListingFailureIsUnclassified(client: Storage.Client, json: Storage.Json, newId: string,
                                     logger: NoteService.Logger, timeout: Duration, order: seq<Entry>,
                                     category: string, text: string)
    requires IsTableOrder(order)
    requires client.query(category, Storage.SelectAll) == [Storage.PageFailed(Response(404, text))]
    ensures var r := NoteService.GetNotesByCategory(NoteService.Service(Cosmos(client, json, newId), logger, timeout),
                                                    category);
            && r.value == []
            && r.err == Some(Join(Named(SvcService), Response(404, text)))
            && ErrorCodes(r.err.value, order) == (0, "")
  {
    var svc := NoteService.Service(Cosmos(client, json, newId), logger, timeout);
    var cause := Response(404, text);
    SinglePageFailure(client, json, category, cause);
    assert svc.db.listByCategory(category) == Ret([], Some(cause));
    RawServiceErrorIsUnrecognised(cause, order);
  }

  /**
   The service's not-found branch for listings is reached only through a raw
   error that itself wraps storage `ErrNotFound`: when no page error and no
   item decode error does, a failed listing comes back as the re-classified
   raw error, never as the not-found with category context.
   */
  lemma ListingSkipsNotFoundBranch(client: Storage.Client, json: Storage.Json, newId: string,
                                   logger: NoteService.Logger, timeout: Duration, category: string,
                                   pages: seq<Storage.Page>)
    requires client.query(category, Storage.SelectAll) == pages
    requires forall i :: 0 <= i < |pages| && pages[i].PageFailed? ==> !Is(pages[i].err, DbNotFound)
    requires forall b :: b in Listing.Items(pages) && json.unmarshal(b).Failure? ==> !Is(json.unmarshal(b).error, DbNotFound)
    ensures var r := NoteService.GetNotesByCategory(NoteService.Service(Cosmos(client, json, newId), logger, timeout),
                                                    category);
            var l := Listing.ListNotes(client, json, category);
            && (r.err.Some? <==> l.err.Some?)
            && (r.err.Some? ==> r.err == Some(NoteService.CheckError(l.err)))
            && r.err != Some(NoteService.NotFoundIn("category " + category))
  {
    var svc := NoteService.Service(Cosmos(client, json, newId), logger, timeout);
    var l := Listing.ListNotes(client, json, category);
    assert svc.db.listByCategory(category) == Ret(l.value, l.err);
    if l.err.Some? {
      var e := l.err.value;
      assert Listing.Collect(pages, json) == Failure(e);
      Listing.CollectFailureIsRaw(pages, json);
      if exists i :: 0 <= i < |pages| && pages[i] == Storage.PageFailed(e) {
        var i :| 0 <= i < |pages| && pages[i] == Storage.PageFailed(e);
      } else {
        var b :| b in Listing.Items(pages) && json.unmarshal(b) == Failure(e);
      }
      var c := NoteService.CheckError(l.err);
      assert c.Named? || c.Join?;
    }
  }

  /**
   A raw backend error that reaches the service unclassified becomes a plain
   service error around it, and that is unrecognised at the HTTP layer.
   */
  lemma RawServiceErrorIsUnrecognised(cause: Error, order: seq<Entry>)
    requires IsTableOrder(order) && NoKnownSentinel(cause)
    ensures NoteService.CheckError(Some(cause)) == Join(Named(SvcService), cause)
    ensures ErrorCodes(Join(Named(SvcService), cause), order) == (0, "")
  {
    var e := Join(Named(SvcService), cause);
    forall t | t != SvcService
      ensures Is(e, t) == Is(cause, t)
    {
    }
    NoMatchIsUnrecognised(e, order);
  }

  /** A pager whose only page fails makes the listing fail with that page's raw error. */
  lemma SinglePageFailure(client: Storage.Client, json: Storage.Json, category: string, cause: Error)
    requires client.query(category, Storage.SelectAll) == [Storage.PageFailed(cause)]
    ensures Listing.ListNotes(client, json, category).err == Some(cause)
  {
    var pages := [Storage.PageFailed(cause)];
    assert pages[..0] == [];
    assert Listing.Collect(pages, json) == Failure(cause);
  }
}
