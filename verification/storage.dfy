/**
 The storage layer (package `db`): the note record it persists, the
 classification of backend failures into storage sentinels, and the five
 operations over an abstract partitioned document client (Azure Cosmos DB in
 the repository). Each client call is a request value; the client answers it
 with a reply, and listing answers with a sequence of pages.
 */
module Storage {
  import opened Wrappers
  import opened GoTime
  import opened GoErrors

  type Bytes = seq<bv8>

  /** `db.Note`: the persisted shape, with its creation timestamp. */
  datatype Note = Note(id: string, category: string, text: string, createdAt: Time)

  /** `db.Note{}`. */
  const ZeroNote := Note("", "", "", 0)

  /** `json.Marshal` / `json.Unmarshal` on notes, left uninterpreted. */
  datatype Json = Json(marshal: Note -> Result<Bytes, Error>, unmarshal: Bytes -> Result<Note, Error>)

  /** A request to the container client; `partition` is the partition-key value. */
  datatype Call =
    | CreateItem(partition: string, payload: Bytes)
    | ReplaceItem(partition: string, id: string, payload: Bytes)
    | DeleteItem(partition: string, id: string)
    | ReadItem(partition: string, id: string)
    | QueryItems(partition: string, query: string)

  /** The client's answer to a single-item call. */
  datatype Reply = Replied(payload: Bytes) | Failed(err: Error)

  /** One result of `pager.NextPage`. */
  datatype Page = Page(items: seq<Bytes>) | PageFailed(err: Error)

  /**
   The abstract container client: how it answers each item call, and the pages
   a query pager yields for a partition and query text, in order.
   */
  datatype Client = Client(send: Call -> Reply, query: (string, string) -> seq<Page>)

  /** The one query the listing runs. */
  const SelectAll := "SELECT * FROM c"

  /** An operation's effect: the client call it issued (if any) and its Go return pair. */
  datatype Outcome<T> = Outcome(sent: Option<Call>, value: T, err: Option<Error>)

  // ---------------------------------------------------------------------------
  // Classification (db/errors.go)

  /** The four classes a storage failure can fall into. */
  datatype Kind = InvalidInput | NotFound | AlreadyExists | Internal

  /** The class a structured backend status belongs to. */
  function KindOfStatus(status: Option<int>): Kind
  {
    match status
    case Some(400) => InvalidInput
    case Some(404) => NotFound
    case Some(409) => AlreadyExists
    case _ => Internal
  }

  /**
   The class a caller recovers from a storage error with `errors.Is`.
   `Internal` is tested first and takes precedence: `CheckError` builds a
   `Join` only for the internal class, so an error that also wraps another
   storage sentinel is one the internal class produced.
   */
  function KindOf(e: Error): Kind
  {
    if Is(e, DbInternal) then Internal
    else if Is(e, DbInvalidInput) then InvalidInput
    else if Is(e, DbNotFound) then NotFound
    else if Is(e, DbAlreadyExists) then AlreadyExists
    else Internal
  }

  /** A storage error callers can match against one of the storage sentinels. */
  predicate Classified(e: Error)
  {
    Is(e, DbInternal) || Is(e, DbInvalidInput) || Is(e, DbNotFound) || Is(e, DbAlreadyExists)
  }

  /**
   `checkError`: classifies a client failure by the status code of the
   `*azcore.ResponseError` inside it, and by nothing else; every other failure
   becomes `ErrInternalDB` wrapping the cause. A nil input gives bare
   `ErrInternalDB`.
   */
  function CheckError(err: Option<Error>): (r: Error)
    ensures Classified(r)
    ensures err.None? ==> r == Named(DbInternal)
    ensures err.Some? ==> KindOf(r) == KindOfStatus(AsResponse(err.value))
    ensures err.Some? && KindOf(r) != Internal ==> r.Named?
    ensures err.Some? && KindOf(r) == Internal ==> r == Join(Named(DbInternal), err.value)
    ensures err.Some? && KindOf(r) == Internal ==> Message(r) == "internal database error: " + Message(err.value)
  {
    match err
    case None => Named(DbInternal)
    case Some(e) =>
      match AsResponse(e)
      case Some(400) => Named(DbInvalidInput)
      case Some(404) => Named(DbNotFound)
      case Some(409) => Named(DbAlreadyExists)
      case _ => Join(Named(DbInternal), e)
  }

  /**
   An unrecognised failure keeps its cause: the result matches `ErrInternalDB`
   and exactly the sentinels the cause matches, and nothing else.
   */
  lemma InternalKeepsCause(e: Error)
    requires KindOf(CheckError(Some(e))) == Internal
    ensures forall t :: Is(CheckError(Some(e)), t) <==> t == DbInternal || Is(e, t)
  {
    assert CheckError(Some(e)) == Join(Named(DbInternal), e);
  }

  /** What a client failure becomes when it reaches the caller. */
  function Classify(reply: Reply): Option<Error>
  {
    match reply
    case Replied(_) => None
    case Failed(e) => Some(CheckError(Some(e)))
  }

  // ---------------------------------------------------------------------------
  // Single-item operations (db/cosmos.go)

  /**
   `CreateNote`: replaces the note's ID with the generator's value `newId`
   unconditionally (the caller's note is updated through its pointer, so the
   returned value is that note on every path), marshals it and creates it in
   the note's category partition. A marshal failure returns the raw error
   without calling the client.
   */
  function CreateNote(client: Client, json: Json, newId: string, note: Note): (r: Outcome<Note>)
    ensures r.value == Note(newId, note.category, note.text, note.createdAt)
    ensures json.marshal(r.value).Failure? <==> r.sent.None?
    ensures json.marshal(r.value).Failure? ==> r.err == Some(json.marshal(r.value).error)
    ensures r.sent.Some? ==> r.sent.value == CreateItem(note.category, json.marshal(r.value).value)
    ensures r.sent.Some? ==> r.err == Classify(client.send(r.sent.value))
  {
    var stamped := note.(id := newId);
    match json.marshal(stamped)
    case Failure(e) => Outcome(None, stamped, Some(e))
    case Success(payload) =>
      var call := CreateItem(stamped.category, payload);
      Outcome(Some(call), stamped, Classify(client.send(call)))
  }

  /**
   `UpdateNote`: marshals the note and replaces the item with the note's ID in
   the note's category partition; the note itself is not changed.
   */
  function UpdateNote(client: Client, json: Json, note: Note): (r: Outcome<Note>)
    ensures r.value == note
    ensures json.marshal(note).Failure? <==> r.sent.None?
    ensures json.marshal(note).Failure? ==> r.err == Some(json.marshal(note).error)
    ensures r.sent.Some? ==> r.sent.value == ReplaceItem(note.category, note.id, json.marshal(note).value)
    ensures r.sent.Some? ==> r.err == Classify(client.send(r.sent.value))
  {
    match json.marshal(note)
    case Failure(e) => Outcome(None, note, Some(e))
    case Success(payload) =>
      var call := ReplaceItem(note.category, note.id, payload);
      Outcome(Some(call), note, Classify(client.send(call)))
  }

  /** `DeleteNote`: deletes item `id` from partition `category`; not idempotent, a missing item is the backend's 404. */
  function DeleteNote(client: Client, id: string, category: string): (r: Outcome<()>)
    ensures r.sent == Some(DeleteItem(category, id))
    ensures r.err.None? <==> client.send(DeleteItem(category, id)).Replied?
    ensures r.err.Some? ==> r.err.value == CheckError(Some(client.send(DeleteItem(category, id)).err))
  {
    var call := DeleteItem(category, id);
    Outcome(Some(call), (), Classify(client.send(call)))
  }

  /**
   `GetNoteByID`: reads item `id` from partition `category`. A client failure
   is classified; a payload that does not unmarshal returns the raw decode
   error. Every failure returns the zero note.
   */
  function GetNoteById(client: Client, json: Json, category: string, id: string): (r: Outcome<Note>)
    ensures r.sent == Some(ReadItem(category, id))
    ensures r.err.Some? ==> r.value == ZeroNote
    ensures client.send(ReadItem(category, id)).Failed? ==>
              r.err == Some(CheckError(Some(client.send(ReadItem(category, id)).err)))
    ensures client.send(ReadItem(category, id)).Replied? ==>
              match json.unmarshal(client.send(ReadItem(category, id)).payload)
              case Success(n) => r.value == n && r.err.None?
              case Failure(e) => r.err == Some(e)
  {
    var call := ReadItem(category, id);
    match client.send(call)
    case Failed(e) => Outcome(Some(call), ZeroNote, Some(CheckError(Some(e))))
    case Replied(payload) =>
      match json.unmarshal(payload)
      case Failure(e) => Outcome(Some(call), ZeroNote, Some(e))
      case Success(n) => Outcome(Some(call), n, None)
  }
}
