/**
 The note service (package `notes`): construction with functional options, the
 field mapping between the service's note and the storage note, the
 re-classification of storage errors into service sentinels, and the five
 operations over an injected `database`.

 Typing: both note shapes carry the identifier as a string; the service note's
 identifier is the canonical text of a UUID, and its zero value is the nil
 UUID's text. The `database` interface returns a note from Create and Update,
 as notes/service.go declares it.
 */
module NoteService {
  import opened Wrappers
  import opened GoTime
  import opened GoErrors
  import Storage
  import FunctionalOptions

  /** `defaultServiceTimeout`. */
  const DefaultTimeout: Duration := 15 * Second

  /** The text of the zero `uuid.UUID`. */
  const NilUuid := "00000000-0000-0000-0000-000000000000"

  /** `notes.Note`. */
  datatype Note = Note(id: string, category: string, text: string)

  /** `notes.Note{}`. */
  const ZeroNote := Note(NilUuid, "", "")

  /** The `database` interface: what the storage layer answers to each call. */
  datatype Database = Database(
    create: Storage.Note -> Ret<Storage.Note>,
    update: Storage.Note -> Ret<Storage.Note>,
    delete: (string, string) -> Option<Error>,      // (id, category)
    listByCategory: string -> Ret<seq<Storage.Note>>,
    getById: (string, string) -> Ret<Storage.Note>)  // (category, id)

  /** The injected logging sink; only its presence matters here. */
  datatype Logger = Logger

  /** `ServiceOptions`. */
  datatype ServiceOptions = ServiceOptions(logger: Option<Logger>, timeout: Duration)

  /** `ServiceOption`: any rewrite of the options record. */
  type ServiceOption = ServiceOptions -> ServiceOptions

  /** The options record before any option runs. */
  const DefaultOptions := ServiceOptions(None, DefaultTimeout)

  /** `service`: the database, the logger and the per-call timeout. */
  datatype Service = Service(db: Database, logger: Logger, timeout: Duration)

  /**
   `NewService`: a missing database is rejected first, then a missing logger;
   otherwise the options run in order over the defaults and the service takes
   the resulting timeout.
   */
  function NewService(db: Option<Database>, logger: Option<Logger>, options: seq<ServiceOption>)
    : (r: Result<Service, Error>)
    ensures db.None? ==> r == Failure(Named(SvcDbRequired))
    ensures db.Some? && logger.None? ==> r == Failure(Named(SvcLoggerRequired))
    ensures db.Some? && logger.Some? ==>
              && r.Success?
              && r.value.db == db.value
              && r.value.logger == logger.value
              && r.value.timeout == FunctionalOptions.ApplyAll(options, DefaultOptions).timeout
  {
    if db.None? then Failure(Named(SvcDbRequired))
    else if logger.None? then Failure(Named(SvcLoggerRequired))
    else
      var opts := FunctionalOptions.ApplyAll(options, DefaultOptions);
      Success(Service(db.value, logger.value, opts.timeout))
  }

  /** Without options the timeout is 15 seconds; with options, the last one to set it decides. */
  lemma NewServiceTimeout(db: Database, logger: Logger, options: seq<ServiceOption>, last: ServiceOption)
    ensures NewService(Some(db), Some(logger), []).value.timeout == 15 * Second
    ensures NewService(Some(db), Some(logger), options + [last]).value.timeout
            == last(FunctionalOptions.ApplyAll(options, DefaultOptions)).timeout
  {
    FunctionalOptions.ApplyAllSnoc(options, last, DefaultOptions);
  }

  // ---------------------------------------------------------------------------
  // Field mapping

  /** `toNoteDB`: copies the fields and stamps the creation time with `now`, on every conversion. */
  function ToNoteDB(note: Note, now: Time): (d: Storage.Note)
    ensures FromNoteDB(d) == note
    ensures d.createdAt == now
  {
    Storage.Note(note.id, note.category, note.text, now)
  }

  /** `fromNoteDB`: copies the fields and drops the timestamp. */
  function FromNoteDB(d: Storage.Note): Note
  {
    Note(d.id, d.category, d.text)
  }

  /** Converting a storage note back stamped with its own timestamp restores it. */
  lemma StorageRoundTrip(d: Storage.Note)
    ensures ToNoteDB(FromNoteDB(d), d.createdAt) == d
  {
  }

  // ---------------------------------------------------------------------------
  // Errors (notes/errors.go)

  /** A service error callers can match against one of the service sentinels. */
  predicate Classified(e: Error)
  {
    Is(e, SvcService) || Is(e, SvcInvalidInput) || Is(e, SvcNotFound) || Is(e, SvcAlreadyExists)
  }

  /**
   `checkError`: storage invalid-input, not-found and already-exists become
   the service's own sentinels, tried in that order; anything else, nil
   included, becomes `ErrService`, still wrapping the cause.
   */
  function CheckError(err: Option<Error>): (r: Error)
    ensures Classified(r)
    ensures err.Some? && Is(err.value, DbInvalidInput) ==> r == Named(SvcInvalidInput)
    ensures err.Some? && !Is(err.value, DbInvalidInput) && Is(err.value, DbNotFound) ==> r == Named(SvcNotFound)
    ensures (err.Some? && !Is(err.value, DbInvalidInput) && !Is(err.value, DbNotFound)
             && Is(err.value, DbAlreadyExists)) ==> r == Named(SvcAlreadyExists)
    ensures (err.Some? && !Is(err.value, DbInvalidInput) && !Is(err.value, DbNotFound)
             && !Is(err.value, DbAlreadyExists)) ==>
              r == Join(Named(SvcService), err.value)
    ensures err.None? ==> r == Wrap("service error: %!w(<nil>)", Named(SvcService))
  {
    match err
    case None => Wrap("service error: %!w(<nil>)", Named(SvcService))
    case Some(e) =>
      if Is(e, DbInvalidInput) then Named(SvcInvalidInput)
      else if Is(e, DbNotFound) then Named(SvcNotFound)
      else if Is(e, DbAlreadyExists) then Named(SvcAlreadyExists)
      else Join(Named(SvcService), e)
  }

  /**
   Re-classification never loses a sentinel: an error that is not a storage
   invalid-input, not-found or already-exists comes back matching
   `ErrService` and exactly the sentinels it matched before; a nil error
   comes back matching `ErrService` alone.
   */
  lemma ServiceErrorKeepsCause(err: Option<Error>)
    requires err.Some? ==> !Is(err.value, DbInvalidInput) && !Is(err.value, DbNotFound)
                           && !Is(err.value, DbAlreadyExists)
    ensures forall t :: Is(CheckError(err), t) <==> t == SvcService || (err.Some? && Is(err.value, t))
  {
    if err.Some? {
      assert CheckError(err) == Join(Named(SvcService), err.value);
    } else {
      assert CheckError(err) == Wrap("service error: %!w(<nil>)", Named(SvcService));
    }
  }

  /**
   `fmt.Errorf("<context>: %w", ErrNotFound)`: service not-found with
   diagnostic context; it matches `ErrNotFound` and nothing else.
   */
  function NotFoundIn(context: string): (r: Error)
    ensures forall t :: Is(r, t) <==> t == SvcNotFound
    ensures Message(r) == context + ": not found"
  {
    Wrap(context + ": " + SentinelText(SvcNotFound), Named(SvcNotFound))
  }

  // ---------------------------------------------------------------------------
  // Operations (notes/service.go)

  /** `CreateNote`: sends the converted note, maps the stored note back; any failure gives the zero note. */
  function CreateNote(s: Service, note: Note, now: Time): (r: Ret<Note>)
    ensures var d := s.db.create(ToNoteDB(note, now));
            && (r.err.Some? <==> d.err.Some?)
            && (r.err.Some? ==> r.value == ZeroNote && r.err == Some(CheckError(d.err)))
            && (r.err.None? ==> r.value == FromNoteDB(d.value))
  {
    var d := s.db.create(ToNoteDB(note, now));
    if d.err.Some? then Ret(ZeroNote, Some(CheckError(d.err))) else Ret(FromNoteDB(d.value), None)
  }

  /** `UpdateNote`: as Create, with the converted note sent for replacement (freshly stamped too). */
  function UpdateNote(s: Service, note: Note, now: Time): (r: Ret<Note>)
    ensures var d := s.db.update(ToNoteDB(note, now));
            && (r.err.Some? <==> d.err.Some?)
            && (r.err.Some? ==> r.value == ZeroNote && r.err == Some(CheckError(d.err)))
            && (r.err.None? ==> r.value == FromNoteDB(d.value))
  {
    var d := s.db.update(ToNoteDB(note, now));
    if d.err.Some? then Ret(ZeroNote, Some(CheckError(d.err))) else Ret(FromNoteDB(d.value), None)
  }

  /** `DeleteNote`: deletes by the note's ID and category; a failure is re-classified. */
  function DeleteNote(s: Service, note: Note): (r: Option<Error>)
    ensures r.None? <==> s.db.delete(note.id, note.category).None?
    ensures r.Some? ==> r.value == CheckError(s.db.delete(note.id, note.category))
  {
    var e := s.db.delete(note.id, note.category);
    if e.Some? then Some(CheckError(e)) else None
  }

  /**
   `GetNotesByCategory`: maps every storage note back, position by position.
   Storage not-found becomes service not-found with the category as context;
   other failures are re-classified; every failure gives no notes.
   */
  function GetNotesByCategory(s: Service, category: string): (r: Ret<seq<Note>>)
    ensures var d := s.db.listByCategory(category);
            && (r.err.Some? <==> d.err.Some?)
            && (r.err.Some? ==> r.value == [])
            && (r.err.None? ==> |r.value| == |d.value|)
            && (r.err.None? ==> forall i :: 0 <= i < |d.value| ==> r.value[i] == FromNoteDB(d.value[i]))
            && (d.err.Some? && Is(d.err.value, DbNotFound) ==> r.err == Some(NotFoundIn("category " + category)))
            && (d.err.Some? && !Is(d.err.value, DbNotFound) ==> r.err == Some(CheckError(d.err)))
  {
    var d := s.db.listByCategory(category);
    if d.err.Some? then
      if Is(d.err.value, DbNotFound) then Ret([], Some(NotFoundIn("category " + category)))
      else Ret([], Some(CheckError(d.err)))
    else
      Ret(seq(|d.value|, i requires 0 <= i < |d.value| => FromNoteDB(d.value[i])), None)
  }

  /**
   `GetNoteByID`: storage not-found becomes service not-found with category
   and id as context; other failures are re-classified and give the zero note.
   */
  function GetNoteById(s: Service, category: string, id: string): (r: Ret<Note>)
    ensures var d := s.db.getById(category, id);
            && (r.err.Some? <==> d.err.Some?)
            && (r.err.Some? ==> r.value == ZeroNote)
            && (r.err.None? ==> r.value == FromNoteDB(d.value))
            && (d.err.Some? && Is(d.err.value, DbNotFound) ==>
                  r.err == Some(NotFoundIn("category " + category + ", id " + id)))
            && (d.err.Some? && !Is(d.err.value, DbNotFound) ==> r.err == Some(CheckError(d.err)))
  {
    var d := s.db.getById(category, id);
    if d.err.Some? then
      if Is(d.err.value, DbNotFound) then Ret(ZeroNote, Some(NotFoundIn("category " + category + ", id " + id)))
      else Ret(ZeroNote, Some(CheckError(d.err)))
    else
      Ret(FromNoteDB(d.value), None)
  }
}
