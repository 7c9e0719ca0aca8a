/**
 Server construction (server/server.go `New`, `WithOptions`;
 server/options.go `WithAddress`): defaults, functional options applied in
 order, and the defaults that fill what the options left unset.
 */
module ServerSetup {
  import opened Wrappers
  import opened GoTime
  import opened GoErrors
  import NoteService
  import FunctionalOptions
  import Decimal

  const DefaultHost := "localhost"
  const DefaultPort := "3000"
  const DefaultReadTimeout: Duration := 15 * Second
  const DefaultWriteTimeout: Duration := 15 * Second
  const DefaultIdleTimeout: Duration := 30 * Second

  /** An `*http.ServeMux`, known by identity. */
  datatype Router = Router(id: nat)

  /** The configurable part of the `*http.Server`. */
  datatype HttpServer = HttpServer(
    addr: string,
    handler: Option<Router>,
    readTimeout: Duration,
    writeTimeout: Duration,
    idleTimeout: Duration)

  /** `server`: the HTTP server, its router and the note service. */
  datatype Server = Server(http: HttpServer, router: Option<Router>, notes: NoteService.Service)

  /** `Options`. */
  datatype Options = Options(
    router: Option<Router>,
    host: string,
    port: int,
    readTimeout: Duration,
    writeTimeout: Duration,
    idleTimeout: Duration)

  /** `Option`: any rewrite of the server under construction. */
  type ServerOption = Server -> Server

  /** The server `New` builds before running the options. */
  function Initial(notes: NoteService.Service): Server
  {
    Server(HttpServer("", None, DefaultReadTimeout, DefaultWriteTimeout, DefaultIdleTimeout), None, notes)
  }

  /**
   What `WithOptions(options)` does to a server: a supplied router becomes the
   router and the handler; a non-empty host or a positive port sets the address
   to host ":" port; each timeout is overwritten only by a positive value.
   */
  function Configure(o: Options, s: Server): (r: Server)
    ensures r.notes == s.notes
    ensures o.router.Some? ==> r.router == o.router && r.http.handler == o.router
    ensures o.router.None? ==> r.router == s.router && r.http.handler == s.http.handler
    ensures |o.host| > 0 || o.port > 0 ==> r.http.addr == o.host + ":" + Decimal.Itoa(o.port)
    ensures |o.host| == 0 && o.port <= 0 ==> r.http.addr == s.http.addr
    ensures r.http.readTimeout == if o.readTimeout > 0 then o.readTimeout else s.http.readTimeout
    ensures r.http.writeTimeout == if o.writeTimeout > 0 then o.writeTimeout else s.http.writeTimeout
    ensures r.http.idleTimeout == if o.idleTimeout > 0 then o.idleTimeout else s.http.idleTimeout
  {
    var s1 := if o.router.Some? then s.(router := o.router, http := s.http.(handler := o.router)) else s;
    var s2 := if |o.host| > 0 || o.port > 0 then s1.(http := s1.http.(addr := o.host + ":" + Decimal.Itoa(o.port))) else s1;
    var s3 := if o.readTimeout > 0 then s2.(http := s2.http.(readTimeout := o.readTimeout)) else s2;
    var s4 := if o.writeTimeout > 0 then s3.(http := s3.http.(writeTimeout := o.writeTimeout)) else s3;
    if o.idleTimeout > 0 then s4.(http := s4.http.(idleTimeout := o.idleTimeout)) else s4
  }

  /** `WithOptions`. */
  function WithOptions(o: Options): ServerOption
  {
    s => Configure(o, s)
  }

  /** What `WithAddress(address)` does: sets the address, even to the empty string. */
  function SetAddress(address: string, s: Server): (r: Server)
    ensures r.http.addr == address
    ensures r.router == s.router && r.notes == s.notes
    ensures r.http == s.http.(addr := address)
  {
    s.(http := s.http.(addr := address))
  }

  /** `WithAddress`. */
  function WithAddress(address: string): ServerOption
  {
    s => SetAddress(address, s)
  }

  /** Applying the same `Options` twice is the same as applying them once. */
  lemma ConfigureIdempotent(o: Options, s: Server)
    ensures Configure(o, Configure(o, s)) == Configure(o, s)
  {
  }

  /** Empty `Options` leave the server as it was. */
  lemma ConfigureEmptyKeeps(s: Server)
    ensures Configure(Options(None, "", 0, 0, 0, 0), s) == s
  {
  }

  /**
   The address `WithOptions` writes is the host, a colon, and a port text
   that reads back as the given port (so an empty host with port p gives ":p").
   */
  lemma ConfiguredAddressParts(o: Options, s: Server)
    requires |o.host| > 0 || o.port > 0
    ensures var a := Configure(o, s).http.addr;
            && |a| > |o.host|
            && a[..|o.host|] == o.host
            && a[|o.host|] == ':'
            && ':' !in a[|o.host| + 1..]
            && a[|o.host| + 1..] == Decimal.Itoa(o.port)
  {
    var a := Configure(o, s).http.addr;
    assert a == o.host + ":" + Decimal.Itoa(o.port);
    assert a[|o.host| + 1..] == Decimal.Itoa(o.port);
  }

  /**
   `New`: a missing note service is an error; otherwise the options run in
   order over the defaults, a fresh router is installed as router and handler
   only if none was supplied, and an empty address becomes "localhost:3000".
   */
  function New(notes: Option<NoteService.Service>, options: seq<ServerOption>, newRouter: Router)
    : (r: Result<Server, Error>)
    ensures notes.None? <==> r.Failure?
    ensures notes.None? ==> r.error == Fresh("notes service is nil")
    ensures notes.Some? ==>
              var c := FunctionalOptions.ApplyAll(options, Initial(notes.value));
              && r.value.notes == c.notes
              && |r.value.http.addr| > 0
              && r.value.http.addr == (if |c.http.addr| == 0 then DefaultHost + ":" + DefaultPort else c.http.addr)
              && (c.router.Some? ==> r.value.router == c.router && r.value.http.handler == c.http.handler)
              && (c.router.None? ==> r.value.router == Some(newRouter) && r.value.http.handler == Some(newRouter))
              && r.value.http.readTimeout == c.http.readTimeout
              && r.value.http.writeTimeout == c.http.writeTimeout
              && r.value.http.idleTimeout == c.http.idleTimeout
  {
    if notes.None? then Failure(Fresh("notes service is nil"))
    else
      var s := FunctionalOptions.ApplyAll(options, Initial(notes.value));
      var s1 := if s.router.None? then s.(router := Some(newRouter), http := s.http.(handler := Some(newRouter))) else s;
      var s2 := if |s1.http.addr| == 0 then s1.(http := s1.http.(addr := DefaultHost + ":" + DefaultPort)) else s1;
      Success(s2)
  }

  /** With no options: address "localhost:3000", timeouts 15s/15s/30s, and the fresh router serving. */
  lemma NewDefaults(notes: NoteService.Service, newRouter: Router)
    ensures var s := New(Some(notes), [], newRouter).value;
            && s.http == HttpServer("localhost:3000", Some(newRouter), 15 * Second, 15 * Second, 30 * Second)
            && s.router == Some(newRouter)
  {
  }

  /** Options run before the address default, so `WithAddress("")` as the last option still yields "localhost:3000". */
  lemma EmptyAddressGetsDefault(notes: NoteService.Service, options: seq<ServerOption>, newRouter: Router)
    ensures New(Some(notes), options + [WithAddress("")], newRouter).value.http.addr == "localhost:3000"
  {
    FunctionalOptions.ApplyAllSnoc(options, WithAddress(""), Initial(notes));
  }

  /**
   With a single `WithOptions`: positive timeouts replace the defaults and the
   rest keep them; the router is the supplied one if any; the address is
   host:port when either is set, "localhost:3000" otherwise.
   */
  lemma NewWithOptions(notes: NoteService.Service, o: Options, newRouter: Router)
    ensures var s := New(Some(notes), [WithOptions(o)], newRouter).value;
            && s.http.readTimeout == (if o.readTimeout > 0 then o.readTimeout else 15 * Second)
            && s.http.writeTimeout == (if o.writeTimeout > 0 then o.writeTimeout else 15 * Second)
            && s.http.idleTimeout == (if o.idleTimeout > 0 then o.idleTimeout else 30 * Second)
            && s.router == (if o.router.Some? then o.router else Some(newRouter))
            && s.http.handler == s.router
            && s.http.addr == (if |o.host| > 0 || o.port > 0 then o.host + ":" + Decimal.Itoa(o.port)
                               else "localhost:3000")
  {
    var options := [WithOptions(o)];
    assert options[1..] == [];
    assert FunctionalOptions.ApplyAll(options, Initial(notes)) == Configure(o, Initial(notes));
  }
}
