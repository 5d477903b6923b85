/**
 * The older `agent` type of the main package: an agent that knows its port
 * and builds its server lazily. The `*http.Server` field is `server`: None
 * while nil, and otherwise the listen address (its handler is always the
 * mux built alongside it).
 */
module RootAgent {
  import opened Wrappers
  import opened Text
  import opened Http
  import opened Payloads
  import opened AgentHandlers
  import opened Dispatch

  class Agent {
    var port: int
    var server: Option<string>
    var dumpedSpans: seq<Span>
    var endpointCombos: seq<Combo>
    var running: bool

    /** `&agent{port: port}`: every other field at its zero value. */
    constructor (port: int)
      ensures this.port == port && server.None? && !running
      ensures dumpedSpans == [] && endpointCombos == []
    {
      this.port := port;
      server := None;
      dumpedSpans := [];
      endpointCombos := [];
      running := false;
    }

    /**
     * `initServer`: when there is no server yet, builds the entries (traces,
     * discovery, ping) and a server listening on `:<port>`; otherwise does
     * nothing, so a second call changes nothing.
     */
    method InitServer()
      modifies this`server, this`endpointCombos
      ensures old(server).Some? ==> server == old(server) && endpointCombos == old(endpointCombos)
      ensures old(server).None? ==> server == Some(":" + Itoa(port)) && endpointCombos == DefaultCombos
    {
      if server.None? {
        endpointCombos := DefaultCombos;
        server := Some(":" + Itoa(port));
      }
    }

    /** `start`: initialise, then listen. */
    method Start()
      modifies this`server, this`endpointCombos, this`running
      ensures running
      ensures old(server).Some? ==> server == old(server) && endpointCombos == old(endpointCombos)
      ensures old(server).None? ==> server == Some(":" + Itoa(port)) && endpointCombos == DefaultCombos
    {
      InitServer();
      running := true;
    }

    /**
     * `stop`: no server means no error; otherwise the outcome of `Shutdown`,
     * which is the parameter `shutdownFails`.
     */
    method Stop(shutdownFails: bool) returns (failed: bool)
      modifies this`running
      ensures failed == (server.Some? && shutdownFails)
      ensures server.Some? && !shutdownFails ==> !running
      ensures !(server.Some? && !shutdownFails) ==> running == old(running)
    {
      if server.Some? {
        failed := shutdownFails;
        if !failed {
          running := false;
        }
      } else {
        failed := false;
      }
    }

    /**
     * One request through the mux built by `initServer`: `/dump` returns the
     * buffer, the catch-all answers `/`, runs the first matching entry (the
     * traces entry appends the decoded batch to the buffer) or answers 404.
     */
    method Serve(req: Request, codec: Codec) returns (resp: Response)
      requires server.Some?
      modifies this`dumpedSpans
      ensures Served(resp, dumpedSpans) == Handle(old(dumpedSpans), endpointCombos, req, codec)
    {
      if req.path == DumpPath {
        resp := DumpHandler(Some(dumpedSpans), codec.encodeSpans);
        return;
      }
      var route := CatchAll(endpointCombos, req.url);
      match route
      case Root =>
        resp := Status(StatusOK);
      case NotFound =>
        resp := Status(StatusNotFound);
      case Matched(Traces) =>
        var o := TracesHandler(req.body, codec.decodeSpans, true);
        if o.delivered.Some? {
          dumpedSpans := dumpedSpans + o.delivered.value;
        }
        resp := o.response;
      case Matched(Discovery) =>
        resp := DiscoveryHandler(req.body, codec);
      case Matched(Ping) =>
        resp := PingHandler();
    }
  }
}
