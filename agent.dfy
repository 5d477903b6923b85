/**
 * The `Agent` of the agent package: one mock agent bound to one address,
 * owning its span buffer and its list of (pattern, handler) entries. The
 * embedded `http.Server` is reduced to its address, whether its handler is
 * attached and whether `ListenAndServe` has been started.
 */
module AgentPackage {
  import opened Wrappers
  import opened Text
  import opened Http
  import opened Payloads
  import opened AgentHandlers
  import opened Dispatch

  datatype SecretsOptions = SecretsOptions(matcher: string, list: seq<string>)

  datatype Options = Options(
    addr: string,
    pid: nat,
    hostID: string,
    secrets: SecretsOptions,
    extraHTTPHeaders: seq<string>,
    tracingExtraHTTPHeaders: seq<string>)

  /** The host id every discovery reply of this agent carries. */
  const PlaceholderHostID: string := "88:66:5a:ff:fe:05:a5:f0"

  class Agent {
    var addr: string
    var handlerAttached: bool
    var dumpedSpans: seq<Span>
    var endpointCombos: seq<Combo>
    var running: bool

    /** The struct literal of `NewAgent`: a server with `Addr` set and nothing else. */
    constructor (addr: string)
      ensures this.addr == addr && !handlerAttached && !running
      ensures dumpedSpans == [] && endpointCombos == []
    {
      this.addr := addr;
      handlerAttached := false;
      dumpedSpans := [];
      endpointCombos := [];
      running := false;
    }

    /** `initEndpointCombos`: traces, discovery, ping, in that order. */
    method InitEndpointCombos()
      modifies this`endpointCombos
      ensures endpointCombos == DefaultCombos
    {
      endpointCombos := DefaultCombos;
    }

    /**
     * `initServer`: builds the entries and attaches the mux unless the server
     * already has a handler and a non-empty address.
     */
    method InitServer()
      modifies this`endpointCombos, this`handlerAttached
      ensures handlerAttached
      ensures old(handlerAttached) && addr != "" ==> endpointCombos == old(endpointCombos)
      ensures !(old(handlerAttached) && addr != "") ==> endpointCombos == DefaultCombos
    {
      if !handlerAttached || addr == "" {
        InitEndpointCombos();
        handlerAttached := true;
      }
    }

    /** The snapshot function handed to the dump handler: the whole buffer. */
    method Snapshot() returns (spans: seq<Span>)
      ensures spans == dumpedSpans
    {
      spans := dumpedSpans;
    }

    /** `traceHandler`: the traces handler whose callback appends the batch to the buffer. */
    method TraceHandler(body: Option<Bytes>, codec: Codec) returns (resp: Response)
      modifies this`dumpedSpans
      ensures resp == Status(StatusOK)
      ensures body.Some? && codec.decodeSpans(body.value).Some? ==>
        dumpedSpans == old(dumpedSpans) + codec.decodeSpans(body.value).value
      ensures !(body.Some? && codec.decodeSpans(body.value).Some?) ==> dumpedSpans == old(dumpedSpans)
    {
      var o := TracesHandler(body, codec.decodeSpans, true);
      if o.delivered.Some? {
        dumpedSpans := dumpedSpans + o.delivered.value;
      }
      resp := o.response;
    }

    /** One request through the mux: `/dump`, or the catch-all and the handler it selects. */
    method Serve(req: Request, codec: Codec) returns (resp: Response)
      requires handlerAttached
      modifies this`dumpedSpans
      ensures Served(resp, dumpedSpans) == Handle(old(dumpedSpans), endpointCombos, req, codec)
    {
      if req.path == DumpPath {
        var snapshot := Snapshot();
        resp := DumpHandler(Some(snapshot), codec.encodeSpans);
        return;
      }
      var route := CatchAll(endpointCombos, req.url);
      match route
      case Root =>
        resp := Status(StatusOK);
      case NotFound =>
        resp := Status(StatusNotFound);
      case Matched(Traces) =>
        resp := TraceHandler(req.body, codec);
      case Matched(Discovery) =>
        resp := DiscoveryHandler(req.body, codec);
      case Matched(Ping) =>
        resp := PingHandler();
    }

    /** `Start`: makes sure the server is initialised, then starts listening. */
    method Start()
      modifies this`endpointCombos, this`handlerAttached, this`running
      ensures handlerAttached && running
      ensures old(handlerAttached) && addr != "" ==> endpointCombos == old(endpointCombos)
      ensures !(old(handlerAttached) && addr != "") ==> endpointCombos == DefaultCombos
    {
      InitServer();
      running := true;
    }

    /**
     * `Stop`: shuts the server down and reports the outcome of `Shutdown`,
     * which is the parameter `shutdownFails`. The server is never nil here.
     */
    method Stop(shutdownFails: bool) returns (failed: bool)
      modifies this`running
      ensures failed == shutdownFails
      ensures running == (old(running) && shutdownFails)
    {
      failed := shutdownFails;
      if !failed {
        running := false;
      }
    }
  }

  /**
   * `NewAgent`: nil without options or without an address; otherwise an
   * agent on `opts.addr` with its entries built and its mux attached.
   */
  method NewAgent(opts: Option<Options>) returns (a: Agent?)
    ensures a == null <==> opts.None? || opts.value.addr == ""
    ensures a != null ==> fresh(a) && a.addr == opts.value.addr
    ensures a != null ==> a.handlerAttached && a.endpointCombos == DefaultCombos
    ensures a != null ==> a.dumpedSpans == [] && !a.running
  {
    if opts.None? {
      return null;
    }
    if opts.value.addr == "" {
      return null;
    }
    a := new Agent(opts.value.addr);
    a.InitServer();
  }

  /** The pid written back to a client: 0 means "unspecified" and becomes 1. */
  function DefaultPid(pid: int): (r: int)
    ensures r != 0
    ensures pid != 0 ==> r == pid
    ensures pid == 0 ==> r == 1
  {
    if pid == 0 then 1 else pid
  }

  /** The closure of `discoveryHandler` in the agent package: defaulted pid, placeholder host id. */
  function DiscoveryReply(dr: DiscoveryRequest): (r: DiscoveryResponse)
    ensures r.pid == DefaultPid(dr.pid)
    ensures r.hostID == PlaceholderHostID
    ensures r.secrets == ZeroDiscoveryResponse.secrets
    ensures r.extraHTTPHeaders == [] && r.tracingExtraHTTPHeaders == []
  {
    DiscoveryResponse(DefaultPid(dr.pid), PlaceholderHostID, Secrets("", []), [], [])
  }
}
