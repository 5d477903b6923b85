/**
 * The request handling shared by both agent versions: the ordered list of
 * (pattern, handler) entries, the catch-all handler that answers `/`, runs
 * the handler of the first matching entry or answers 404, and the ServeMux
 * that sends `/dump` to the dump handler and everything else to the
 * catch-all. `Handle` is the specification of one request against an
 * agent's span buffer; the agents' `Serve` methods are proved against it.
 */
module Dispatch {
  import opened Wrappers
  import opened Text
  import opened Http
  import opened Payloads
  import opened Patterns
  import opened AgentHandlers

  datatype Endpoint = Traces | Discovery | Ping

  /** One `urlMatch`: a pattern and the handler it selects. */
  datatype Combo = Combo(pattern: Pattern, endpoint: Endpoint)

  /** The combos in declared order: traces, discovery, ping. */
  const DefaultCombos: seq<Combo> :=
    [Combo(TracesPattern, Traces), Combo(DiscoveryPattern, Discovery), Combo(PingPattern, Ping)]

  const DumpPath: string := "/dump"

  datatype Route = Root | Matched(endpoint: Endpoint) | NotFound

  /** Index of the first entry whose pattern matches `url`, if any. */
  ghost function FirstMatch(combos: seq<Combo>, url: string): (r: Option<nat>)
    ensures r.Some? ==> r.value < |combos| && Matches(combos[r.value].pattern, url)
    ensures r.Some? ==> forall m :: 0 <= m < r.value ==> !Matches(combos[m].pattern, url)
    ensures r.None? ==> forall m :: 0 <= m < |combos| ==> !Matches(combos[m].pattern, url)
    decreases |combos|
  {
    if combos == [] then None
    else if Matches(combos[0].pattern, url) then Some(0)
    else
      match FirstMatch(combos[1..], url)
      case None => None
      case Some(k) => Some(k + 1)
  }

  /** What the catch-all handler does with `url`. */
  ghost function RouteOf(combos: seq<Combo>, url: string): Route {
    if url == "/" then Root
    else
      match FirstMatch(combos, url)
      case None => NotFound
      case Some(k) => Matched(combos[k].endpoint)
  }

  /** The catch-all handler's decision: exact `/`, else a first-match scan, else 404. */
  method CatchAll(combos: seq<Combo>, url: string) returns (r: Route)
    ensures r == RouteOf(combos, url)
  {
    if url == "/" {
      return Root;
    }
    var k := 0;
    while k < |combos|
      invariant 0 <= k <= |combos|
      invariant forall m :: 0 <= m < k ==> !Matches(combos[m].pattern, url)
    {
      MatchStringCorrect(combos[k].pattern, url);
      if MatchString(combos[k].pattern, url) {
        return Matched(combos[k].endpoint);
      }
      k := k + 1;
    }
    return NotFound;
  }

  /** With the declared order, each URL goes to the first of traces, discovery, ping it matches. */
  lemma DefaultRouting(url: string)
    ensures RouteOf(DefaultCombos, url) ==
      if url == "/" then Root
      else if Matches(TracesPattern, url) then Matched(Traces)
      else if Matches(DiscoveryPattern, url) then Matched(Discovery)
      else if Matches(PingPattern, url) then Matched(Ping)
      else NotFound
  {
    var c := DefaultCombos;
    assert c[0] == Combo(TracesPattern, Traces);
    assert c[1] == Combo(DiscoveryPattern, Discovery);
    assert c[2] == Combo(PingPattern, Ping);
    var r := FirstMatch(c, url);
    if r.Some? {
      assert r.value < 3;
    }
  }

  /** A traces URL also satisfies the ping pattern, and is still routed to the traces handler. */
  lemma TracesUrlsGoToTraces(url: string)
    requires Matches(TracesPattern, url)
    ensures Matches(PingPattern, url)
    ensures RouteOf(DefaultCombos, url) == Matched(Traces)
  {
    TracesImpliesPing(url);
    DefaultRouting(url);
    var i, j :| MatchAt(TracesPattern, url, i, j);
    assert |url| > 1;
  }

  /** The example URL of the traces pattern, `/com.instana.plugin.golang/traces.12345`. */
  const ExampleTracesUrl: string := PluginPrefix + "golang/traces.12345"

  lemma ExampleTracesUrlMatches()
    ensures Matches(TracesPattern, ExampleTracesUrl)
  {
    var u := ExampleTracesUrl;
    var rest := "golang/traces.12345";
    assert u[0..20] == PluginPrefix;
    assert u[20..] == rest;
    assert rest[6..14] == "/traces.";
    assert u[26..34] == rest[6..14];
    assert u[34] == '1';
    assert forall k :: 20 <= k < 26 ==> u[k] == rest[k - 20];
    assert NoNewline(u, 20, 26);
    assert MatchAt(TracesPattern, u, 0, 26);
  }

  /** Order is what decides: listing ping first would send the example traces URL to ping. */
  lemma OrderMatters()
    ensures RouteOf(DefaultCombos, ExampleTracesUrl) == Matched(Traces)
    ensures RouteOf([Combo(PingPattern, Ping)] + DefaultCombos, ExampleTracesUrl) == Matched(Ping)
  {
    ExampleTracesUrlMatches();
    TracesUrlsGoToTraces(ExampleTracesUrl);
  }

  // ---------------------------------------------------------------------------
  // One request against an agent's span buffer

  datatype Served = Served(response: Response, spans: seq<Span>)

  /** The batch a request adds to the buffer: the decoded body of a request routed to traces, else nothing. */
  ghost function Batch(combos: seq<Combo>, req: Request, codec: Codec): seq<Span> {
    if req.path != DumpPath && RouteOf(combos, req.url) == Matched(Traces) && req.body.Some?
    then codec.decodeSpans(req.body.value).GetOr([])
    else []
  }

  /** The response to `req` and the buffer afterwards, starting from buffer `spans`. */
  ghost function Handle(spans: seq<Span>, combos: seq<Combo>, req: Request, codec: Codec): (out: Served)
    ensures out.spans == spans + Batch(combos, req, codec)
    ensures req.path == DumpPath ==> out.response == DumpHandler(Some(spans), codec.encodeSpans)
    ensures req.path != DumpPath && req.url == "/" ==> out.response == Status(StatusOK)
    ensures req.path != DumpPath && RouteOf(combos, req.url) == NotFound ==> out.response == Status(StatusNotFound)
    ensures req.path != DumpPath && RouteOf(combos, req.url) == Matched(Traces) ==> out.response == Status(StatusOK)
  {
    if req.path == DumpPath then Served(DumpHandler(Some(spans), codec.encodeSpans), spans)
    else
      match RouteOf(combos, req.url)
      case Root => Served(Status(StatusOK), spans)
      case NotFound => Served(Status(StatusNotFound), spans)
      case Matched(Traces) =>
        var o := TracesHandler(req.body, codec.decodeSpans, true);
        Served(o.response, spans + o.delivered.GetOr([]))
      case Matched(Discovery) => Served(DiscoveryHandler(req.body, codec), spans)
      case Matched(Ping) => Served(PingHandler(), spans)
  }

  /** A traces request whose body cannot be read or decoded answers 200 and leaves the buffer alone. */
  lemma MalformedBatchIsTolerated(spans: seq<Span>, combos: seq<Combo>, req: Request, codec: Codec)
    requires req.path != DumpPath && RouteOf(combos, req.url) == Matched(Traces)
    requires req.body.None? || codec.decodeSpans(req.body.value).None?
    ensures Handle(spans, combos, req, codec) == Served(Status(StatusOK), spans)
  {
  }

  /** The buffer after a run of requests. */
  ghost function Replay(spans: seq<Span>, combos: seq<Combo>, reqs: seq<Request>, codec: Codec): seq<Span>
    decreases |reqs|
  {
    if reqs == [] then spans
    else Replay(Handle(spans, combos, reqs[0], codec).spans, combos, reqs[1..], codec)
  }

  /** The batches of a run of requests, concatenated in order. */
  ghost function Ingested(combos: seq<Combo>, reqs: seq<Request>, codec: Codec): seq<Span>
    decreases |reqs|
  {
    if reqs == [] then [] else Batch(combos, reqs[0], codec) + Ingested(combos, reqs[1..], codec)
  }

  /** The buffer only grows, by each accepted batch in arrival order. */
  lemma {:induction false} ReplayIngests(spans: seq<Span>, combos: seq<Combo>, reqs: seq<Request>, codec: Codec)
    ensures Replay(spans, combos, reqs, codec) == spans + Ingested(combos, reqs, codec)
    decreases |reqs|
  {
    if reqs != [] {
      var next := Handle(spans, combos, reqs[0], codec).spans;
      ReplayIngests(next, combos, reqs[1..], codec);
      assert next + Ingested(combos, reqs[1..], codec)
          == spans + (Batch(combos, reqs[0], codec) + Ingested(combos, reqs[1..], codec));
    }
  }

  /** A dump after batches B1..Bn on a fresh agent encodes exactly B1 + ... + Bn. */
  lemma DumpAfterReplay(combos: seq<Combo>, reqs: seq<Request>, codec: Codec, dump: Request)
    requires dump.path == DumpPath
    ensures Handle(Replay([], combos, reqs, codec), combos, dump, codec).response
         == DumpHandler(Some(Ingested(combos, reqs, codec)), codec.encodeSpans)
  {
    ReplayIngests([], combos, reqs, codec);
    assert [] + Ingested(combos, reqs, codec) == Ingested(combos, reqs, codec);
  }
}
