/**
 * The four protocol handlers of the agent package. Each is a straight-line
 * choice of status and body from the outcomes of reading the body, decoding
 * it and encoding the answer. The traces handler hands the decoded batch to
 * its caller's callback; `TracesOutcome.delivered` is the argument of that
 * one call, and the caller performs the callback's effect.
 */
module AgentHandlers {
  import opened Wrappers
  import opened Text
  import opened Http
  import opened Payloads

  datatype TracesOutcome = TracesOutcome(response: Response, delivered: Option<seq<Span>>)

  /**
   * `tracesHandler`: always 200; the callback (present when `hasCallback`,
   * i.e. `f != nil`) is invoked once, with the decoded batch, exactly when
   * the body was read and decoded.
   */
  function TracesHandler(body: Option<Bytes>, decode: Bytes -> Option<seq<Span>>, hasCallback: bool): (o: TracesOutcome)
    ensures o.response == Status(StatusOK)
    ensures o.delivered.Some? <==> hasCallback && body.Some? && decode(body.value).Some?
    ensures o.delivered.Some? ==> decode(body.value) == Some(o.delivered.value)
  {
    if body.None? then TracesOutcome(Status(StatusOK), None)
    else
      match decode(body.value)
      case None => TracesOutcome(Status(StatusOK), None)
      case Some(spans) => TracesOutcome(Status(StatusOK), if hasCallback then Some(spans) else None)
  }

  /**
   * `discoveryHandler`: 500 with no body when the body cannot be read or
   * decoded, or the answer cannot be encoded; otherwise the encoding of the
   * zero-valued `discoveryResponse`, whatever the request said.
   */
  function DiscoveryHandler(body: Option<Bytes>, codec: Codec): (r: Response)
    ensures r.headers == []
    ensures r.status in {StatusOK, StatusInternalServerError}
    ensures r.status == StatusOK <==>
      body.Some? && codec.decodeDiscovery(body.value).Some? && codec.encodeDiscovery(ZeroDiscoveryResponse).Some?
    ensures r.status == StatusOK ==> Some(r.body) == codec.encodeDiscovery(ZeroDiscoveryResponse)
    ensures r.status != StatusOK ==> r.body == []
  {
    if body.None? then Status(StatusInternalServerError)
    else if codec.decodeDiscovery(body.value).None? then Status(StatusInternalServerError)
    else
      match codec.encodeDiscovery(ZeroDiscoveryResponse)
      case None => Status(StatusInternalServerError)
      case Some(b) => Body(b)
  }

  /** Two discovery requests that both decode get the same answer: the contents are ignored. */
  lemma DiscoveryIgnoresRequest(b1: Bytes, b2: Bytes, codec: Codec)
    requires codec.decodeDiscovery(b1).Some? && codec.decodeDiscovery(b2).Some?
    ensures DiscoveryHandler(Some(b1), codec) == DiscoveryHandler(Some(b2), codec)
  {
  }

  /** `pingHandler`: 200 with no body, unconditionally. */
  function PingHandler(): (r: Response)
    ensures r.status == StatusOK && r.headers == [] && r.body == []
  {
    Status(StatusOK)
  }

  /**
   * `dumpHandler`: 500 when there is no snapshot function (`snapshot` is
   * None); otherwise the encoding of exactly what the snapshot returns, or
   * 500 when it cannot be encoded.
   */
  function DumpHandler(snapshot: Option<seq<Span>>, encode: seq<Span> -> Option<Bytes>): (r: Response)
    ensures r.headers == []
    ensures r.status in {StatusOK, StatusInternalServerError}
    ensures r.status == StatusOK <==> snapshot.Some? && encode(snapshot.value).Some?
    ensures r.status == StatusOK ==> Some(r.body) == encode(snapshot.value)
    ensures r.status != StatusOK ==> r.body == []
  {
    if snapshot.None? then Status(StatusInternalServerError)
    else
      match encode(snapshot.value)
      case None => Status(StatusInternalServerError)
      case Some(b) => Body(b)
  }
}
