/**
 * The handlers of the main package that work on the package-level span
 * buffer. That buffer (`dumpedSpans`) is the one field of `SpanStore`; its
 * mutex only serialises the two methods below and is not modelled.
 */
module RootHandlers {
  import opened Wrappers
  import opened Text
  import opened Http
  import opened Payloads

  class SpanStore {
    var dumpedSpans: seq<Span>

    constructor ()
      ensures dumpedSpans == []
    {
      dumpedSpans := [];
    }

    /**
     * `spanHandler`: always 200; appends every decoded span, in order, when
     * the body was read and decoded, and otherwise leaves the buffer alone.
     */
    method SpanHandler(body: Option<Bytes>, decode: Bytes -> Option<seq<Span>>) returns (resp: Response)
      modifies this
      ensures resp == Status(StatusOK)
      ensures body.Some? && decode(body.value).Some? ==> dumpedSpans == old(dumpedSpans) + decode(body.value).value
      ensures !(body.Some? && decode(body.value).Some?) ==> dumpedSpans == old(dumpedSpans)
    {
      if body.None? {
        return Status(StatusOK);
      }
      var decoded := decode(body.value);
      if decoded.None? {
        return Status(StatusOK);
      }
      dumpedSpans := dumpedSpans + decoded.value;
      resp := Status(StatusOK);
    }

    /** `dumpHandler`: the encoding of the entire buffer, or 500 when it cannot be encoded. */
    method DumpHandler(encode: seq<Span> -> Option<Bytes>) returns (resp: Response)
      ensures resp.headers == []
      ensures resp.status == StatusOK <==> encode(dumpedSpans).Some?
      ensures resp.status == StatusOK ==> Some(resp.body) == encode(dumpedSpans)
      ensures resp.status != StatusOK ==> resp == Status(StatusInternalServerError)
    {
      var encoded := encode(dumpedSpans);
      if encoded.None? {
        return Status(StatusInternalServerError);
      }
      resp := Body(encoded.value);
    }
  }
}
