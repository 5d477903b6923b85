/**
 * The slice of net/http the handlers touch: a request as seen by a handler
 * (its routing path, its URL string and the outcome of reading its body) and
 * the response a handler leaves behind (status, headers, body).
 */
module Http {
  import opened Wrappers
  import opened Text

  const StatusOK: int := 200
  const StatusNotFound: int := 404
  const StatusInternalServerError: int := 500

  datatype Header = Header(name: string, value: string)

  datatype Response = Response(status: int, headers: seq<Header>, body: Bytes)

  /**
   * A request: `path` is what the ServeMux routes on (`r.URL.Path`), `url` is
   * `r.URL.String()` as the catch-all handler sees it, and `body` is the
   * outcome of `io.ReadAll(r.Body)` (None when reading failed).
   */
  datatype Request = Request(path: string, url: string, body: Option<Bytes>)

  /** A handler that only calls `WriteHeader(code)`. */
  function Status(code: int): Response {
    Response(code, [], [])
  }

  /** A handler that only calls `Write(b)`: net/http sends an implicit 200. */
  function Body(b: Bytes): Response {
    Response(StatusOK, [], b)
  }
}
