/**
 * The foreign collaborators of the fetcher as it sees them: URL values as
 * urllib/yarl parse them, the responses and exceptions of aiohttp and
 * aiohttp_retry. Nothing here is implemented; each value records what the
 * library would answer, and the fetcher's own logic is stated against it.
 */
module Http {
  import opened Wrappers

  /** A request target as a caller passes it to `fetch`, `request` or `fetch_all`. */
  datatype Url =
    /**
     * A plain string; `netloc` is what `urllib.parse.urlparse(raw).netloc`
     * yields ("" when absent), or the message of the ValueError urlparse raises
     * (an unbalanced bracket, an invalid bracketed host, a netloc that changes
     * under NFKC normalization).
     */
    | TextUrl(raw: string, netloc: Result<string, string>)
    /** A `yarl.URL`; `hostPort` is its `host_port_subcomponent`, None when it has no authority. */
    | UrlObject(raw: string, hostPort: Option<string>)
  {
    /** `str(url)` */
    function Str(): string { raw }
  }

  /** The `status` and `message` attributes of an `aiohttp.ClientResponseError`. */
  datatype StatusInfo = StatusInfo(status: int, message: string)

  /**
   * An exception raised by foreign code, described by the classes it is an
   * instance of: that is all an `except` clause looks at.
   */
  datatype Foreign = Foreign(
    typeName: string,                    // type(e).__name__
    text: string,                        // str(e)
    isException: bool,                   // isinstance(e, Exception); false for CancelledError and the like
    isTimeout: bool,                     // isinstance(e, TimeoutError)
    isClientError: bool,                 // isinstance(e, aiohttp.ClientError)
    clientResponse: Option<StatusInfo>)  // Some(...) exactly when isinstance(e, aiohttp.ClientResponseError)
  {
    /**
     * The flags agree with Python's class hierarchy: ClientResponseError is a
     * ClientError, and ClientError and TimeoutError are Exceptions.
     */
    predicate WellFormed() {
      && (clientResponse.Some? ==> isClientError)
      && (isClientError || isTimeout ==> isException)
    }
  }

  /** A decoded JSON document; its structure is opaque to the fetcher. */
  datatype Json = Json(document: string)

  /**
   * An `aiohttp.ClientResponse` together with what each of its foreign
   * operations would do: `raise_for_status()`, `text()`, `read()`, `json()`.
   */
  datatype Response = Response(
    status: int,
    reason: string,
    url: string,                         // str(response.url)
    raiseForStatus: Option<Foreign>,     // what raise_for_status() raises; None when it returns
    text: Result<string, Foreign>,
    bytes: Result<seq<bv8>, Foreign>,
    json: Result<Json, Foreign>)

  /**
   * aiohttp's own rule for `raise_for_status`: it raises a ClientResponseError
   * carrying the status and reason exactly when the status is 400 or above.
   * The fetcher does not rely on it; lemmas about outcomes assume it.
   */
  predicate RaisesForErrorStatus(r: Response) {
    match r.raiseForStatus
    case None => r.status < 400
    case Some(f) =>
      && r.status >= 400
      && f.isException && !f.isTimeout && f.isClientError
      && f.clientResponse == Some(StatusInfo(r.status, r.reason))
  }

  /** The bound request methods of an `aiohttp_retry.RetryClient`. */
  datatype ClientCall = ClientGet | ClientPost | ClientPut | ClientDelete | ClientPatch | ClientHead | ClientOptions {

    /** The HTTP verb the client method sends. */
    function Verb(): string {
      match this
      case ClientGet => "GET"
      case ClientPost => "POST"
      case ClientPut => "PUT"
      case ClientDelete => "DELETE"
      case ClientPatch => "PATCH"
      case ClientHead => "HEAD"
      case ClientOptions => "OPTIONS"
    }
  }

  /** `aiohttp.ClientTimeout(total=...)`; the float is kept as a real. */
  datatype ClientTimeout = ClientTimeout(total: real)
}
