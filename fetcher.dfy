/**
 * The orchestration of `src/afetch/fetcher.py`: the readiness guard, the
 * per-domain limiter registry and cache-aware admission, request building,
 * response acceptance and decoding, error classification and the fan-out of
 * `fetch_all`. The transport (with its retries), the cache probe, body reading
 * and URL parsing are oracles handed in by the caller of each operation.
 */
module Fetching {
  import opened Wrappers
  import opened Http
  import opened Types
  import opened Config
  import opened Errors

  /** What a fetcher operation can let escape to its caller. */
  datatype Raised =
    | RuntimeError(message: string)      // the readiness guard
    | ValueError(message: string)        // `_get_domain` on a URL object without authority
    | Classified(error: FetcherError)    // a FetcherError, raised or wrapped by the fetcher
    | Propagated(foreign: Foreign)       // a foreign exception that nothing wrapped

  /** What the body of `request`'s `try` block can raise. */
  datatype Thrown = ThrownFetcherError(error: FetcherError) | ThrownForeign(foreign: Foreign)

  /** The value `_handle_response` returns, one case per `ResponseType`. */
  datatype Payload =
    | TextResult(text: string)
    | BytesResult(bytes: seq<bv8>)
    | JsonResult(json: Json)
    | RawResult(response: Response)

  /** An `aiolimiter.AsyncLimiter`, seen only through its settings and how often it was acquired. */
  datatype Limiter = Limiter(maxRate: int, timePeriod: real, acquired: nat) {

    /** One `async with limiter` */
    function Acquire(): (l: Limiter)
      ensures l.maxRate == maxRate && l.timePeriod == timePeriod && l.acquired == acquired + 1
    {
      this.(acquired := acquired + 1)
    }
  }

  /** One keyword argument passed to the client's request method. */
  datatype KwArg =
    | HeadersArg(headers: Option<map<string, string>>)
    | RedirectsArg(allow: bool)
    | TimeoutArg(timeout: ClientTimeout)
    | DataArg(data: Body)
    | JsonArg(json: Json)
    | ParamsArg(params: map<string, string>)

  type Kwargs = map<string, KwArg>

  /** The retrying client's request: one call, retries included, yields a response or raises. */
  type Transport = (ClientCall, Url, Kwargs) -> Result<Response, Foreign>

  /** The foreign session and client objects `__aenter__` creates. */
  datatype CachedSession = CachedSession(cache: CacheBackend)
  datatype RetryClient = RetryClient(attempts: int, closed: bool)

  const NotReadyMessage := "Fetcher must be used as async context manager"
  const JsonFailureMessage := "Failed to parse JSON response"
  const DefaultCacheName := ".afetch_cache"

  /** The keys `_build_request_kwargs` may set. */
  const KwargNames: set<string> := {"headers", "allow_redirects", "timeout", "data", "json", "params"}

  // ---------------------------------------------------------------------------
  // Admission: domain keys and the limiter registry

  /**
   * `_get_domain`: a string URL yields its netloc, possibly empty, unless
   * urlparse itself raises; a URL object needs an authority.
   */
  function GetDomain(url: Url): (r: Result<string, Raised>)
    ensures r.Failure? <==> (url.TextUrl? && url.netloc.Failure?) || (url.UrlObject? && url.hostPort.None?)
    ensures url.TextUrl? && url.netloc.Success? ==> r == Success(url.netloc.value)
    ensures url.TextUrl? && url.netloc.Failure? ==> r == Failure(ValueError(url.netloc.error))
    ensures url.UrlObject? && url.hostPort.Some? ==> r == Success(url.hostPort.value)
    ensures url.UrlObject? && url.hostPort.None? ==> r == Failure(ValueError("Invalid URL: " + url.Str()))
  {
    match url
    case TextUrl(_, netloc) =>
      (match netloc
       case Success(domain) => Success(domain)
       case Failure(message) => Failure(ValueError(message)))
    case UrlObject(_, hostPort) =>
      if hostPort.None? then Failure(ValueError("Invalid URL: " + url.Str())) else Success(hostPort.value)
  }

  /** How often the domain's limiter has been acquired; 0 when it has none yet. */
  function Acquisitions(limiters: map<string, Limiter>, domain: string): nat {
    if domain in limiters then limiters[domain].acquired else 0
  }

  /** `self._limiters[domain]` on the defaultdict: the existing limiter, or a fresh one from the config. */
  function LimiterFor(limiters: map<string, Limiter>, domain: string, config: FetcherConfig): (l: Limiter)
    ensures domain in limiters ==> l == limiters[domain]
    ensures domain !in limiters ==>
      l == Limiter(config.maxRatePerDomain, config.timePeriodPerDomain, 0)
  {
    if domain in limiters then limiters[domain]
    else Limiter(config.maxRatePerDomain, config.timePeriodPerDomain, 0)
  }

  /**
   * The registry after `_apply_rate_limit`: untouched on a cache hit; on a
   * miss the domain's limiter, created if absent, is acquired once and no other
   * domain's limiter changes.
   */
  function Admitted(limiters: map<string, Limiter>, domain: string, cached: bool, config: FetcherConfig)
    : (after: map<string, Limiter>)
    ensures cached ==> after == limiters
    ensures !cached ==> after.Keys == limiters.Keys + {domain}
    ensures !cached ==> Acquisitions(after, domain) == Acquisitions(limiters, domain) + 1
    ensures !cached && domain !in limiters ==>
      after[domain].maxRate == config.maxRatePerDomain && after[domain].timePeriod == config.timePeriodPerDomain
    ensures !cached && domain in limiters ==>
      after[domain].maxRate == limiters[domain].maxRate && after[domain].timePeriod == limiters[domain].timePeriod
    ensures forall d :: d in limiters && d != domain ==> after[d] == limiters[d]
  {
    if cached then limiters
    else limiters[domain := LimiterFor(limiters, domain, config).Acquire()]
  }

  /** Admission of one URL: no admission at all when its domain cannot be derived. */
  function AdmitUrl(limiters: map<string, Limiter>, url: Url, cached: bool, config: FetcherConfig)
    : map<string, Limiter>
  {
    match GetDomain(url)
    case Success(domain) => Admitted(limiters, domain, cached, config)
    case Failure(_) => limiters
  }

  /** Admission of each URL in turn, the last one last. */
  function AdmitUrls(limiters: map<string, Limiter>, urls: seq<Url>, cached: seq<bool>, config: FetcherConfig)
    : map<string, Limiter>
    requires |cached| == |urls|
    decreases |urls|
  {
    if |urls| == 0 then limiters
    else
      var n := |urls| - 1;
      AdmitUrl(AdmitUrls(limiters, urls[..n], cached[..n], config), urls[n], cached[n], config)
  }

  /** How many of the URLs are cache misses whose domain is `domain`. */
  function MissCount(urls: seq<Url>, cached: seq<bool>, domain: string): nat
    requires |cached| == |urls|
    decreases |urls|
  {
    if |urls| == 0 then 0
    else
      var n := |urls| - 1;
      MissCount(urls[..n], cached[..n], domain)
      + (if !cached[n] && GetDomain(urls[n]) == Success(domain) then 1 else 0)
  }

  /**
   * Per-domain accounting of a batch: each domain's limiter is acquired once
   * per cache miss to that domain and never otherwise; a limiter exists after
   * the batch exactly when it existed before or some miss went to its domain,
   * and a limiter created by the batch has the config's rate and period.
   */
  lemma {:induction false} AdmitUrlsAccounting(
    limiters: map<string, Limiter>, urls: seq<Url>, cached: seq<bool>, config: FetcherConfig, d: string)
    requires |cached| == |urls|
    ensures var after := AdmitUrls(limiters, urls, cached, config);
      && Acquisitions(after, d) == Acquisitions(limiters, d) + MissCount(urls, cached, d)
      && (d in after <==> d in limiters || MissCount(urls, cached, d) > 0)
      && (d in after ==>
            after[d].maxRate == LimiterFor(limiters, d, config).maxRate
            && after[d].timePeriod == LimiterFor(limiters, d, config).timePeriod)
    decreases |urls|
  {
    if |urls| > 0 {
      var n := |urls| - 1;
      AdmitUrlsAccounting(limiters, urls[..n], cached[..n], config, d);
    }
  }

  /** A batch served entirely from cache leaves the registry as it was. */
  lemma {:induction false} AllCachedLeavesRegistry(
    limiters: map<string, Limiter>, urls: seq<Url>, cached: seq<bool>, config: FetcherConfig)
    requires |cached| == |urls|
    requires forall i :: 0 <= i < |cached| ==> cached[i]
    ensures AdmitUrls(limiters, urls, cached, config) == limiters
    decreases |urls|
  {
    if |urls| > 0 {
      var n := |urls| - 1;
      AllCachedLeavesRegistry(limiters, urls[..n], cached[..n], config);
    }
  }

  // ---------------------------------------------------------------------------
  // Request building

  /** `_merge_headers`: every default header, with the per-request value winning on a shared key. */
  function MergeHeaders(defaults: map<string, string>, requestHeaders: map<string, string>)
    : (merged: map<string, string>)
    ensures merged.Keys == defaults.Keys + requestHeaders.Keys
    ensures forall k :: k in requestHeaders ==> merged[k] == requestHeaders[k]
    ensures forall k :: k in defaults && k !in requestHeaders ==> merged[k] == defaults[k]
  {
    if |requestHeaders| > 0 then defaults + requestHeaders else defaults
  }

  /** `_get_timeout`: the per-request value when set (0 included), else the config's, else none. */
  function GetTimeout(config: FetcherConfig, requestTimeout: Option<real>): (t: Option<ClientTimeout>)
    ensures requestTimeout.Some? ==> t == Some(ClientTimeout(requestTimeout.value))
    ensures requestTimeout.None? && config.timeout.Some? ==> t == Some(ClientTimeout(config.timeout.value))
    ensures t.None? <==> requestTimeout.None? && config.timeout.None?
  {
    var timeoutValue := if requestTimeout.Some? then requestTimeout else config.timeout;
    if timeoutValue.Some? then Some(ClientTimeout(timeoutValue.value)) else None
  }

  /** The `headers` keyword: the merged headers, or None when they are empty. */
  function HeadersValue(merged: map<string, string>): Option<map<string, string>> {
    if |merged| > 0 then Some(merged) else None
  }

  /**
   * The keyword arguments of `_build_request_kwargs`: `headers` and
   * `allow_redirects` always, `timeout`, `data`, `json` and `params` exactly
   * when the corresponding value is set.
   */
  function RequestKwargs(config: FetcherConfig, options: RequestOptions): (kwargs: Kwargs)
    ensures kwargs.Keys <= KwargNames
    ensures "headers" in kwargs && "allow_redirects" in kwargs
    ensures kwargs["headers"] == HeadersArg(HeadersValue(MergeHeaders(config.defaultHeaders, options.headers)))
    ensures kwargs["allow_redirects"] == RedirectsArg(options.allowRedirects)
    ensures "timeout" in kwargs <==> options.timeout.Some? || config.timeout.Some?
    ensures "timeout" in kwargs ==> kwargs["timeout"] == TimeoutArg(GetTimeout(config, options.timeout).value)
    ensures "data" in kwargs <==> options.data.Some?
    ensures "data" in kwargs ==> kwargs["data"] == DataArg(options.data.value)
    ensures "json" in kwargs <==> options.json.Some?
    ensures "json" in kwargs ==> kwargs["json"] == JsonArg(options.json.value)
    ensures "params" in kwargs <==> options.params.Some?
    ensures "params" in kwargs ==> kwargs["params"] == ParamsArg(options.params.value)
  {
    var headers := MergeHeaders(config.defaultHeaders, options.headers);
    var timeout := GetTimeout(config, options.timeout);
    var fixed := map["headers" := HeadersArg(HeadersValue(headers)), "allow_redirects" := RedirectsArg(options.allowRedirects)];
    var withTimeout := if timeout.Some? then fixed["timeout" := TimeoutArg(timeout.value)] else fixed;
    var withData := if options.data.Some? then withTimeout["data" := DataArg(options.data.value)] else withTimeout;
    var withJson := if options.json.Some? then withData["json" := JsonArg(options.json.value)] else withData;
    if options.params.Some? then withJson["params" := ParamsArg(options.params.value)] else withJson
  }

  /**
   * Unset options fall back to the fetcher's defaults: a default
   * `RequestOptions()` sends exactly the config's default headers (None when
   * there are none), follows redirects, carries the config's timeout when it
   * has one, and nothing else.
   */
  lemma DefaultOptionsFallBack(config: FetcherConfig)
    ensures RequestKwargs(config, DefaultOptions()) ==
      map["headers" := HeadersArg(HeadersValue(config.defaultHeaders)), "allow_redirects" := RedirectsArg(true)]
      + (if config.timeout.Some? then map["timeout" := TimeoutArg(ClientTimeout(config.timeout.value))] else map[])
  {
    var opts := DefaultOptions();
    var kw := RequestKwargs(config, opts);
    assert MergeHeaders(config.defaultHeaders, opts.headers) == config.defaultHeaders;
    var expected :=
      map["headers" := HeadersArg(HeadersValue(config.defaultHeaders)), "allow_redirects" := RedirectsArg(true)]
      + (if config.timeout.Some? then map["timeout" := TimeoutArg(ClientTimeout(config.timeout.value))] else map[]);
    assert kw.Keys == expected.Keys;
  }

  /** `_get_request_method`: the client call for every method, sending that method's verb. */
  function GetRequestMethod(m: HttpMethod): (call: ClientCall)
    ensures call.Verb() == m.Value()
  {
    match m
    case GET => ClientGet
    case POST => ClientPost
    case PUT => ClientPut
    case DELETE => ClientDelete
    case PATCH => ClientPatch
    case HEAD => ClientHead
    case OPTIONS => ClientOptions
  }

  /** The method-to-call table is one-to-one: no two methods share a client call. */
  lemma RequestMethodInjective(m1: HttpMethod, m2: HttpMethod)
    ensures GetRequestMethod(m1) == GetRequestMethod(m2) ==> m1 == m2
  {
  }

  // ---------------------------------------------------------------------------
  // Response acceptance, decoding and classification

  /** The status test of `_execute_request`: 200, or any status below 400 for HEAD. */
  predicate StatusAccepted(m: HttpMethod, status: int) {
    status == 200 || (m == HEAD && status < 400)
  }

  /** Only HEAD widens acceptance, and never to a status of 400 or more. */
  lemma StatusAcceptedBounds(m: HttpMethod, status: int)
    ensures StatusAccepted(m, status) ==> status < 400
    ensures m != HEAD ==> (StatusAccepted(m, status) <==> status == 200)
    ensures StatusAccepted(HEAD, status) <==> status < 400
  {
  }

  /** The result type a payload has. */
  predicate PayloadOf(p: Payload, rt: ResponseType) {
    match rt
    case TEXT => p.TextResult?
    case JSON => p.JsonResult?
    case BYTES => p.BytesResult?
    case RAW => p.RawResult?
  }

  /**
   * `_handle_response`: RAW hands back the response, TEXT and BYTES its body
   * (their read errors pass through), JSON the parsed document, and a JSON
   * parse failure that is an Exception becomes a ResponseError carrying the
   * status, the response URL, the response and the parse error as cause.
   */
  function HandleResponse(resp: Response, rt: ResponseType): (r: Result<Payload, Thrown>)
    ensures r.Success? ==> PayloadOf(r.value, rt)
    ensures rt == RAW ==> r == Success(RawResult(resp))
    ensures rt == TEXT ==> r == (if resp.text.Success? then Success(TextResult(resp.text.value))
                                 else Failure(ThrownForeign(resp.text.error)))
    ensures rt == BYTES ==> r == (if resp.bytes.Success? then Success(BytesResult(resp.bytes.value))
                                  else Failure(ThrownForeign(resp.bytes.error)))
    ensures rt == JSON && resp.json.Success? ==> r == Success(JsonResult(resp.json.value))
    ensures rt == JSON && resp.json.Failure? && resp.json.error.isException ==>
      r == Failure(ThrownFetcherError(
        ResponseError(JsonFailureMessage, Some(resp.json.error), Some(resp.url), Some(resp.status), Some(resp))))
    ensures rt == JSON && resp.json.Failure? && !resp.json.error.isException ==>
      r == Failure(ThrownForeign(resp.json.error))
  {
    match rt
    case RAW => Success(RawResult(resp))
    case TEXT =>
      (match resp.text
       case Success(s) => Success(TextResult(s))
       case Failure(f) => Failure(ThrownForeign(f)))
    case BYTES =>
      (match resp.bytes
       case Success(b) => Success(BytesResult(b))
       case Failure(f) => Failure(ThrownForeign(f)))
    case JSON =>
      (match resp.json
       case Success(j) => Success(JsonResult(j))
       case Failure(f) =>
         if f.isException then
           Failure(ThrownFetcherError(ResponseError(JsonFailureMessage, Some(f), Some(resp.url), Some(resp.status), Some(resp))))
         else Failure(ThrownForeign(f)))
  }

  /**
   * `_execute_request`: one client call; an unaccepted status calls
   * `raise_for_status` (which may or may not raise) before decoding.
   */
  function ExecuteRequest(call: ClientCall, url: Url, kwargs: Kwargs, options: RequestOptions, transport: Transport)
    : (r: Result<Payload, Thrown>)
    ensures transport(call, url, kwargs).Failure? ==> r == Failure(ThrownForeign(transport(call, url, kwargs).error))
    ensures transport(call, url, kwargs).Success? ==>
      var resp := transport(call, url, kwargs).value;
      && (StatusAccepted(options.httpMethod, resp.status) ==> r == HandleResponse(resp, options.responseType))
      && (!StatusAccepted(options.httpMethod, resp.status) && resp.raiseForStatus.Some? ==>
            r == Failure(ThrownForeign(resp.raiseForStatus.value)))
      && (!StatusAccepted(options.httpMethod, resp.status) && resp.raiseForStatus.None? ==>
            r == HandleResponse(resp, options.responseType))
      && (r.Success? ==> PayloadOf(r.value, options.responseType))
  {
    match transport(call, url, kwargs)
    case Failure(f) => Failure(ThrownForeign(f))
    case Success(resp) =>
      if !StatusAccepted(options.httpMethod, resp.status) && resp.raiseForStatus.Some? then
        Failure(ThrownForeign(resp.raiseForStatus.value))
      else HandleResponse(resp, options.responseType)
  }

  /**
   * Under aiohttp's `raise_for_status` rule a response is decoded exactly when
   * its status is below 400, whatever the method: the HEAD allowance only
   * decides whether `raise_for_status` is called, not the outcome.
   */
  lemma ExecuteDecodesBelow400(call: ClientCall, url: Url, kwargs: Kwargs, options: RequestOptions, transport: Transport)
    requires transport(call, url, kwargs).Success?
    requires RaisesForErrorStatus(transport(call, url, kwargs).value)
    ensures var resp := transport(call, url, kwargs).value;
      ExecuteRequest(call, url, kwargs, options, transport) ==
        if resp.status < 400 then HandleResponse(resp, options.responseType)
        else Failure(ThrownForeign(resp.raiseForStatus.value))
  {
    StatusAcceptedBounds(options.httpMethod, transport(call, url, kwargs).value.status);
  }

  /**
   * The `except` chain of `request`, first match wins: a FetcherError is
   * re-raised unchanged; TimeoutError becomes FetcherTimeoutError;
   * ClientResponseError becomes ResponseError with its status; any other
   * ClientError or Exception becomes RequestError; each wrapper records the URL
   * string and the original exception as cause. Anything else escapes as is.
   */
  function Classify(thrown: Thrown, urlStr: string): (x: Raised)
    ensures thrown.ThrownFetcherError? ==> x == Classified(thrown.error)
    ensures thrown.ThrownForeign? ==>
      var f := thrown.foreign;
      && (f.isTimeout ==> x.Classified? && x.error.FetcherTimeoutError?)
      && (!f.isTimeout && f.clientResponse.Some? ==>
            x.Classified? && x.error.ResponseError? && x.error.status == Some(f.clientResponse.value.status)
            && x.error.response.None?)
      && (!f.isTimeout && f.clientResponse.None? && (f.isClientError || f.isException) ==>
            x.Classified? && x.error.RequestError?)
      && (!f.isTimeout && f.clientResponse.None? && !f.isClientError && !f.isException ==>
            x == Propagated(f))
      && (x.Classified? ==> x.error.url == Some(urlStr) && x.error.cause == Some(f))
  {
    match thrown
    case ThrownFetcherError(e) => Classified(e)
    case ThrownForeign(f) =>
      if f.isTimeout then
        Classified(FetcherTimeoutError("Request timed out: " + urlStr, Some(f), Some(urlStr)))
      else if f.clientResponse.Some? then
        var info := f.clientResponse.value;
        Classified(ResponseError("HTTP error " + IntToString(info.status) + ": " + info.message,
                                 Some(f), Some(urlStr), Some(info.status), None))
      else if f.isClientError then
        Classified(RequestError("Request failed: " + f.text, Some(f), Some(urlStr)))
      else if f.isException then
        Classified(RequestError("Unexpected error during request: " + f.text, Some(f), Some(urlStr)))
      else Propagated(f)
  }

  /**
   * For an exception Python can actually raise, the chain wraps exactly the
   * Exceptions, and the wrapper is the one of the first clause that matches.
   */
  lemma ClassifyWellFormed(f: Foreign, urlStr: string)
    requires f.WellFormed()
    ensures var x := Classify(ThrownForeign(f), urlStr);
      && (x.Propagated? <==> !f.isException)
      && (x.Classified? ==>
            && (x.error.FetcherTimeoutError? <==> f.isTimeout)
            && (x.error.ResponseError? <==> !f.isTimeout && f.clientResponse.Some?)
            && (x.error.RequestError? <==> !f.isTimeout && f.clientResponse.None?))
  {
  }

  // ---------------------------------------------------------------------------
  // Outcomes of one request on a ready fetcher

  /** What `request` returns or raises once past the readiness guard; the cache probe does not affect it. */
  function RequestOutcome(config: FetcherConfig, url: Url, options: Option<RequestOptions>, transport: Transport)
    : Result<Payload, Raised>
  {
    var opts := options.GetOr(DefaultOptions());
    match GetDomain(url)
    case Failure(e) => Failure(e)
    case Success(_) =>
      match ExecuteRequest(GetRequestMethod(opts.httpMethod), url, RequestKwargs(config, opts), opts, transport)
      case Success(p) => Success(p)
      case Failure(t) => Failure(Classify(t, url.Str()))
  }

  /** What `fetch` returns or raises once past the readiness guard: a bare GET, nothing wrapped. */
  function FetchOutcome(url: Url, transport: Transport): Result<string, Raised> {
    match GetDomain(url)
    case Failure(e) => Failure(e)
    case Success(_) =>
      match transport(ClientGet, url, map[])
      case Failure(f) => Failure(Propagated(f))
      case Success(resp) =>
        if resp.status != 200 && resp.raiseForStatus.Some? then Failure(Propagated(resp.raiseForStatus.value))
        else
          match resp.text
          case Success(s) => Success(s)
          case Failure(f) => Failure(Propagated(f))
  }

  /**
   * `request` lets out only the URL's ValueError, FetcherErrors and foreign
   * exceptions that are not Exceptions; a payload has the requested type.
   */
  lemma RequestOutcomeKinds(config: FetcherConfig, url: Url, options: Option<RequestOptions>, transport: Transport)
    ensures var r := RequestOutcome(config, url, options, transport);
      && (r.Success? ==> PayloadOf(r.value, options.GetOr(DefaultOptions()).responseType))
      && (r.Failure? ==>
            || (r.error.ValueError? && GetDomain(url) == Failure(r.error))
            || r.error.Classified?
            || (r.error.Propagated? && !r.error.foreign.isException))
  {
    var opts := options.GetOr(DefaultOptions());
    if GetDomain(url).Success? {
      var sent := ExecuteRequest(GetRequestMethod(opts.httpMethod), url, RequestKwargs(config, opts), opts, transport);
      match sent
      case Success(p) =>
        var call := GetRequestMethod(opts.httpMethod);
        var out := transport(call, url, RequestKwargs(config, opts));
        assert out.Success?;
        assert sent == HandleResponse(out.value, opts.responseType);
      case Failure(t) =>
        var x := Classify(t, url.Str());
        assert RequestOutcome(config, url, options, transport) == Failure(x);
    }
  }

  /**
   * An error status surfaces from `request` as a ResponseError carrying that
   * status and the request URL, and a status below 400 is decoded.
   */
  lemma RequestStatusOutcome(config: FetcherConfig, url: Url, opts: RequestOptions, transport: Transport)
    requires GetDomain(url).Success?
    requires var sent := transport(GetRequestMethod(opts.httpMethod), url, RequestKwargs(config, opts));
      sent.Success? && RaisesForErrorStatus(sent.value)
    ensures var resp := transport(GetRequestMethod(opts.httpMethod), url, RequestKwargs(config, opts)).value;
      var r := RequestOutcome(config, url, Some(opts), transport);
      && (resp.status >= 400 ==>
            r.Failure? && r.error.Classified? && r.error.error.ResponseError?
            && r.error.error.status == Some(resp.status) && r.error.error.url == Some(url.Str()))
      && (resp.status < 400 ==>
            r == match HandleResponse(resp, opts.responseType)
                 case Success(p) => Success(p)
                 case Failure(t) => Failure(Classify(t, url.Str())))
  {
    var call := GetRequestMethod(opts.httpMethod);
    var kwargs := RequestKwargs(config, opts);
    ExecuteDecodesBelow400(call, url, kwargs, opts, transport);
  }

  /**
   * A JSON body that fails to parse, on an accepted response, makes `request`
   * raise the ResponseError "Failed to parse JSON response" with the
   * response's status and the parse error as cause.
   */
  lemma JsonParseFailure(config: FetcherConfig, url: Url, opts: RequestOptions, transport: Transport)
    requires GetDomain(url).Success? && opts.responseType == JSON
    requires var sent := transport(GetRequestMethod(opts.httpMethod), url, RequestKwargs(config, opts));
      && sent.Success? && StatusAccepted(opts.httpMethod, sent.value.status)
      && sent.value.json.Failure? && sent.value.json.error.isException
    ensures var resp := transport(GetRequestMethod(opts.httpMethod), url, RequestKwargs(config, opts)).value;
      RequestOutcome(config, url, Some(opts), transport) ==
        Failure(Classified(ResponseError(JsonFailureMessage, Some(resp.json.error), Some(resp.url),
                                         Some(resp.status), Some(resp))))
  {
  }

  /** `fetch` never wraps: its errors are the URL's ValueError or foreign exceptions as raised. */
  lemma FetchOutcomeUnwrapped(url: Url, transport: Transport)
    ensures var r := FetchOutcome(url, transport);
      r.Failure? ==> r.error.Propagated? || (r.error.ValueError? && GetDomain(url) == Failure(r.error))
  {
  }

  /**
   * `fetch` accepts status 200 without `raise_for_status` and returns the
   * text; under aiohttp's rule an error status raises its ClientResponseError.
   */
  lemma FetchStatusOutcome(url: Url, transport: Transport)
    requires GetDomain(url).Success?
    requires transport(ClientGet, url, map[]).Success?
    ensures var resp := transport(ClientGet, url, map[]).value;
      && (resp.status == 200 && resp.text.Success? ==> FetchOutcome(url, transport) == Success(resp.text.value))
      && (RaisesForErrorStatus(resp) && resp.status >= 400 ==>
            FetchOutcome(url, transport) == Failure(Propagated(resp.raiseForStatus.value)))
  {
  }

  // ---------------------------------------------------------------------------
  // Fan-out

  /** Slot i of `fetch_all`: `fetch` (its text as payload) without options, `request` with them. */
  function SlotOutcome(config: FetcherConfig, url: Url, options: Option<RequestOptions>, transport: Transport)
    : Result<Payload, Raised>
  {
    if options.None? then
      match FetchOutcome(url, transport)
      case Success(s) => Success(TextResult(s))
      case Failure(e) => Failure(e)
    else RequestOutcome(config, url, options, transport)
  }

  /** The outcome of every URL, in input order. */
  function FanOut(config: FetcherConfig, urls: seq<Url>, options: Option<RequestOptions>, transports: seq<Transport>)
    : (slots: seq<Result<Payload, Raised>>)
    requires |transports| == |urls|
    ensures |slots| == |urls|
    ensures forall i :: 0 <= i < |urls| ==> slots[i] == SlotOutcome(config, urls[i], options, transports[i])
  {
    seq(|urls|, i requires 0 <= i < |urls| => SlotOutcome(config, urls[i], options, transports[i]))
  }

  /** The index of the first failed outcome, or the length when all succeeded. */
  function FirstFailure<T, E>(outcomes: seq<Result<T, E>>): (i: nat)
    ensures i <= |outcomes|
    ensures forall j :: 0 <= j < i ==> outcomes[j].Success?
    ensures i < |outcomes| ==> outcomes[i].Failure?
    decreases |outcomes|
  {
    if |outcomes| == 0 || outcomes[0].Failure? then 0
    else 1 + FirstFailure(outcomes[1..])
  }

  /**
   * `asyncio.gather` over the outcomes: with `return_exceptions` every outcome
   * sits in its own slot; otherwise the list when all succeeded, else the error
   * of the first failure (in input order; see README).
   */
  function Gather<T, E>(outcomes: seq<Result<T, E>>, returnExceptions: bool): (r: Result<seq<Result<T, E>>, E>)
    ensures returnExceptions ==> r == Success(outcomes)
    ensures r.Success? ==> r.value == outcomes
    ensures r.Failure? <==> !returnExceptions && exists i :: 0 <= i < |outcomes| && outcomes[i].Failure?
    ensures r.Failure? ==>
      exists i :: 0 <= i < |outcomes| && outcomes[i] == Failure(r.error)
        && forall j :: 0 <= j < i ==> outcomes[j].Success?
  {
    if returnExceptions then Success(outcomes)
    else
      var i := FirstFailure(outcomes);
      if i < |outcomes| then Failure(outcomes[i].error) else Success(outcomes)
  }

  // ---------------------------------------------------------------------------
  // The fetcher object

  class Fetcher {
    const config: FetcherConfig
    const cacheBackend: CacheBackend
    var limiters: map<string, Limiter>
    var session: Option<CachedSession>
    var client: Option<RetryClient>

    /**
     * `__init__`: the given config or the default one; the config's cache
     * backend or a file backend, set to expire at once when caching is off; an
     * empty registry and no session or client yet.
     */
    constructor(config: Option<FetcherConfig>)
      ensures this.config == config.GetOr(DefaultConfig())
      ensures this.config.cacheBackend.Some? ==>
        cacheBackend == this.config.cacheBackend.value.(expireAfterZero := cacheBackend.expireAfterZero)
      ensures this.config.cacheBackend.None? ==> cacheBackend.FileBackend? && cacheBackend.cacheName == DefaultCacheName
      ensures cacheBackend.expireAfterZero ==
        (!this.config.cacheEnabled || (this.config.cacheBackend.Some? && this.config.cacheBackend.value.expireAfterZero))
      ensures limiters == map[] && session.None? && client.None?
    {
      var cfg := config.GetOr(DefaultConfig());
      var backend := if cfg.cacheBackend.Some? then cfg.cacheBackend.value else FileBackend(DefaultCacheName, false);
      if !cfg.cacheEnabled {
        backend := backend.(expireAfterZero := true);
      }
      this.config := cfg;
      cacheBackend := backend;
      limiters := map[];
      session := None;
      client := None;
    }

    /** The guard of `request`, `fetch` and `fetch_all`: both `_session` and `_client` are set. */
    predicate Ready()
      reads this
    {
      session.Some? && client.Some?
    }

    /** `__aenter__`: a cached session over the backend and a retrying client with the configured attempts. */
    method Enter()
      modifies this
      ensures session == Some(CachedSession(cacheBackend))
      ensures client == Some(RetryClient(config.retryAttempts, false))
      ensures limiters == old(limiters)
      ensures Ready()
    {
      session := Some(CachedSession(cacheBackend));
      client := Some(RetryClient(config.retryAttempts, false));
    }

    /** `__aexit__`: closes the client if there is one; neither field is cleared, so the guard is unchanged. */
    method Exit()
      modifies this
      ensures session == old(session) && limiters == old(limiters)
      ensures client == if old(client).Some? then Some(old(client).value.(closed := true)) else None
      ensures Ready() == old(Ready())
    {
      if client.Some? {
        client := Some(client.value.(closed := true));
      }
    }

    /** `self._limiters[domain]`: the defaultdict creates the domain's limiter on first lookup. */
    method GetLimiter(domain: string) returns (limiter: Limiter)
      modifies this
      ensures limiter == LimiterFor(old(limiters), domain, config)
      ensures limiters == old(limiters)[domain := limiter]
      ensures session == old(session) && client == old(client)
    {
      if domain !in limiters {
        limiters := limiters[domain := Limiter(config.maxRatePerDomain, config.timePeriodPerDomain, 0)];
      }
      limiter := limiters[domain];
    }

    /** `_apply_rate_limit`: on a cache miss, acquire the domain's limiter once. */
    method ApplyRateLimit(domain: string, cached: bool)
      modifies this
      ensures limiters == Admitted(old(limiters), domain, cached, config)
      ensures session == old(session) && client == old(client)
    {
      if !cached {
        var limiter := GetLimiter(domain);
        limiters := limiters[domain := limiter.Acquire()];
      }
    }

    /**
     * `_build_request_kwargs` as the source builds it, key by key in a mutable
     * dict; `RequestKwargs` is its specification, which the functions and
     * lemmas use.
     */
    method BuildRequestKwargs(options: RequestOptions) returns (kwargs: Kwargs)
      ensures kwargs == RequestKwargs(config, options)
    {
      var headers := MergeHeaders(config.defaultHeaders, options.headers);
      var timeout := GetTimeout(config, options.timeout);
      kwargs := map["headers" := HeadersArg(HeadersValue(headers)), "allow_redirects" := RedirectsArg(options.allowRedirects)];
      if timeout.Some? {
        kwargs := kwargs["timeout" := TimeoutArg(timeout.value)];
      }
      if options.data.Some? {
        kwargs := kwargs["data" := DataArg(options.data.value)];
      }
      if options.json.Some? {
        kwargs := kwargs["json" := JsonArg(options.json.value)];
      }
      if options.params.Some? {
        kwargs := kwargs["params" := ParamsArg(options.params.value)];
      }
    }

    /**
     * `request`: the guard, then the domain, admission, the kwargs, the call
     * and the classification of whatever it raised.
     */
    method Request(url: Url, options: Option<RequestOptions>, cached: bool, transport: Transport)
      returns (r: Result<Payload, Raised>)
      modifies this
      ensures session == old(session) && client == old(client)
      ensures !old(Ready()) ==> r == Failure(RuntimeError(NotReadyMessage)) && limiters == old(limiters)
      ensures old(Ready()) ==> r == RequestOutcome(config, url, options, transport)
      ensures old(Ready()) ==> limiters == AdmitUrl(old(limiters), url, cached, config)
    {
      if !Ready() {
        return Failure(RuntimeError(NotReadyMessage));
      }
      var opts := options.GetOr(DefaultOptions());
      var urlStr := url.Str();
      var domain := GetDomain(url);
      if domain.Failure? {
        return Failure(domain.error);
      }
      ApplyRateLimit(domain.value, cached);
      var kwargs := BuildRequestKwargs(opts);
      var call := GetRequestMethod(opts.httpMethod);
      var sent := ExecuteRequest(call, url, kwargs, opts, transport);
      r := match sent
        case Success(p) => Success(p)
        case Failure(t) => Failure(Classify(t, urlStr));
    }

    /** `fetch`: the guard, the domain, admission, then a bare GET whose text is returned. */
    method Fetch(url: Url, cached: bool, transport: Transport) returns (r: Result<string, Raised>)
      modifies this
      ensures session == old(session) && client == old(client)
      ensures !old(Ready()) ==> r == Failure(RuntimeError(NotReadyMessage)) && limiters == old(limiters)
      ensures old(Ready()) ==> r == FetchOutcome(url, transport)
      ensures old(Ready()) ==> limiters == AdmitUrl(old(limiters), url, cached, config)
    {
      if !Ready() {
        return Failure(RuntimeError(NotReadyMessage));
      }
      var domain := GetDomain(url);
      if domain.Failure? {
        return Failure(domain.error);
      }
      ApplyRateLimit(domain.value, cached);
      var sent := transport(ClientGet, url, map[]);
      if sent.Failure? {
        return Failure(Propagated(sent.error));
      }
      var resp := sent.value;
      if resp.status != 200 && resp.raiseForStatus.Some? {
        return Failure(Propagated(resp.raiseForStatus.value));
      }
      r := match resp.text
        case Success(s) => Success(s)
        case Failure(f) => Failure(Propagated(f));
    }

    /**
     * `fetch_all`: one `fetch` (no options) or `request` per URL, run here one
     * after another; slot i holds URL i's outcome, and the batch raises unless
     * options were given and the config asks for exceptions to be returned.
     */
    method FetchAll(urls: seq<Url>, options: Option<RequestOptions>, cached: seq<bool>, transports: seq<Transport>)
      returns (r: Result<seq<Result<Payload, Raised>>, Raised>)
      requires |cached| == |urls| && |transports| == |urls|
      modifies this
      ensures session == old(session) && client == old(client)
      ensures !old(Ready()) ==> r == Failure(RuntimeError(NotReadyMessage)) && limiters == old(limiters)
      ensures old(Ready()) ==>
        r == Gather(FanOut(config, urls, options, transports), options.Some? && config.returnExceptions)
      ensures old(Ready()) ==> limiters == AdmitUrls(old(limiters), urls, cached, config)
    {
      if !Ready() {
        return Failure(RuntimeError(NotReadyMessage));
      }
      var slots: seq<Result<Payload, Raised>> := [];
      var i := 0;
      while i < |urls|
        invariant 0 <= i <= |urls|
        invariant Ready() && session == old(session) && client == old(client)
        invariant |slots| == i
        invariant forall j :: 0 <= j < i ==> slots[j] == SlotOutcome(config, urls[j], options, transports[j])
        invariant limiters == AdmitUrls(old(limiters), urls[..i], cached[..i], config)
      {
        var slot: Result<Payload, Raised>;
        if options.None? {
          var text := Fetch(urls[i], cached[i], transports[i]);
          slot := match text
            case Success(s) => Success(TextResult(s))
            case Failure(e) => Failure(e);
        } else {
          slot := Request(urls[i], options, cached[i], transports[i]);
        }
        slots := slots + [slot];
        assert urls[..i + 1][..i] == urls[..i] && cached[..i + 1][..i] == cached[..i];
        i := i + 1;
      }
      assert urls[..i] == urls && cached[..i] == cached;
      assert slots == FanOut(config, urls, options, transports);
      r := Gather(slots, options.Some? && config.returnExceptions);
    }
  }
}
