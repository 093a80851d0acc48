# afetch in Dafny

A model of the orchestration core of **afetch**, a small asynchronous HTTP
fetcher that wraps aiohttp (transport), aiohttp_retry (retries), aiolimiter
(per-domain rate limiting) and aiohttp_client_cache (response caching). The
model covers what the repository's own code decides:

- the **readiness guard** of `request`, `fetch` and `fetch_all` and the two-field
  lifecycle set by `__aenter__` and left set by `__aexit__`;
- **admission**: the domain key of a URL, the cache probe, and the lazily
  populated per-domain limiter registry (`_limiters`), acquired once per cache
  miss;
- **request building**: header merge, timeout resolution and the keyword
  arguments handed to the client;
- **response handling**: the status test, decoding by `ResponseType`, the JSON
  parse failure, and the ordered `except` chain that maps exceptions onto the
  `FetcherError` hierarchy;
- the **fan-out** of `fetch_all`: one slot per URL in input order, and the
  raise-or-collect policy;
- the **error values** of `errors.py` and their `__str__` rendering;
- the **request descriptor** and the two enumerations of `types.py`.

Files: `wrappers.dfy` (Option, Result), `http.dfy` (the foreign values the
fetcher sees: URLs, responses, foreign exceptions, client calls), `types.dfy`,
`config.dfy`, `errors.dfy`, `fetcher.dfy` (module `Fetching`, with the
`Fetcher` class), `scenarios.dfy` (client-side scenarios after the tests).

The foreign parts are oracles. A `Url` value carries what URL parsing yields
(the netloc of a string or the error urlparse raises for it, or the
`host_port_subcomponent` of a URL object). The
cache probe `has_url` is a boolean per request. The retrying client is a
`Transport`, a total function from (client call, URL, keyword arguments) to a
response or a foreign exception. A `Response` carries what `raise_for_status()`,
`text()`, `read()` and `json()` would do. A foreign exception is described by the
classes it belongs to (`Exception`, `TimeoutError`, `aiohttp.ClientError`,
`aiohttp.ClientResponseError`), which is all the `except` clauses inspect.

The `Fetcher` class holds the fields the source updates in place: `limiters`
(`map<string, Limiter>`), `session` and `client`. Its methods state their whole
new state in terms of specification functions (`Admitted`, `AdmitUrl`,
`AdmitUrls`, `RequestOutcome`, `FetchOutcome`, `FanOut`, `Gather`), and the
properties are proved about those functions.

Behaviour of the code worth knowing:

- `__aexit__` closes the client but clears neither `_session` nor `_client`, so
  the readiness guard still passes after the context is left
  (`Fetcher.Exit`). Use after close is not refused by the fetcher itself.
- A failure of the cache probe is not swallowed: `has_url` is awaited outside
  any `try`. The model takes the probe as a total boolean, so such failures are
  not represented.
- The domain key comes before the cache probe and admission. A URL object
  without authority is refused with `ValueError("Invalid URL: ...")`; a string
  URL yields its netloc, possibly `""`, unless `urllib.parse.urlparse` itself
  raises its `ValueError` (an unbalanced bracket, say), which leaves `request`
  and `fetch` unwrapped.
- Retries and backoff are not implemented here but inside the retrying client;
  `RetryExhaustedError` and `CacheError` are never raised by this code.
- Without `return_exceptions`, `asyncio.gather` raises the first error but does
  not cancel the other requests; all of them are admitted and run.
- The status test only decides whether `raise_for_status()` is called. Under
  aiohttp's rule (raise exactly for 400 and above) a GET answered with, say,
  204 or 304 is still decoded, and the HEAD allowance changes no outcome
  (`ExecuteDecodesBelow400`).
- Only a JSON parse failure becomes a `ResponseError` at decoding; a failure of
  `text()` or `read()` goes through the `except` chain like a transport error.
- `fetch` (and `fetch_all` without options) sends a bare GET: no default
  headers, no timeout, and its errors are not wrapped into `FetcherError`.

Two versions of the repository's files are mixed in the source: `fetcher.py`
uses `HttpMethod.HEAD` and `.value`, which `types.py`'s string `Literal` type
does not have, and it reads `default_headers`, `timeout`, `logger` and
`return_exceptions` from a config record that `config.py` does not give those
fields. The model takes `HttpMethod` as a seven-case datatype (with the literal
strings as `Value()`), and the config record as the union of the fields, with
defaults empty headers, no timeout and `return_exceptions` off for the fields
`config.py` does not declare. The `method` field of `RequestOptions` is named
`httpMethod` because `method` is a Dafny keyword.

Constructed errors store exactly the given fields because each exception class
is a constructor of the `FetcherError` datatype; every constructor is a
`FetcherError`, which is why `Classify` passes all of them through unchanged.

## Model

| member | source | states |
|---|---|---|
| `Fetching.GetDomain` | src/afetch/fetcher.py:88-96 | a string URL yields its netloc (possibly empty), or raises urlparse's own ValueError when urlparse refuses it; a URL object yields its host and port, and raises `ValueError("Invalid URL: ...")` exactly when it has none; nothing else fails |
| `Fetching.LimiterFor` | src/afetch/fetcher.py:65-70 | a registry lookup returns the domain's existing limiter, or a fresh one with the configured rate and period and no acquisitions |
| `Fetching.Admitted` | src/afetch/fetcher.py:249-256 | on a cache hit the registry is unchanged; on a miss the domain gains a limiter if it had none, its acquisitions grow by exactly one, a new limiter has the configured settings, and every other domain's limiter is unchanged |
| `Fetching.AdmitUrlsAccounting` | src/afetch/fetcher.py:249-256 | over a batch, each domain's limiter is acquired once per cache miss to that domain and never otherwise; a domain has a limiter afterwards exactly when it had one or some miss went to it; its settings are the existing limiter's or the config's |
| `Fetching.AllCachedLeavesRegistry` | src/afetch/fetcher.py:249-251 | a batch served entirely from cache leaves the limiter registry exactly as it was |
| `Fetching.MergeHeaders` | src/afetch/fetcher.py:113-116 | the merged headers have every default and every per-request key; on a shared key the per-request value wins, elsewhere the default's |
| `Fetching.GetTimeout` | src/afetch/fetcher.py:128-131 | the per-request timeout whenever it is set (0 included), else the config's, and no timeout exactly when both are unset |
| `Fetching.RequestKwargs` | src/afetch/fetcher.py:191-207 | `headers` (None when the merge is empty) and `allow_redirects` are always present; `timeout`, `data`, `json` and `params` are present exactly when set, with their values; no other key appears |
| `Fetching.DefaultOptionsFallBack` | src/afetch/types.py:53-60 | a default `RequestOptions()` sends exactly the config's default headers, follows redirects, carries the config timeout when there is one, and nothing else |
| `Fetching.GetRequestMethod` | src/afetch/fetcher.py:222-232 | every one of the seven methods maps to a client call that sends that method's verb |
| `Fetching.RequestMethodInjective` | src/afetch/fetcher.py:223-231 | no two methods share a client call |
| `Fetching.StatusAcceptedBounds` | src/afetch/fetcher.py:346-347 | an accepted status is below 400; for any method but HEAD exactly 200 is accepted; for HEAD exactly the statuses below 400 |
| `Fetching.HandleResponse` | src/afetch/fetcher.py:151-173 | RAW returns the response itself, TEXT and BYTES the body or the read error, JSON the document; a JSON parse failure becomes `ResponseError("Failed to parse JSON response")` with the response's status, URL and the parse error as cause; the payload always has the requested type |
| `Fetching.ExecuteRequest` | src/afetch/fetcher.py:344-363 | a transport error is raised as is; an accepted status (200, or below 400 for HEAD) goes straight to decoding; an unaccepted one raises what `raise_for_status()` raises, and is decoded when that returns; a payload has the requested type |
| `Fetching.ExecuteDecodesBelow400` | src/afetch/fetcher.py:344-363 | under aiohttp's raise-for-status rule a response is decoded exactly when its status is below 400, and otherwise its ClientResponseError is raised |
| `Fetching.Classify` | src/afetch/fetcher.py:304-321 | the except clauses in order: a FetcherError passes through unchanged; a TimeoutError becomes FetcherTimeoutError; a ClientResponseError becomes ResponseError with its status; any other ClientError or Exception becomes RequestError; every wrapper records the URL string and the original error as cause; anything else escapes unwrapped |
| `Fetching.ClassifyWellFormed` | src/afetch/fetcher.py:304-321 | for an exception whose classes agree with Python's hierarchy, exactly the non-Exceptions escape, and the wrapper is FetcherTimeoutError for a TimeoutError, ResponseError for any other ClientResponseError, and RequestError otherwise |
| `Fetching.RequestOutcomeKinds` | src/afetch/fetcher.py:286-321 | `request` lets out only the ValueError of `_get_domain`, FetcherErrors, or foreign exceptions that are not Exceptions; a returned payload has the requested response type |
| `Fetching.RequestStatusOutcome` | src/afetch/fetcher.py:296-321 | a response with status 400 or above makes `request` raise a ResponseError carrying that status and the request URL; below 400 the outcome is the decoding, classified |
| `Fetching.JsonParseFailure` | src/afetch/fetcher.py:162-173 | a JSON body that fails to parse on an accepted response makes `request` raise the ResponseError with message "Failed to parse JSON response", the response's status and the parse error as cause |
| `Fetching.FetchOutcomeUnwrapped` | src/afetch/fetcher.py:387-397 | the errors of `fetch` are never wrapped: they are the ValueError of `_get_domain` or the foreign exception as raised |
| `Fetching.FetchStatusOutcome` | src/afetch/fetcher.py:394-397 | `fetch` returns the text of a 200 response, and under aiohttp's rule raises the ClientResponseError of an error status |
| `Fetching.FirstFailure` | src/afetch/fetcher.py:433-435 | the index found is the first failed outcome: all before it succeeded, and it failed unless it is the end |
| `Fetching.Gather` | src/afetch/fetcher.py:430-438 | with return_exceptions every outcome sits in its own slot in input order; otherwise the result is the outcome list when all succeeded, and else the error of the first failed slot |
| `Fetching.Fetcher.constructor` | src/afetch/fetcher.py:59-72 | the given or default config; its cache backend or the `.afetch_cache` file backend, expiring at once when caching is off; an empty registry; no session and no client |
| `Fetching.Fetcher.Enter` | src/afetch/fetcher.py:450-459 | sets a cached session over the backend and a retrying client with the configured attempts, so the fetcher is ready; the registry is unchanged |
| `Fetching.Fetcher.Exit` | src/afetch/fetcher.py:477-478 | closes the client if there is one and clears neither field, so readiness is unchanged |
| `Fetching.Fetcher.GetLimiter` | src/afetch/fetcher.py:254 | the defaultdict lookup inserts the domain's limiter from the config on first use and returns it |
| `Fetching.Fetcher.ApplyRateLimit` | src/afetch/fetcher.py:248-256 | the registry becomes `Admitted(old registry, domain, cached)`: untouched on a hit, one acquisition of the domain's limiter on a miss |
| `Fetching.Fetcher.BuildRequestKwargs` | src/afetch/fetcher.py:191-207 | the keyword arguments built key by key are exactly `RequestKwargs` |
| `Fetching.Fetcher.Request` | src/afetch/fetcher.py:282-321 | not ready: raises RuntimeError and changes nothing; ready: returns `RequestOutcome` and admits the URL (no admission when its domain cannot be derived) |
| `Fetching.Fetcher.Fetch` | src/afetch/fetcher.py:383-397 | not ready: raises RuntimeError and changes nothing; ready: returns `FetchOutcome` and admits the URL |
| `Fetching.Fetcher.FetchAll` | src/afetch/fetcher.py:426-438 | not ready: raises RuntimeError and changes nothing; ready: the result is `Gather` of one outcome per URL in input order (`fetch` without options, `request` with them; exceptions collected only with options and return_exceptions) and every URL is admitted |
| `Errors.JoinAppend` | src/afetch/errors.py:55 | joining one more part appends the separator and that part |
| `Errors.Render` | src/afetch/errors.py:48-55 | the rendering always begins with the message |
| `Errors.RenderAsConcatenation` | src/afetch/errors.py:101-110 | `str(e)` is the message, then " \| Status: n" when the status is present and non-zero (ResponseError only), " \| URL: u" when the url is non-empty, " \| Caused by: T: c" when there is a cause, in that order |
| `Errors.RenderBare` | src/afetch/errors.py:50-55 | with no url, no cause and no shown status, `str(e)` is exactly the message |
| `Errors.RenderIgnoresAttempts` | src/afetch/errors.py:113-134 | RetryExhaustedError renders as the base class does, whatever its attempt count |
| `Errors.RenderResponseStatus` | src/afetch/errors.py:104-105 | a non-zero status is shown right after the message; a status of 0 renders as a missing one |
| `Types.MethodFromLiteral` | src/afetch/types.py:14 | a string names a method exactly when it is one of the seven literals, and names the method whose value it is |
| `Types.MethodLiteralRoundTrip` | src/afetch/types.py:14 | every method's literal is one of the seven and reads back as that method |
| `Types.ResponseTypeValuesDistinct` | src/afetch/types.py:28-31 | the four enum values are distinct, so ResponseType has exactly four members |

## Left out

- Retry and backoff: delegated to `aiohttp_retry.ExponentialRetry`; the transport oracle returns the final outcome of the retrying client, and the attempt count is only recorded on the `RetryClient` value.
- Rate-limit timing: aiolimiter's leaky bucket and its loop clock are foreign; a limiter is its settings plus an acquisition count, and aiolimiter's own refusal of an acquisition larger than its capacity (a rate below 1) is not modelled.
- Limiter identity: limiters are values in the registry map, not shared objects; the registry is their only owner, so no aliasing is observable.
- Cache storage: `CachedSession`, the backend and `has_url` are foreign; the probe is a boolean per request, its own failures are not represented, and setting `expire_after` on a caller-supplied backend object (an update the caller can see) is recorded only on the fetcher's copy.
- URL parsing: `urllib.parse.urlparse` and yarl are foreign; a `Url` carries the authority they would yield.
- Transport, body reading and JSON parsing: foreign; `raise_for_status` is what the response records, and aiohttp's rule for it (`RaisesForErrorStatus`) is a hypothesis of the lemmas that need it.
- Fetching.Gather: without return_exceptions the raised error is that of the lowest failing index; under real scheduling it is the first failure to complete, which the sequential model cannot order.
- Fetching.Fetcher.FetchAll: concurrency is not modelled; the requests run one after another, which gives the same per-domain acquisition counts and the same slot contents as any interleaving.
- Timeouts and periods are floats in the source and reals here; only their presence and selection matter.
- Logging: the configured or module logger and every log call.
- `Fetcher.__aenter__` and `__aexit__` call the client's own context methods; what those do besides opening and closing is foreign.
- The fall-through `return await response.text()` after the four response types cannot be reached, since every `ResponseType` is matched.
- A `Foreign` value can carry class flags no Python exception has (a ClientResponseError that is not an Exception, say); `Classify` follows the clause order for any flags, and `ClassifyWellFormed` states the outcome for the well-formed ones.
- A foreign exception used as a cause is taken to be truthy, as Python exceptions are unless they override `__bool__` or `__len__`.
- `src/afetch/__init__.py` only re-exports names and is not part of this model.
