/**
 * Client-side scenarios in the spirit of the repository's tests: what a
 * caller can conclude from the contracts of `Fetcher` alone.
 */
module FetchingScenarios {
  import opened Wrappers
  import opened Http
  import opened Types
  import opened Config
  import opened Fetching

  /** A server that answers every call with status 200 and the given text. */
  function Serving(body: string): Transport {
    (call: ClientCall, url: Url, kwargs: Kwargs) =>
      Success(Response(200, "OK", url.Str(), None, Success(body), Success([]), Success(Json(body))))
  }

  /**
   * Fetching before entering the context raises; entering makes the fetcher
   * ready, and leaving it keeps it ready. Three fetches of one URL of which
   * only the first misses the cache acquire the domain's limiter once.
   */
  method LifecycleAndCacheScenario() {
    var fetcher := new Fetcher(None);
    var url := TextUrl("http://example.com/a", Success("example.com"));
    var early := fetcher.Fetch(url, false, Serving("a"));
    assert early == Failure(RuntimeError(NotReadyMessage));
    assert fetcher.limiters == map[];

    fetcher.Enter();
    var first := fetcher.Fetch(url, false, Serving("a"));
    assert first == Success("a");
    var second := fetcher.Fetch(url, true, Serving("a"));
    var third := fetcher.Fetch(url, true, Serving("a"));
    assert fetcher.limiters == map["example.com" := Limiter(1, 1.0, 1)];

    fetcher.Exit();
    assert fetcher.Ready();
  }

  /** A per-request header replaces the default of the same name. */
  method HeaderPrecedenceScenario() {
    var config := DefaultConfig().(defaultHeaders := map["User-Agent" := "default-agent"]);
    var fetcher := new Fetcher(Some(config));
    var options := DefaultOptions().(headers := map["User-Agent" := "custom-agent"]);
    var kwargs := fetcher.BuildRequestKwargs(options);
    var merged := MergeHeaders(config.defaultHeaders, options.headers);
    assert merged.Keys == {"User-Agent"};
    assert merged == map["User-Agent" := "custom-agent"];
    assert kwargs["headers"] == HeadersArg(Some(map["User-Agent" := "custom-agent"]));
  }
}
