/**
 * The fetcher's configuration record: the fields `src/afetch/config.py`
 * declares together with the four that `src/afetch/fetcher.py` reads from it
 * (`default_headers`, `timeout`, `return_exceptions`; the logger is left out).
 */
module Config {
  import opened Wrappers

  /** A cache backend; `expireAfterZero` records `expire_after = 0` (nothing stays fresh). */
  datatype CacheBackend =
    | FileBackend(cacheName: string, expireAfterZero: bool)
    | CustomBackend(id: nat, expireAfterZero: bool)

  datatype FetcherConfig = FetcherConfig(
    maxRatePerDomain: int,
    timePeriodPerDomain: real,
    retryAttempts: int,
    cacheBackend: Option<CacheBackend>,
    cacheEnabled: bool,
    defaultHeaders: map<string, string>,
    timeout: Option<real>,
    returnExceptions: bool)

  /** `FetcherConfig()`: the declared defaults, and empty / absent / off for the undeclared fields. */
  function DefaultConfig(): FetcherConfig {
    FetcherConfig(1, 1.0, 3, None, true, map[], None, false)
  }
}
