/** The exception hierarchy of `src/afetch/errors.py` and its string rendering. */
module Errors {
  import opened Wrappers
  import Http

  /**
   * `FetcherError` and its five subclasses. Every case carries the base
   * fields; `ResponseError` adds status and response, `RetryExhaustedError`
   * adds attempts. The case is the exception's class, so every value is a
   * `FetcherError` in Python's sense.
   */
  datatype FetcherError =
    | FetcherError(message: string, cause: Option<Http.Foreign>, url: Option<string>)
    | RequestError(message: string, cause: Option<Http.Foreign>, url: Option<string>)
    | FetcherTimeoutError(message: string, cause: Option<Http.Foreign>, url: Option<string>)
    | ResponseError(message: string, cause: Option<Http.Foreign>, url: Option<string>,
                    status: Option<int>, response: Option<Http.Response>)
    | RetryExhaustedError(message: string, cause: Option<Http.Foreign>, url: Option<string>,
                          attempts: Option<int>)
    | CacheError(message: string, cause: Option<Http.Foreign>, url: Option<string>)

  /** Decimal digits of a natural number, as `str()` writes them. */
  function NatToString(n: nat): (s: string)
    ensures |s| > 0
    decreases n
  {
    var d := "0123456789"[n % 10];
    if n < 10 then [d] else NatToString(n / 10) + [d]
  }

  /** `str()` of a Python int. */
  function IntToString(i: int): string {
    if i < 0 then "-" + NatToString(-i) else NatToString(i)
  }

  /** `sep.join(parts)` */
  function Join(parts: seq<string>, sep: string): string
    decreases |parts|
  {
    if |parts| == 0 then ""
    else if |parts| == 1 then parts[0]
    else parts[0] + sep + Join(parts[1..], sep)
  }

  /** Appending one part adds the separator and that part at the end. */
  lemma {:induction false} JoinAppend(parts: seq<string>, sep: string, p: string)
    requires |parts| > 0
    ensures Join(parts + [p], sep) == Join(parts, sep) + sep + p
    decreases |parts|
  {
    if |parts| == 1 {
      assert (parts + [p])[1..] == [p];
    } else {
      assert (parts + [p])[1..] == parts[1..] + [p];
      JoinAppend(parts[1..], sep, p);
    }
  }

  /** The separator `__str__` joins the parts with. */
  const Separator := " | "

  /** A Python `str | None` is truthy when present and non-empty. */
  predicate Truthy(s: Option<string>) {
    s.Some? && s.value != ""
  }

  /** `ResponseError.__str__` shows the status when it is present and non-zero. */
  predicate ShowsStatus(e: FetcherError) {
    e.ResponseError? && e.status.Some? && e.status.value != 0
  }

  function StatusPart(e: FetcherError): string
    requires ShowsStatus(e)
  {
    "Status: " + IntToString(e.status.value)
  }

  function UrlPart(e: FetcherError): string
    requires Truthy(e.url)
  {
    "URL: " + e.url.value
  }

  function CausePart(e: FetcherError): string
    requires e.cause.Some?
  {
    "Caused by: " + e.cause.value.typeName + ": " + e.cause.value.text
  }

  /**
   * The `parts` list of `__str__`: the message, then each optional part whose
   * field is truthy. Only `ResponseError` overrides `__str__` to add the status.
   */
  function Parts(e: FetcherError): seq<string> {
    [e.message]
    + (if ShowsStatus(e) then [StatusPart(e)] else [])
    + (if Truthy(e.url) then [UrlPart(e)] else [])
    + (if e.cause.Some? then [CausePart(e)] else [])
  }

  /** `str(e)` */
  function Render(e: FetcherError): (s: string)
    ensures |e.message| <= |s| && s[..|e.message|] == e.message
  {
    Join(Parts(e), Separator)
  }

  /**
   * The list-and-join of `__str__` is a plain concatenation: the message,
   * then " | " and each shown part, in the order status, URL, cause.
   */
  lemma {:induction false} RenderAsConcatenation(e: FetcherError)
    ensures Render(e) ==
      e.message
      + (if ShowsStatus(e) then Separator + StatusPart(e) else "")
      + (if Truthy(e.url) then Separator + UrlPart(e) else "")
      + (if e.cause.Some? then Separator + CausePart(e) else "")
  {
    var p0 := [e.message];
    var p1 := p0 + (if ShowsStatus(e) then [StatusPart(e)] else []);
    var p2 := p1 + (if Truthy(e.url) then [UrlPart(e)] else []);
    var p3 := p2 + (if e.cause.Some? then [CausePart(e)] else []);
    assert Parts(e) == p3;
    var s0 := e.message;
    var s1 := s0 + (if ShowsStatus(e) then Separator + StatusPart(e) else "");
    var s2 := s1 + (if Truthy(e.url) then Separator + UrlPart(e) else "");
    var s3 := s2 + (if e.cause.Some? then Separator + CausePart(e) else "");
    assert Join(p0, Separator) == s0;
    if ShowsStatus(e) { JoinAppend(p0, Separator, StatusPart(e)); } else { assert p1 == p0; }
    assert Join(p1, Separator) == s1;
    if Truthy(e.url) { JoinAppend(p1, Separator, UrlPart(e)); } else { assert p2 == p1; }
    assert Join(p2, Separator) == s2;
    if e.cause.Some? { JoinAppend(p2, Separator, CausePart(e)); } else { assert p3 == p2; }
    assert Join(p3, Separator) == s3;
  }

  /** With no truthy url, no cause and no shown status, `str(e)` is the message alone. */
  lemma RenderBare(e: FetcherError)
    requires !Truthy(e.url) && e.cause.None? && !ShowsStatus(e)
    ensures Render(e) == e.message
  {
    RenderAsConcatenation(e);
  }

  /** `RetryExhaustedError` inherits the base `__str__`: the attempt count never shows. */
  lemma RenderIgnoresAttempts(e: FetcherError, attempts: Option<int>)
    requires e.RetryExhaustedError?
    ensures Render(e.(attempts := attempts)) == Render(e)
    ensures Render(e) == Render(FetcherError(e.message, e.cause, e.url))
  {
  }

  /** A non-zero status is shown right after the message; a status of 0 renders as a missing one. */
  lemma RenderResponseStatus(e: FetcherError, n: int)
    requires e.ResponseError? && n != 0
    ensures Render(e.(status := Some(n))) ==
      e.message + Separator + "Status: " + IntToString(n)
      + (if Truthy(e.url) then Separator + UrlPart(e) else "")
      + (if e.cause.Some? then Separator + CausePart(e) else "")
    ensures Render(e.(status := Some(0))) == Render(e.(status := None))
  {
    RenderAsConcatenation(e.(status := Some(n)));
    RenderAsConcatenation(e.(status := Some(0)));
    RenderAsConcatenation(e.(status := None));
  }
}
