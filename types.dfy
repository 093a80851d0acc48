/** The request descriptor and the two enumerations of `src/afetch/types.py`. */
module Types {
  import opened Wrappers
  import Http

  /** The seven HTTP methods a request may use. */
  datatype HttpMethod = GET | POST | PUT | DELETE | PATCH | HEAD | OPTIONS {

    /** The literal string naming the method (`.value`). */
    function Value(): string {
      match this
      case GET => "GET"
      case POST => "POST"
      case PUT => "PUT"
      case DELETE => "DELETE"
      case PATCH => "PATCH"
      case HEAD => "HEAD"
      case OPTIONS => "OPTIONS"
    }
  }

  /** The seven string literals the `HttpMethod` type admits. */
  const MethodLiterals: set<string> := {"GET", "POST", "PUT", "DELETE", "PATCH", "HEAD", "OPTIONS"}

  /** The method a string literal stands for; None for a string outside the literal type. */
  function MethodFromLiteral(s: string): (m: Option<HttpMethod>)
    ensures m.Some? <==> s in MethodLiterals
    ensures m.Some? ==> m.value.Value() == s
  {
    if s == "GET" then Some(GET)
    else if s == "POST" then Some(POST)
    else if s == "PUT" then Some(PUT)
    else if s == "DELETE" then Some(DELETE)
    else if s == "PATCH" then Some(PATCH)
    else if s == "HEAD" then Some(HEAD)
    else if s == "OPTIONS" then Some(OPTIONS)
    else None
  }

  /** Each method is named by exactly one literal and reads back as itself. */
  lemma MethodLiteralRoundTrip(m: HttpMethod)
    ensures m.Value() in MethodLiterals
    ensures MethodFromLiteral(m.Value()) == Some(m)
  {
  }

  /** How a response body is handed back. */
  datatype ResponseType = TEXT | JSON | BYTES | RAW {

    function Value(): string {
      match this
      case TEXT => "text"
      case JSON => "json"
      case BYTES => "bytes"
      case RAW => "raw"
    }
  }

  /** The four enum values are distinct, so the enum has four members and no aliases. */
  lemma ResponseTypeValuesDistinct(a: ResponseType, b: ResponseType)
    ensures a.Value() == b.Value() ==> a == b
  {
  }

  /** A request body: `bytes | str`. */
  datatype Body = BytesBody(bytes: seq<bv8>) | StrBody(text: string)

  /** `RequestOptions`: per-request overrides; a None field falls back to the fetcher's setting. */
  datatype RequestOptions = RequestOptions(
    httpMethod: HttpMethod,   // `method` (a reserved word here)
    headers: map<string, string>,
    data: Option<Body>,
    json: Option<Http.Json>,
    params: Option<map<string, string>>,
    timeout: Option<real>,
    responseType: ResponseType,
    allowRedirects: bool)

  /** `RequestOptions()` with every field at its declared default. */
  function DefaultOptions(): RequestOptions {
    RequestOptions(GET, map[], None, None, None, None, TEXT, true)
  }
}
