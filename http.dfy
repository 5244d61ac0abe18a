/**
 * Requests, responses and transport outcomes as the client sees them; the
 * HTTP library that builds, signs and sends them is not part of this model.
 */
module Http {
  import opened Wrappers
  import opened PhpText

  /** HTTP methods the client sets, with the lower-case name it passes to `setMethod`. */
  datatype Method = Get | Put | Patch | Post | Delete {
    function Name(): (s: string)
      ensures Lower(s) == s
    {
      match this
      case Get => "get"
      case Put => "put"
      case Patch => "patch"
      case Post => "post"
      case Delete => "delete"
    }
  }

  /** A value in the request data array. */
  datatype Param = Str(s: string) | Int(i: int) | Bool(b: bool)

  /**
   * The authenticating client created by `init`: a plain HTTP client on the
   * configured endpoint (basic authentication), or an OAuth1 client with its
   * consumer key and secret, access token and API base URL.
   */
  datatype Auth =
    | Basic(baseUrl: string)
    | OAuth1(consumerKey: string, consumerSecret: string, accessToken: map<string, string>, apiBaseUrl: string)
  {
    function BaseUrl(): string {
      match this
      case Basic(u) => u
      case OAuth1(_, _, _, u) => u
    }
  }

  /** A request: verb (HTTP method), URL relative to the client's base URL, data array, raw content, headers and the client that made it. */
  datatype Request = Request(
    verb: Method,
    url: string,
    data: map<string, Param>,
    content: Option<string>,
    headers: map<string, string>,
    via: Auth)

  /** A received response; header names are held lower-cased, as the HTTP library's header collection stores them. */
  datatype Response = Response(statusCode: int, content: string, headers: map<string, string>)

  /** One send: either the transport failed with a numeric code and a message, or a response came back. */
  datatype Outcome = TransportError(code: int, message: string) | Received(response: Response)

  /**
   * Header lookup. Names are stored lower-cased, so a lookup by any spelling
   * of a name goes through its lower-cased key; absent headers read as null.
   */
  function HeaderValue(headers: map<string, string>, key: string): (r: Option<string>)
    ensures r.Some? <==> key in headers
    ensures r.Some? ==> r.value == headers[key]
  {
    if key in headers then Some(headers[key]) else None
  }
}
