/**
 * The WordPress REST API client object: configuration and the choice of
 * authentication made by `init`, the verb-shaped request builders, the
 * accessors on the last response, and `executeRequest`, which runs the retry
 * loop in place and is proved against `Executor.Run`.
 */
module WordpressClient {
  import opened Wrappers
  import opened PhpText
  import opened Taxonomy
  import opened Http
  import opened Executor

  const DefaultMaxRetryAttempts: int := 5

  const EndpointMessage: string := "Specify valid endpoint."
  const CredentialsMessage: string :=
    "Either specify client_key, client_secret & access_token for OAuth1 [production] "
    + "or username and password for basic auth [development only]."

  /** The OAuth1 client appends the REST API slug to the site URL it is given. */
  const RestApiSlug: string := "/wp-json"

  const ForceSuffix: string := "?force=true"

  /** Keys of the paging headers copied into the result fields after a successful call (lower-cased names). */
  const TotalRecordsHeader: string := "x-wp-total"
  const TotalPagesHeader: string := "x-wp-totalpages"
  const AllowHeader: string := "allow"

  /** The keys are the lower-cased header names `X-WP-Total`, `X-WP-TotalPages` and `allow`. */
  lemma PagingHeaderKeys()
    ensures Lower("X-WP-Total") == TotalRecordsHeader
    ensures Lower("X-WP-TotalPages") == TotalPagesHeader
    ensures Lower("allow") == AllowHeader
  {
  }

  /** PHP's `empty()` on a string property; an unset (null) property behaves as "". */
  predicate IsEmpty(s: string) {
    s == "" || s == "0"
  }

  /**
   * The test `init` uses to fall back to basic authentication. PHP binds `&&`
   * tighter than `||`, so it reads (no key and no secret) or no access token.
   */
  function UsesBasicAuth(key: string, secret: string, token: map<string, string>): (b: bool)
    ensures !b <==> token != map[] && (!IsEmpty(key) || !IsEmpty(secret))
  {
    (IsEmpty(key) && IsEmpty(secret)) || token == map[]
  }

  /** The OAuth1 client built by `init` on a site URL. */
  function OAuth1Client(key: string, secret: string, token: map<string, string>, siteUrl: string): (a: Auth)
    ensures a.OAuth1? && a.BaseUrl() == siteUrl + RestApiSlug
    ensures a.consumerKey == key && a.consumerSecret == secret && a.accessToken == token
  {
    OAuth1(key, secret, token, siteUrl + RestApiSlug)
  }

  /**
   * What `init` decides from the configuration: an error message, or the
   * authenticating client (whose base URL becomes the new endpoint).
   */
  function Configure(endpoint: string, key: string, secret: string, token: map<string, string>,
                     user: string, pass: string): (r: Result<Auth, string>)
    ensures IsEmpty(endpoint) ==> r == Failure(EndpointMessage)
    ensures r.Failure? <==> IsEmpty(endpoint) || (UsesBasicAuth(key, secret, token) && (IsEmpty(user) || IsEmpty(pass)))
    ensures r.Failure? && !IsEmpty(endpoint) ==> r.error == CredentialsMessage
    ensures r.Success? ==> (r.value.Basic? <==> UsesBasicAuth(key, secret, token))
    ensures r.Success? && r.value.Basic? ==> r.value.baseUrl == endpoint
    ensures r.Success? && r.value.OAuth1? ==> r.value == OAuth1Client(key, secret, token, endpoint)
  {
    if IsEmpty(endpoint) then Failure(EndpointMessage)
    else if UsesBasicAuth(key, secret, token) then
      if IsEmpty(user) || IsEmpty(pass) then Failure(CredentialsMessage) else Success(Basic(endpoint))
    else Success(OAuth1Client(key, secret, token, endpoint))
  }

  /** Both directions: OAuth1 is chosen exactly when the endpoint, the access token and at least one of key and secret are set. */
  lemma OAuth1ChosenIff(endpoint: string, key: string, secret: string, token: map<string, string>, user: string, pass: string)
    ensures var r := Configure(endpoint, key, secret, token, user, pass);
            (r.Success? && r.value.OAuth1?)
            <==> !IsEmpty(endpoint) && token != map[] && (!IsEmpty(key) || !IsEmpty(secret))
  {
  }

  /**
   * Because of the operator precedence, a key without a secret (or a secret
   * without a key) still selects OAuth1 when an access token is present, and
   * the username and password are then ignored.
   */
  lemma OAuth1WithOnlyKey(endpoint: string, key: string, token: map<string, string>, user: string, pass: string)
    requires !IsEmpty(endpoint) && !IsEmpty(key) && token != map[]
    ensures Configure(endpoint, key, "", token, user, pass) == Success(OAuth1Client(key, "", token, endpoint))
  {
  }

  /** `str_replace($endpoint . '/', '', $url)`: every occurrence of the endpoint followed by '/' is deleted from the URL. */
  function StripEndpoint(endpoint: string, url: string): (r: string)
    ensures |r| <= |url|
  {
    RemoveAll(endpoint + "/", url)
  }

  /**
   * A URL without the endpoint prefix passes through unchanged, and any URL
   * containing it gets shorter; a full URL and its relative form strip alike.
   */
  lemma StripEndpointProperties(endpoint: string, url: string)
    ensures StripEndpoint(endpoint, url) == url <==> !Occurs(endpoint + "/", url)
    ensures StripEndpoint(endpoint, endpoint + "/" + url) == StripEndpoint(endpoint, url)
  {
    RemoveAllUnchangedIff(endpoint + "/", url);
    assert endpoint + "/" + url == (endpoint + "/") + url;
    RemoveAllLeading(endpoint + "/", url);
  }

  /** A relative URL shorter than the endpoint cannot contain it and is used as given. */
  lemma StripShortUrl(endpoint: string, url: string)
    requires |url| <= |endpoint|
    ensures StripEndpoint(endpoint, url) == url
  {
    RemoveAllNoOccurrence(endpoint + "/", url);
  }

  /** Query data of `getData`: the caller's keys, with `context` and `per_page` set and `page` set only when given. */
  function ListQuery(data: map<string, Param>, context: string, page: Option<int>, perPage: int): (q: map<string, Param>)
    ensures q.Keys == data.Keys + {"context", "per_page"} + (if page.Some? then {"page"} else {})
    ensures q["context"] == Str(context) && q["per_page"] == Int(perPage)
    ensures page.Some? ==> q["page"] == Int(page.value)
    ensures forall k :: k in data && k != "context" && k != "per_page" && (k != "page" || page.None?) ==> q[k] == data[k]
  {
    var q := data["context" := Str(context)]["per_page" := Int(perPage)];
    if page.Some? then q["page" := Int(page.value)] else q
  }

  /** Body data of `putData`, `patchData` and `postData`: the caller's keys with `context` set. */
  function WithContext(data: map<string, Param>, context: string): (q: map<string, Param>)
    ensures q.Keys == data.Keys + {"context"}
    ensures q["context"] == Str(context)
    ensures forall k :: k in data && k != "context" ==> q[k] == data[k]
  {
    data["context" := Str(context)]
  }

  /** URL of `deleteData`: the stripped URL, followed by the force marker when `force` is set. */
  function DeleteUrl(endpoint: string, url: string, force: bool): (r: string)
    ensures |r| == |StripEndpoint(endpoint, url)| + (if force then |ForceSuffix| else 0)
    ensures r[..|StripEndpoint(endpoint, url)|] == StripEndpoint(endpoint, url)
    ensures force ==> r[|StripEndpoint(endpoint, url)|..] == ForceSuffix
  {
    StripEndpoint(endpoint, url) + (if force then ForceSuffix else "")
  }

  /** The value of the basic authentication header. */
  function BasicAuthorization(user: string, pass: string, base64: string -> string): (r: string)
    ensures |r| >= 6 && r[..6] == "Basic " && r[6..] == base64(user + ":" + pass)
  {
    "Basic " + base64(user + ":" + pass)
  }

  /**
   * How a call ended as far as the client's state is concerned: `Run` from a
   * reset retry count, with its number of sends, and the paging fields.
   */
  ghost predicate ResultStateMatches(c: Completion, sends: nat, e: End, retries: int, response: Option<Response>,
                                     total: Option<string>, pages: Option<string>, allow: Option<string>,
                                     prevTotal: Option<string>, prevPages: Option<string>, prevAllow: Option<string>)
  {
    && c == e.completion && sends == e.sends && retries == e.retries && response == e.response
    && (c.Normal? ==>
          && response.Some?
          && total == HeaderValue(response.value.headers, TotalRecordsHeader)
          && pages == HeaderValue(response.value.headers, TotalPagesHeader)
          && allow == HeaderValue(response.value.headers, AllowHeader))
    && (c.Thrown? ==> total == prevTotal && pages == prevPages && allow == prevAllow)
  }

  /** Result of `asArray`/`asObject`: nothing stored yet, a decoded value, or a decoding error (thrown). */
  datatype Accessed<J> = NoContent | Value(value: J) | Invalid(reason: string)

  class Client {
    var endpoint: string
    var clientKey: string
    var clientSecret: string
    var accessToken: map<string, string>
    var username: string
    var password: string
    var resultTotalRecords: Option<string>
    var resultTotalPages: Option<string>
    var resultAllowMethods: Option<string>
    var maxRetryAttempts: int
    var retries: int
    var request: Option<Request>
    var response: Option<Response>
    var client: Option<Auth>

    /** The configured properties before `init` runs; everything else at its default. */
    constructor (endpoint: string, clientKey: string, clientSecret: string, accessToken: map<string, string>,
                 username: string, password: string, maxRetryAttempts: int)
      ensures this.endpoint == endpoint && this.clientKey == clientKey && this.clientSecret == clientSecret
      ensures this.accessToken == accessToken && this.username == username && this.password == password
      ensures this.maxRetryAttempts == maxRetryAttempts && retries == 0
      ensures request == None && response == None && client == None
      ensures resultTotalRecords == None && resultTotalPages == None && resultAllowMethods == None
    {
      this.endpoint := endpoint;
      this.clientKey := clientKey;
      this.clientSecret := clientSecret;
      this.accessToken := accessToken;
      this.username := username;
      this.password := password;
      this.maxRetryAttempts := maxRetryAttempts;
      retries := 0;
      request := None;
      response := None;
      client := None;
      resultTotalRecords := None;
      resultTotalPages := None;
      resultAllowMethods := None;
    }

    /**
     * `init`: rejects an empty endpoint, picks basic authentication or OAuth1,
     * and for OAuth1 replaces the endpoint by the client's API base URL.
     * A failure (an invalid-configuration exception) changes nothing.
     */
    method Init() returns (r: Result<(), string>)
      modifies this`client, this`endpoint
      ensures var cfg := Configure(old(endpoint), clientKey, clientSecret, accessToken, username, password);
              if cfg.Failure? then r == Failure(cfg.error) && client == old(client) && endpoint == old(endpoint)
              else r == Success(()) && client == Some(cfg.value) && endpoint == cfg.value.BaseUrl()
    {
      if IsEmpty(endpoint) {
        return Failure(EndpointMessage);
      }
      if (IsEmpty(clientKey) && IsEmpty(clientSecret)) || accessToken == map[] {
        if IsEmpty(username) || IsEmpty(password) {
          return Failure(CredentialsMessage);
        }
        client := Some(Basic(endpoint));
      } else {
        client := Some(OAuth1Client(clientKey, clientSecret, accessToken, endpoint));
        endpoint := client.value.apiBaseUrl;
      }
      return Success(());
    }

    /**
     * `createAuthenticatedRequest`: a made request from the OAuth1 client
     * (signed when sent), or from the plain client with one basic
     * authentication header.
     */
    function AuthenticatedRequest(base64: string -> string): (r: Request)
      reads this
      requires client.Some?
      ensures r.via == client.value && r.data == map[] && r.content == None && r.url == ""
      ensures client.value.OAuth1? ==> r.headers == map[]
      ensures client.value.Basic? ==> r.headers == map["Authorization" := BasicAuthorization(username, password, base64)]
    {
      var made := Request(Get, "", map[], None, map[], client.value);
      if client.value.OAuth1? then made
      else made.(headers := map["Authorization" := BasicAuthorization(username, password, base64)])
    }

    /**
     * The state a finished `executeRequest` leaves, where `whole` is the call
     * as `Run` computes it from the state before.
     */
    ghost predicate Executed(c: Completion, sends: nat, whole: End,
                             prevTotal: Option<string>, prevPages: Option<string>, prevAllow: Option<string>)
      reads this
    {
      && ResultStateMatches(c, sends, whole, retries, response, resultTotalRecords, resultTotalPages, resultAllowMethods,
                            prevTotal, prevPages, prevAllow)
      && 0 <= retries && (retries <= maxRetryAttempts || retries == 0)
    }

    /**
     * One trip round the `do` body of `executeRequest`: sends the stored
     * request, stores what came back, and decides as the `try` block and its
     * two `catch` blocks do. The retry count is advanced by the caller.
     */
    method Attempt<J>(env: Env<J>, req: Request) returns (step: Step)
      requires 0 <= retries
      modifies this`response
      ensures step == Pass(env, req, env.transport(req, retries), retries, maxRetryAttempts)
      ensures response == Stored(env.transport(req, retries), old(response))
    {
      var outcome := env.transport(req, retries);
      match outcome {
        case TransportError(code, message) =>
          if code in TransportRetryCodes && retries < maxRetryAttempts {
            return Retried;
          }
          return Failed(TransportFailure(code, message, retries));
        case Received(resp) =>
          response := Some(resp);
          var decoded := env.decode(resp.content);
          if decoded.Malformed? {
            return Failed(IllegalResponse(decoded.reason, resp.content));
          }
          if !env.isOk(resp.statusCode) {
            var e := StatusError(env, req, resp, decoded.value);
            if env.handle(e.code) == Retry && retries < maxRetryAttempts {
              return Retried;
            }
            return Failed(e);
          }
          return Succeeded;
      }
    }

    /**
     * One trip round the `do` body of `executeRequest`, with its bookkeeping:
     * a retried pass advances the retry count and clears `requestSuccess`; a
     * pass that throws hands back its exception. Given that `whole` is the
     * call from a reset count, a retried pass keeps the loop's bookkeeping and
     * any other pass completes the call as `whole` says.
     */
    method Round<J>(env: Env<J>, req: Request, ghost whole: End) returns (requestSuccess: bool, failure: Option<ApiError>)
      requires 0 <= retries && Resumes(env, req, maxRetryAttempts, retries, response, whole)
      modifies this`response, this`retries
      ensures retries == old(retries) + (if failure.None? && !requestSuccess then 1 else 0)
      ensures failure.None? && !requestSuccess ==> retries <= maxRetryAttempts && Resumes(env, req, maxRetryAttempts, retries, response, whole)
      ensures failure.None? && requestSuccess ==> whole == End(Normal, retries, response, retries + 1)
      ensures failure.Some? ==> whole == End(Thrown(failure.value), retries, response, retries + 1)
    {
      ghost var last := response;
      var step := Attempt(env, req);
      RunStep(env, req, maxRetryAttempts, retries, last, whole, step);
      match step {
        case Retried =>
          retries := retries + 1;
          return false, None;
        case Failed(e) =>
          return false, Some(e);
        case Succeeded =>
          return true, None;
      }
    }

    /**
     * `executeRequest`: resets the retry count, then sends the stored request
     * (never rebuilt) until a pass succeeds or throws; on success copies the
     * paging headers into the result fields. `sends` counts the transport calls.
     */
    method ExecuteRequest<J>(env: Env<J>) returns (c: Completion, ghost sends: nat)
      requires request.Some?
      modifies this`retries, this`response, this`resultTotalRecords, this`resultTotalPages, this`resultAllowMethods
      ensures Executed(c, sends, old(Run(env, request.value, maxRetryAttempts, 0, response)),
                       old(resultTotalRecords), old(resultTotalPages), old(resultAllowMethods))
    {
      var req := request.value;
      ghost var whole := Run(env, request.value, maxRetryAttempts, 0, old(response));
      retries := 0;
      sends := 0;
      var requestSuccess := false;
      while true
        invariant 0 <= retries && (retries <= maxRetryAttempts || retries == 0) && sends == retries
        invariant Resumes(env, req, maxRetryAttempts, retries, response, whole)
        invariant resultTotalRecords == old(resultTotalRecords) && resultTotalPages == old(resultTotalPages)
        invariant resultAllowMethods == old(resultAllowMethods)
        decreases maxRetryAttempts - retries
      {
        var failure;
        requestSuccess, failure := Round(env, req, whole);
        sends := sends + 1;
        if failure.Some? {
          c := Thrown(failure.value);
          return;
        }
        if !(!requestSuccess && retries <= maxRetryAttempts) {
          break;
        }
      }
      StorePaging();
      c := Normal;
    }

    /** The end of a successful `executeRequest`: the paging headers of the stored response go into the result fields. */
    method StorePaging()
      requires response.Some?
      modifies this`resultTotalRecords, this`resultTotalPages, this`resultAllowMethods
      ensures resultTotalRecords == HeaderValue(response.value.headers, TotalRecordsHeader)
      ensures resultTotalPages == HeaderValue(response.value.headers, TotalPagesHeader)
      ensures resultAllowMethods == HeaderValue(response.value.headers, AllowHeader)
    {
      resultTotalRecords := HeaderValue(response.value.headers, TotalRecordsHeader);
      resultTotalPages := HeaderValue(response.value.headers, TotalPagesHeader);
      resultAllowMethods := HeaderValue(response.value.headers, AllowHeader);
    }

    /** `getData`: a GET with the list query, then `executeRequest`. */
    method GetData<J>(entityUrl: string, context: string, pageNumber: Option<int>, pageLength: int,
                      requestData: map<string, Param>, env: Env<J>, base64: string -> string) returns (c: Completion, ghost sends: nat)
      requires client.Some?
      modifies this`request, this`retries, this`response, this`resultTotalRecords, this`resultTotalPages, this`resultAllowMethods
      ensures request == Some(old(AuthenticatedRequest(base64)).(verb := Get, url := StripEndpoint(endpoint, entityUrl),
                                                                   data := ListQuery(requestData, context, pageNumber, pageLength)))
      ensures Executed(c, sends, Run(env, request.value, maxRetryAttempts, 0, old(response)),
                       old(resultTotalRecords), old(resultTotalPages), old(resultAllowMethods))
    {
      var data := ListQuery(requestData, context, pageNumber, pageLength);
      request := Some(AuthenticatedRequest(base64).(verb := Get, url := StripEndpoint(endpoint, entityUrl), data := data));
      c, sends := ExecuteRequest(env);
    }

    /** `putData`, `patchData` and `postData`: the verb with the caller's data and `context`, then `executeRequest`. */
    method SendData<J>(verb: Method, entityUrl: string, context: string, updateData: map<string, Param>,
                       env: Env<J>, base64: string -> string) returns (c: Completion, ghost sends: nat)
      requires client.Some?
      requires verb == Put || verb == Patch || verb == Post
      modifies this`request, this`retries, this`response, this`resultTotalRecords, this`resultTotalPages, this`resultAllowMethods
      ensures request == Some(old(AuthenticatedRequest(base64)).(verb := verb, url := StripEndpoint(endpoint, entityUrl),
                                                                   data := WithContext(updateData, context)))
      ensures Executed(c, sends, Run(env, request.value, maxRetryAttempts, 0, old(response)),
                       old(resultTotalRecords), old(resultTotalPages), old(resultAllowMethods))
    {
      request := Some(AuthenticatedRequest(base64).(verb := verb, url := StripEndpoint(endpoint, entityUrl),
                                                    data := WithContext(updateData, context)));
      c, sends := ExecuteRequest(env);
    }

    /** `deleteData`: a DELETE on the stripped URL, with the force marker when asked, then `executeRequest`. */
    method DeleteData<J>(entityUrl: string, force: bool, env: Env<J>, base64: string -> string) returns (c: Completion, ghost sends: nat)
      requires client.Some?
      modifies this`request, this`retries, this`response, this`resultTotalRecords, this`resultTotalPages, this`resultAllowMethods
      ensures request == Some(old(AuthenticatedRequest(base64)).(verb := Delete, url := DeleteUrl(endpoint, entityUrl, force)))
      ensures Executed(c, sends, Run(env, request.value, maxRetryAttempts, 0, old(response)),
                       old(resultTotalRecords), old(resultTotalPages), old(resultAllowMethods))
    {
      request := Some(AuthenticatedRequest(base64).(verb := Delete, url := DeleteUrl(endpoint, entityUrl, force)));
      c, sends := ExecuteRequest(env);
    }

    /** `uploadFile`: a POST whose raw content is the file, with disposition and type headers added, then `executeRequest`. */
    method UploadFile<J>(entityUrl: string, fileName: string, fileContentType: string, fileData: string,
                         env: Env<J>, base64: string -> string) returns (c: Completion, ghost sends: nat)
      requires client.Some?
      modifies this`request, this`retries, this`response, this`resultTotalRecords, this`resultTotalPages, this`resultAllowMethods
      ensures var made := old(AuthenticatedRequest(base64));
              request == Some(made.(verb := Post, url := StripEndpoint(endpoint, entityUrl), content := Some(fileData),
                                     headers := made.headers["content-disposition" := "attachment; filename=" + fileName]
                                                             ["content-type" := fileContentType]))
      ensures Executed(c, sends, Run(env, request.value, maxRetryAttempts, 0, old(response)),
                       old(resultTotalRecords), old(resultTotalPages), old(resultAllowMethods))
    {
      var made := AuthenticatedRequest(base64);
      var headers := made.headers["content-disposition" := "attachment; filename=" + fileName]["content-type" := fileContentType];
      request := Some(made.(verb := Post, url := StripEndpoint(endpoint, entityUrl), content := Some(fileData), headers := headers));
      c, sends := ExecuteRequest(env);
    }

    /** `asArray` (assoc = true) and `asObject` (assoc = false): the stored body decoded, or nothing when no response is stored. */
    function Decode<J>(decode: (string, bool) -> Decoded<J>, assoc: bool): (r: Accessed<J>)
      reads this
      ensures r == NoContent <==> response.None?
      ensures response.Some? && decode(response.value.content, assoc).Parsed?
              ==> r == Value(decode(response.value.content, assoc).value)
      ensures response.Some? && decode(response.value.content, assoc).Malformed?
              ==> r == Invalid(decode(response.value.content, assoc).reason)
    {
      if response.None? then NoContent
      else match decode(response.value.content, assoc)
        case Parsed(v) => Value(v)
        case Malformed(reason) => Invalid(reason)
    }

    /**
     * After a call that returned normally, `asObject` (whose decoder is the
     * one `executeRequest` uses) gives the body that call decoded.
     */
    lemma ObjectAfterNormalCall<J>(env: Env<J>, decode: (string, bool) -> Decoded<J>, sends: nat, prevResponse: Option<Response>,
                                   prevTotal: Option<string>, prevPages: Option<string>, prevAllow: Option<string>)
      requires request.Some?
      requires Executed(Normal, sends, Run(env, request.value, maxRetryAttempts, 0, prevResponse), prevTotal, prevPages, prevAllow)
      requires forall s :: decode(s, false) == env.decode(s)
      ensures response.Some? && env.decode(response.value.content).Parsed?
      ensures Decode(decode, false) == Value(env.decode(response.value.content).value)
    {
      NormalMeansOk(env, request.value, maxRetryAttempts, prevResponse);
    }

    /** `asRaw`: the stored body as received. */
    function AsRaw(): (r: Option<string>)
      reads this
      ensures r.Some? <==> response.Some?
      ensures r.Some? ==> r.value == response.value.content
    {
      if response.Some? then Some(response.value.content) else None
    }

    /** `getLastRequestContent`: the raw content of the stored request, when it has one. */
    function LastRequestContent(): (r: Option<string>)
      reads this
      ensures r.Some? <==> request.Some? && request.value.content.Some?
      ensures r.Some? ==> r == request.value.content
    {
      if request.Some? then request.value.content else None
    }
  }
}
