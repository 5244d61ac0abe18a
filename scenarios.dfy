/**
 * Client-side scenarios: what a caller can conclude from the contracts of
 * `Client` alone, for a paged listing, a forced delete that is refused, and
 * an OAuth1 nonce collision that is retried once; plus how a full entity URL
 * relates to its relative form. Each scenario's exchange with the server is
 * worked out on `Run` in a lemma of its own, and the method then reads the
 * client's state off the class contracts.
 */
module Scenarios {
  import opened Wrappers
  import opened PhpText
  import opened Taxonomy
  import opened Http
  import opened Executor
  import opened WordpressClient

  const Site: string := "https://example.org"

  /** A transport that answers every send with the same response. */
  function Answering(resp: Response): (Request, nat) -> Outcome {
    (req: Request, n: nat) => Received(resp)
  }

  /** An environment whose decoder accepts every body and whose OK test is the 2xx range. */
  function PlainEnv(transport: (Request, nat) -> Outcome): Env<string> {
    Env(transport,
        (s: string) => Parsed(s),
        (j: string) => Body(None, None, [], None),
        (status: int) => 200 <= status < 300,
        (code: int) => Fail,
        (req: Request) => req.url)
  }

  /** A client for `Site` with basic authentication, after `init`. */
  method NewBasicClient() returns (c: Client)
    ensures fresh(c) && c.client == Some(Basic(Site)) && c.endpoint == Site
    ensures c.response == None && c.maxRetryAttempts == DefaultMaxRetryAttempts
    ensures c.resultTotalRecords == None && c.resultTotalPages == None && c.resultAllowMethods == None
  {
    assert !IsEmpty(Site) && UsesBasicAuth("", "", map[]) && !IsEmpty("admin") && !IsEmpty("secret");
    c := new Client(Site, "", "", map[], "admin", "secret", DefaultMaxRetryAttempts);
    var ok := c.Init();
    assert ok == Success(());
  }

  /** Page 2 of a listing of 25 records in 3 pages. */
  const PageTwo: Response := Response(200, "[]", map[TotalRecordsHeader := "25", TotalPagesHeader := "3"])

  /** A server answering with `PageTwo` ends the call normally after one send. */
  lemma PageTwoRun(req: Request)
    ensures Run(PlainEnv(Answering(PageTwo)), req, DefaultMaxRetryAttempts, 0, None) == End(Normal, 0, Some(PageTwo), 1)
  {
    var env := PlainEnv(Answering(PageTwo));
    assert env.transport(req, 0) == Received(PageTwo);
    assert Pass(env, req, Received(PageTwo), 0, DefaultMaxRetryAttempts) == Succeeded;
    RunUnfold(env, req, DefaultMaxRetryAttempts, 0, None);
  }

  /** Listing page 2 of posts with basic authentication: the paging headers end up in the result fields. */
  method PagedListing() {
    var c := NewBasicClient();
    var env := PlainEnv(Answering(PageTwo));
    var done, sends := c.GetData("posts", "view", Some(2), 10, map[], env, (s: string) => s);
    assert c.maxRetryAttempts == DefaultMaxRetryAttempts;
    PageTwoRun(c.request.value);
    ghost var e := Run(env, c.request.value, DefaultMaxRetryAttempts, 0, None);
    assert e == End(Normal, 0, Some(PageTwo), 1);
    assert done == Normal && sends == 1 && c.retries == 0;
    assert c.response == Some(PageTwo);
    assert PageTwo.headers[TotalRecordsHeader] == "25" && PageTwo.headers[TotalPagesHeader] == "3";
    assert AllowHeader !in PageTwo.headers;
    assert c.resultTotalRecords == Some("25") && c.resultTotalPages == Some("3") && c.resultAllowMethods == None;
    assert c.request.value.data["page"] == Int(2) && c.request.value.data["per_page"] == Int(10);
  }

  const Missing: Response := Response(404, "{}", map[])

  /** A server answering 404 makes the call throw 404 after one send, with nothing retried. */
  lemma MissingRun(req: Request)
    ensures var e := Run(PlainEnv(Answering(Missing)), req, DefaultMaxRetryAttempts, 0, None);
            e.completion.Thrown? && e.completion.error.code == 404
            && e.retries == 0 && e.sends == 1 && e.response == Some(Missing)
  {
    var env := PlainEnv(Answering(Missing));
    assert env.transport(req, 0) == Received(Missing);
    var err := StatusError(env, req, Missing, "{}");
    assert err.code == 404 && env.handle(err.code) == Fail;
    assert Pass(env, req, Received(Missing), 0, DefaultMaxRetryAttempts) == Failed(err);
    RunUnfold(env, req, DefaultMaxRetryAttempts, 0, None);
  }

  /** A forced delete of "posts/5" that the server refuses with 404: the error carries the status, nothing is retried. */
  method RefusedDelete() {
    var c := NewBasicClient();
    var env := PlainEnv(Answering(Missing));
    var done, sends := c.DeleteData("posts/5", true, env, (s: string) => s);
    StripShortUrl(c.endpoint, "posts/5");
    assert c.request.value.verb == Delete && c.request.value.url == "posts/5" + ForceSuffix;
    assert c.maxRetryAttempts == DefaultMaxRetryAttempts;
    MissingRun(c.request.value);
    assert done.Thrown? && done.error.code == 404 && sends == 1;
    assert c.resultTotalRecords == None && c.retries == 0;
  }

  /**
   * A full entity URL and its relative form lead to the same request URL,
   * the relative one, whenever that does not itself contain the endpoint
   * followed by '/'.
   */
  lemma FullAndRelativeUrl(site: string, path: string)
    requires !Occurs(site + "/", path)
    ensures StripEndpoint(site, site + "/" + path) == path
    ensures StripEndpoint(site, path) == path
  {
    StripEndpointProperties(site, path);
  }

  const Collision: Response := Response(401, "nonce", map[])
  const Created: Response := Response(201, "{}", map[])

  /**
   * A server that reports a used OAuth1 nonce on the first send and accepts
   * the second, with code 432 handled as RETRY.
   */
  function NonceEnv(): Env<string> {
    Env((req: Request, n: nat) => if n == 0 then Received(Collision) else Received(Created),
        (s: string) => Parsed(s),
        (j: string) => if j == "nonce" then Body(Some(NonceAlreadyUsed), None, [], None) else Body(None, None, [], None),
        (status: int) => 200 <= status < 300,
        (code: int) => if code == NonceRetryCode then Retry else Fail,
        (req: Request) => req.url)
  }

  /** The nonce collision is retried once, and the call ends normally after two sends. */
  lemma NonceRun(req: Request)
    ensures Run(NonceEnv(), req, DefaultMaxRetryAttempts, 0, None) == End(Normal, 1, Some(Created), 2)
  {
    var env := NonceEnv();
    assert env.transport(req, 0) == Received(Collision) && env.transport(req, 1) == Received(Created);
    assert env.decode(Collision.content) == Parsed("nonce") && env.view("nonce").code == Some(NonceAlreadyUsed);
    var err := StatusError(env, req, Collision, "nonce");
    assert err.code == NonceRetryCode && env.handle(err.code) == Retry;
    assert Pass(env, req, Received(Collision), 0, DefaultMaxRetryAttempts) == Retried;
    assert Pass(env, req, Received(Created), 1, DefaultMaxRetryAttempts) == Succeeded;
    RunUnfold(env, req, DefaultMaxRetryAttempts, 1, Some(Collision));
    RunUnfold(env, req, DefaultMaxRetryAttempts, 0, None);
  }

  /** A client for `Site` with OAuth1 credentials, after `init`: its endpoint is the REST API base URL. */
  method NewOAuth1Client() returns (c: Client)
    ensures fresh(c) && c.client.Some? && c.client.value.OAuth1? && c.endpoint == Site + RestApiSlug
    ensures c.response == None && c.maxRetryAttempts == DefaultMaxRetryAttempts
  {
    var token := map["oauth_token" := "t", "oauth_token_secret" := "s"];
    assert "oauth_token" in token;
    assert !IsEmpty("key") && !IsEmpty(Site) && !UsesBasicAuth("key", "secret", token);
    c := new Client(Site, "key", "secret", token, "", "", DefaultMaxRetryAttempts);
    var ok := c.Init();
    assert ok == Success(());
  }

  /**
   * An OAuth1 client whose first send hits a nonce collision: with code 432
   * handled as RETRY, the same request is sent again and the second answer
   * completes the call after one retry.
   */
  method NonceCollisionRetried() {
    var c := NewOAuth1Client();
    var env := NonceEnv();
    var done, sends := c.SendData(Post, "posts", "view", map["title" := Str("Hello")], env, (s: string) => s);
    assert c.request.value.via.OAuth1? && c.request.value.verb == Post;
    assert c.maxRetryAttempts == DefaultMaxRetryAttempts;
    NonceRun(c.request.value);
    ghost var e := Run(env, c.request.value, DefaultMaxRetryAttempts, 0, None);
    assert e == End(Normal, 1, Some(Created), 2);
    assert done == Normal && c.retries == 1 && sends == 2 && c.response == Some(Created);
  }
}
