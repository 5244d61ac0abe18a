# WordPress REST API client — Dafny model

This project models the request engine of a PHP client for the WordPress REST
API (`Client.php`). The client object is configured with an endpoint and
either OAuth1 credentials or a username and password. It builds a GET, PUT,
PATCH, POST or DELETE request (or a file upload) for an entity URL and sends
it. Each failed exchange becomes a numbered exception. Some of them are
retried, up to `max_retry_attempts` times. After a successful call the paging
headers are copied into result fields.

Modules, one file each:

- `Wrappers` (`wrappers.dfy`): `Option` and `Result`.
- `PhpText` (`php_text.dfy`): the PHP string builtins the client uses.
  `str_replace` with an empty replacement is `RemoveAll`. Integer-to-text is
  `NatToString` and `IntToString`. `implode` is `Join`, and there is ASCII
  lower-casing.
- `Taxonomy` (`taxonomy.dfy`): the handling constants of the exception class,
  the status `switch` (`Classify`) and the transport retry allow-list.
- `Http` (`http.dfy`): requests, responses, transport outcomes and the
  authenticating client (`Auth`).
- `Executor` (`executor.dfy`): the retry loop as a specification. `Pass` is
  one trip round the loop. `Run` chains passes until one does not retry, and
  counts the sends. The lemmas state its bound and its retry rules.
- `WordpressClient` (`client.dfy`): the class `Client`. It holds the same
  fields as the PHP object. It has `Init`, the request builders, the
  accessors, and `ExecuteRequest`, which runs the do-while loop in place and
  is proved against `Run`. The loop body is split into `Attempt` (one send
  and its decision) and `Round` (the retry bookkeeping around it).
  `StorePaging` copies the paging headers. Every call returns a ghost count
  of its sends. `Configure`, `ListQuery`, `WithContext`,
  `DeleteUrl` and `StripEndpoint` are the pure parts of `init` and of the
  builders.
- `Scenarios` (`scenarios.dfy`): what a caller can conclude from the class
  contracts for three calls. They are a paged listing, a delete refused with
  404, and an OAuth1 nonce collision that is retried once.

Everything outside the client is a parameter. `Env` bundles these:
- the transport: `transport(r, n)` is the outcome of sending `r` after `n`
  earlier sends in the same call;
- the JSON decoder (`Parsed` or `Malformed` with the decoder's message) and
  the fields the error handling reads from a decoded body;
- the response's OK test on the status;
- the mapping from an exception code to its handling constant;
- the request's full URL.

Base64 encoding is a parameter of the builders.

Behaviour of the code that is easy to misread, and that the model follows:
- The same request object is sent again on every retry (`Client.php:445`). It
  is not rebuilt.
- A body that is not valid JSON throws 512 for every status, error statuses
  included, because decoding comes before the OK test (`Client.php:448`,
  `580-584`). An undecodable body is never classified by its status.
- URL stripping deletes every occurrence of `endpoint.'/'`, not only a
  leading one, and it is not idempotent (`PhpText.RemoveAllNotIdempotent`).
- OAuth1 is chosen whenever an access token and at least one of key and
  secret are set (`WordpressClient.OAuth1WithOnlyKey`). It does not need
  "all three present". This follows from PHP precedence in
  `(empty(key) && empty(secret)) || empty(token)`.
- Only the numeric code decides retries, through the handling constant of the
  exception. The code does not sort statuses into kinds such as not-found or
  rate-limited. Which codes are handled as RETRY is not in the code, so
  `Env.handle` is left uninterpreted.
- A transport failure that is not retried is rethrown with the transport's
  own code and the message `HttpClient error (retried N): …`.

## Model

| member | source | states |
|---|---|---|
| `PhpText.RemoveAll` | Client.php:175 | `str_replace` with an empty replacement never lengthens the text |
| `PhpText.RemoveAllNoOccurrence` | Client.php:175 | `str_replace` returns a text without any occurrence of the search string unchanged |
| `PhpText.RemoveAllShrinks` | Client.php:175 | a text containing the search string gets strictly shorter |
| `PhpText.RemoveAllUnchangedIff` | Client.php:175 | both directions: the text is unchanged exactly when the search string does not occur in it |
| `PhpText.RemoveAllLeading` | Client.php:175 | a leading occurrence is deleted and the rest is processed on its own |
| `PhpText.RemoveAllNotIdempotent` | Client.php:175 | removing every occurrence once can expose a new one: "aa//" minus "a/" is "a/", and a second pass gives "" |
| `PhpText.NatToString` | Client.php:597 | the retry count quoted in a transport error is non-empty decimal digits with no leading zero |
| `PhpText.IntToStringRoundTrip` | Client.php:561 | the status quoted in "Status code N returned." reads back as the same integer |
| `Taxonomy.HandleCode.Ordinal` | Exception.php:15-18 | the handling constants are FAIL = 0, RETRY = 1, WAIT_RETRY = 2, ITEM_EXISTS = 3 |
| `Taxonomy.RetryableTransport` | Client.php:589 | membership in the allow-list `TransportRetryCodes` = {2, 7, 28, 55, 56}; its contract states only that such a code lies between 2 and 56, and the retry rule itself is `Executor.TransportRetryRule` |
| `Taxonomy.ErrorData` | Client.php:455-456 | the error data ends with the request's full URL, and is just " URL: " and the URL when the body has no `code` |
| `Taxonomy.Classify` | Client.php:455-564 | the thrown code is the status, except 401 with body code `json_oauth1_nonce_already_used` gives 432 and 500 with `term_exists` gives 433; the 433 message is the body's `message`, or else 'Internal server error.' |
| `Taxonomy.ClassifyCodeDiffersIff` | Client.php:459-564 | both directions: the code differs from the status exactly for those two body codes |
| `Taxonomy.ClassifyUnauthorized` | Client.php:477-495 | a 401 gives 432 exactly on a nonce collision and 401 otherwise; the 432 message is the body message (or raw content) plus the error data |
| `Taxonomy.ClassifyOtherStatus` | Client.php:560-563 | any status outside the switch keeps its code, with message "Status code N returned." plus the error data |
| `Http.HeaderValue` | Client.php:607-609 | a header reads as its value when present and as null when absent |
| `Executor.Pass` | Client.php:445-601 | a pass is retried only while `retries < max_retry_attempts`; both directions: it succeeds exactly on a received OK response whose body decoded |
| `Executor.TransportFailure` | Client.php:596-599 | a transport failure is rethrown with the transport's own code and the message `HttpClient error (retried N): ` followed by the transport's message |
| `Executor.IllegalResponse` | Client.php:583-584 | an undecodable body throws 512, and the message ends with the raw content |
| `Executor.Run` | Client.php:442-604 | a call that starts at retry count `retries` and ends at count `e.retries` made `e.retries - retries + 1` sends; the count never goes down |
| `Executor.RunShape` | Client.php:440-604 | the count passes the maximum only if it started above it, and every pass before the last was retried |
| `Executor.RunLastPass` | Client.php:440-604 | the last pass decides the outcome (normal exactly when it succeeded, thrown with an error exactly when it failed with that error), and its response is the one stored |
| `Executor.SendBound` | Client.php:440-604 | from a reset count there are at most `max_retry_attempts + 1` sends and the count ends at most at the maximum; exactly one send when the maximum is 0 or less |
| `Executor.NormalMeansOk` | Client.php:448-566 | a normal return rests on a stored OK response whose body decoded |
| `Executor.AlwaysTransportFailure` | Client.php:586-600 | a transport that always fails with one retryable code is sent to `max + 1` times; the call then throws that code, quoting `max` retries |
| `Executor.TransportRetryRule` | Client.php:586-600 | both directions: a transport failure is retried, at the next retry count with one more send, exactly when its code is on the allow-list and retries remain; otherwise it throws on that send with its own code and the current retry count |
| `Executor.FatalTransportFailure` | Client.php:589-600 | a transport code outside the allow-list throws on that send with the same code and the current retry count |
| `Executor.MalformedNeverRetried` | Client.php:448-584 | an undecodable body throws 512 on that send whatever its status and the retries left |
| `Executor.OkResponseEndsCall` | Client.php:448-566 | a decoded OK response sets `request_success` and ends the call normally on that send, with that response stored |
| `Executor.StatusRetryRule` | Client.php:566-577 | a non-OK decoded response is sent again only when its code is handled as RETRY and retries remain; otherwise its exception is rethrown unchanged |
| `Executor.NoRetryHandleSendsOnce` | Client.php:570-592 | with no code handled as RETRY and no retryable transport failure, the request is sent once |
| `WordpressClient.OAuth1Client` | OAuth1.php:83 | the OAuth1 client's API base URL is the site URL followed by `/wp-json` |
| `WordpressClient.Configure` | Client.php:102-138 | an empty endpoint is rejected first; basic auth is chosen exactly when key and secret are both empty or the token is empty, and then needs username and password, else it is rejected; otherwise OAuth1, with the endpoint becoming its API base URL |
| `WordpressClient.UsesBasicAuth` | Client.php:107 | under PHP precedence, basic auth is not chosen exactly when a token is set and key or secret is set |
| `WordpressClient.OAuth1ChosenIff` | Client.php:107 | both directions: OAuth1 is chosen exactly when endpoint and token are set and key or secret is set |
| `WordpressClient.OAuth1WithOnlyKey` | Client.php:107 | a key with an empty secret and a token still selects OAuth1 |
| `WordpressClient.StripEndpoint` | Client.php:175 | stripping the endpoint never lengthens an entity URL |
| `WordpressClient.StripEndpointProperties` | Client.php:175 | an entity URL is unchanged exactly when it does not contain `endpoint.'/'`; a full URL strips like its relative form |
| `WordpressClient.StripShortUrl` | Client.php:175 | a URL shorter than the endpoint is used as given |
| `WordpressClient.ListQuery` | Client.php:164-170 | the query keeps the caller's keys, sets `context` and `per_page`, and sets `page` only when a page number is given |
| `WordpressClient.WithContext` | Client.php:201-202 | update data keeps the caller's keys and sets `context` |
| `WordpressClient.DeleteUrl` | Client.php:300-302 | the delete URL is the stripped URL, followed by `?force=true` exactly when `force` |
| `WordpressClient.BasicAuthorization` | Client.php:419 | the header value is `Basic ` followed by the base64 text of `username:password` |
| `WordpressClient.PagingHeaderKeys` | Client.php:607-609 | the keys read are the lower-cased names `X-WP-Total`, `X-WP-TotalPages` and `allow` |
| `WordpressClient.Client.constructor` | Client.php:31-95 | the configured properties, with retries 0 and no request, response, client or paging results |
| `WordpressClient.Client.Init` | Client.php:102-138 | the new client and endpoint are those `Configure` decides; a rejected configuration changes nothing |
| `WordpressClient.Client.AuthenticatedRequest` | Client.php:407-430 | an OAuth1 client gives a request without headers (signed when sent); a basic client gives one header, `Authorization: Basic base64(username:password)` |
| `WordpressClient.Client.Attempt` | Client.php:445-601 | one send and its decision are `Pass` on the transport's outcome at the current retry count; a received response is stored, and a transport failure keeps the previous one |
| `WordpressClient.Client.Round` | Client.php:442-601 | a retried pass adds one to the retry count and keeps the loop resumable as `Run`; a pass that succeeds or throws ends the call as `Run` says |
| `WordpressClient.Client.StorePaging` | Client.php:606-609 | the three paging fields are the final response's `X-WP-Total`, `X-WP-TotalPages` and `allow` headers, or null when absent |
| `WordpressClient.Client.ExecuteRequest` | Client.php:438-610 | the completion, retry count, stored response and number of sends are those of `Run` from retry count 0 with the same request; on success the three paging fields are read from the final response's headers; on a throw they keep their previous values |
| `WordpressClient.Client.GetData` | Client.php:157-182 | stores a GET on the stripped URL with the list query, then behaves as `ExecuteRequest` |
| `WordpressClient.Client.SendData` | Client.php:196-280 | stores a PUT, PATCH or POST on the stripped URL with the data and `context`, then behaves as `ExecuteRequest` |
| `WordpressClient.Client.DeleteData` | Client.php:293-309 | stores a DELETE on the delete URL, then behaves as `ExecuteRequest` |
| `WordpressClient.Client.UploadFile` | Client.php:324-344 | stores a POST whose content is the file, with content-disposition and content-type headers added, then behaves as `ExecuteRequest` |
| `WordpressClient.Client.Decode` | Client.php:354-374 | `asArray`/`asObject`: nothing when no response is stored, else the decoded stored body or the decoding error |
| `WordpressClient.Client.ObjectAfterNormalCall` | Client.php:368-374 | after a call that returned normally, `asObject` with the call's own decoder gives the decoded stored body, never an error |
| `WordpressClient.Client.AsRaw` | Client.php:381-387 | the stored body exactly when a response is stored |
| `WordpressClient.Client.LastRequestContent` | Client.php:394-400 | the stored request's raw content when it has one |
| `Http.Method.Name` | Client.php:174 | its contract states the case only: every verb name passed to `setMethod` is lower case (the names themselves are in its body) |
| `Scenarios.PageTwoRun` | Client.php:442-604 | a server answering 200 with paging headers ends the call normally after one send, with no retry |
| `Scenarios.MissingRun` | Client.php:442-604 | a server answering 404 makes the call throw 404 after one send, with no retry |
| `Scenarios.NonceRun` | Client.php:477-495 | a nonce collision handled as RETRY is retried once, and the call ends normally after two sends |
| `Scenarios.FullAndRelativeUrl` | Client.php:175 | a full entity URL and its relative form lead to the same request URL |

## Left out

- HTTP transport (`send()`), TLS and redirects are I/O. They become `Env.transport`, an oracle indexed by the number of earlier sends in the call.
- The response's OK test and the library's case-insensitive header collection are not shown. `isOk` is an abstract predicate on the status. Response headers are a map keyed by lower-cased names, holding one value each. The request's one header keeps its name as written, `Authorization`.
- JSON decoding is foreign code. `Env.decode` is an abstract partial decoder, and `Env.view` gives the `code`, `message`, `data.params` and (rendered) `data` fields. The 500 branch decodes again in array form through `asArray()`. The model reads the same fields, because both forms decode the same input.
- The body's `code` is compared as a string. PHP's loose `==` on non-string JSON values is not modelled.
- Base64 is a PHP builtin, left as a parameter of the builders.
- OAuth1 signing and the token exchange live in an unseen library. The OAuth1 class sets the URLs that exchange uses (`oauth1/authorize`, `oauth1/request` and `oauth1/access` after the site URL, OAuth1.php:39-80), but they are not modelled, because no request the client sends uses them. Only the API base URL (`/wp-json` suffix) is modelled.
- `getHandleCode()` and `HANDLE_AS_RETRY` do not exist in the exception class, which declares only four constants. The code-to-handle mapping is the uninterpreted `Env.handle`, and a retry needs handle RETRY. The exception's `getName()` text is left out.
- PHP `null` and `''` are one value here for endpoint, key, secret, username and password, because `empty()` and `.` treat them alike. A null access token is the empty map.
- Arrays are maps, so the key order of request data is lost. Caller data holds strings, integers and booleans only.
- `putData`, `patchData` and `postData` are one method, `SendData`, with the verb as a parameter. Their default `context` arguments ('edit', 'edit', 'view') are left to the caller.
- Default arguments of `getData` (`context = 'view'`, `page_number = null`, `page_length = 10`, `request_data = []`; Client.php:159-162) and of `deleteData` (`force = true`; Client.php:295, so a bare call force-deletes) are left to the caller too: Dafny methods take every argument.
- `getLastRequestContent` sees only content set explicitly (file uploads). The library's formatting of request data into content at send time is not modelled.
- A response whose content is null is not told apart from an empty body.
- Errors that are not the client's exception are out of scope. PHP fatal errors (calling the undefined `getHandleCode`) and request-level failures of `createApiRequest` are examples.
- There is no concurrency, sleeping or backoff in the code, and none is modelled.
- Taxonomy.Classify: its contract states the codes and the 433 message only. The other message texts are written out in its body, not in its contract.
