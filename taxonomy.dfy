/**
 * How the client turns a failed exchange into the numbered exception it throws:
 * the handling constants of the client's exception class, the `switch` over
 * HTTP status codes, and the transport error codes that may be retried.
 */
module Taxonomy {
  import opened Wrappers
  import opened PhpText

  /** The handling constants FAIL, RETRY, WAIT_RETRY and ITEM_EXISTS of the exception class. */
  datatype HandleCode = Fail | Retry | WaitRetry | ItemExists {
    function Ordinal(): (n: nat)
      ensures n < 4
      ensures this == Fail <==> n == 0
      ensures this == Retry <==> n == 1
      ensures this == WaitRetry <==> n == 2
    {
      match this
      case Fail => 0
      case Retry => 1
      case WaitRetry => 2
      case ItemExists => 3
    }
  }

  /** The client's exception: a message and a numeric code (an HTTP status, a remapped status or a transport code). */
  datatype ApiError = ApiError(code: int, message: string)

  /**
   * The fields of a decoded error body that the client reads, each present
   * only when set: `code`, `message`, the list `data.params` (empty when
   * absent) and a rendering of `data`.
   */
  datatype Body = Body(code: Option<string>, message: Option<string>, params: seq<string>, data: Option<string>)

  const NonceAlreadyUsed: string := "json_oauth1_nonce_already_used"
  const TermExists: string := "term_exists"

  /** Unassigned status codes the client uses for its own error types. */
  const NonceRetryCode: int := 432
  const ItemExistsCode: int := 433
  const IllegalResponseCode: int := 512

  /** Transport error codes that may be retried: 2, 7, 28, 55 and 56. */
  const TransportRetryCodes: set<int> := {2, 7, 28, 55, 56}

  /** A transport failure may be retried exactly when its code is on the allow-list. */
  function RetryableTransport(code: int): (r: bool)
    ensures r ==> 2 <= code <= 56
  {
    code in TransportRetryCodes
  }

  /** Suffix appended to most status messages: the body's `code` when set, then the request URL. */
  function ErrorData(body: Body, fullUrl: string): (r: string)
    ensures |r| >= |fullUrl| && r[|r| - |fullUrl|..] == fullUrl
    ensures body.code.None? ==> r == " URL: " + fullUrl
  {
    (if body.code.Some? then " Code: " + body.code.value + " " else "") + " URL: " + fullUrl
  }

  /**
   * The exception thrown for a response that is not OK, from its status, its
   * raw content, the decoded body's fields, the full request URL and the
   * request's method name. The code is the status itself except for an OAuth1
   * nonce collision (401, remapped to 432, which can be retried) and an
   * existing term (500, remapped to 433).
   */
  function Classify(status: int, content: string, body: Body, fullUrl: string, methodName: string): (e: ApiError)
    ensures e.code == status
            || (status == 401 && body.code == Some(NonceAlreadyUsed) && e.code == NonceRetryCode)
            || (status == 500 && body.code == Some(TermExists) && e.code == ItemExistsCode)
    ensures status == 401 && body.code == Some(NonceAlreadyUsed) ==> e.code == NonceRetryCode
    ensures status == 500 && body.code == Some(TermExists)
            ==> e == ApiError(ItemExistsCode, body.message.GetOr("Internal server error."))
  {
    var errorData := ErrorData(body, fullUrl);
    match status
    case 304 => ApiError(status, "Not Modified.")
    case 400 =>
      ApiError(status, "Bad Request " + body.message.GetOr("unknown") + " Params: " + Join(body.params, " | ") + errorData)
    case 401 =>
      if body.code == Some(NonceAlreadyUsed) then
        ApiError(NonceRetryCode, body.message.GetOr(content) + errorData)
      else
        ApiError(status, "Unauthorized: " + body.message.GetOr(content) + errorData)
    case 403 => ApiError(status, "Forbidden: request not allowed." + errorData)
    case 404 => ApiError(status, "Not found: URL does not exist." + errorData)
    case 405 => ApiError(status, "Method Not Allowed: incorrect HTTP method " + methodName + " provided." + errorData)
    case 410 => ApiError(status, "Gone: URL has moved." + errorData)
    case 415 => ApiError(status, "Unsupported Media Type (incorrect HTTP method " + methodName + " provided)." + errorData)
    case 429 => ApiError(status, "Too many requests: client is rate limited." + errorData)
    case 500 =>
      if body.code == Some(TermExists) then
        ApiError(ItemExistsCode, body.message.GetOr("Internal server error."))
      else
        ApiError(status, "Internal server error: "
                         + (if body.code.Some? then body.code.value + " => " else content)
                         + body.message.GetOr("")
                         + (if body.data.Some? then " (" + body.data.value + ")" else ""))
    case 501 => ApiError(status, "Not Implemented." + errorData)
    case 502 => ApiError(status, "Bad Gateway: server has an issue." + errorData)
    case _ => ApiError(status, "Status code " + IntToString(status) + " returned." + errorData)
  }

  /**
   * Both directions of the remapping: the thrown code differs from the status
   * exactly for a 401 nonce collision and a 500 existing term.
   */
  lemma ClassifyCodeDiffersIff(status: int, content: string, body: Body, fullUrl: string, methodName: string)
    ensures Classify(status, content, body, fullUrl, methodName).code != status
            <==> (status == 401 && body.code == Some(NonceAlreadyUsed))
                 || (status == 500 && body.code == Some(TermExists))
  {
  }

  /** A 401 or 500 without the special body code keeps its status; a nonce collision is the only way to get 432 from 401. */
  lemma ClassifyUnauthorized(content: string, body: Body, fullUrl: string, methodName: string)
    ensures var e := Classify(401, content, body, fullUrl, methodName);
            (e.code == NonceRetryCode <==> body.code == Some(NonceAlreadyUsed))
            && (e.code == 401 <==> body.code != Some(NonceAlreadyUsed))
            && (e.code == NonceRetryCode ==> e.message == body.message.GetOr(content) + ErrorData(body, fullUrl))
  {
  }

  /** A failed request with a status outside the switch keeps its status, quoted, followed by the body's `code` (when set) and the URL. */
  lemma ClassifyOtherStatus(status: int, content: string, body: Body, fullUrl: string, methodName: string)
    requires status !in {304, 400, 401, 403, 404, 405, 410, 415, 429, 500, 501, 502}
    ensures var e := Classify(status, content, body, fullUrl, methodName);
            e.code == status
            && e.message == "Status code " + IntToString(status) + " returned." + ErrorData(body, fullUrl)
  {
  }
}
