/**
 * The retry loop of `executeRequest` as a specification: one pass sends the
 * stored request and decides whether the call succeeds, is retried or
 * throws; `Run` chains passes from a given retry count until one of them
 * does not retry. The class method that runs the loop in place is proved
 * against `Run` (see module WordpressClient).
 */
module Executor {
  import opened Wrappers
  import opened PhpText
  import opened Taxonomy
  import opened Http

  /** Result of JSON-decoding a response body: a value, or the decoder's error message. */
  datatype Decoded<J> = Parsed(value: J) | Malformed(reason: string)

  /**
   * What the loop takes from outside: `transport(r, n)` is the outcome of
   * sending `r` when `n` sends of the same call came before it; `decode` is
   * the JSON decoder (object form) and `view` the fields the error handling
   * reads from its result; `isOk` is the response's OK test on the status;
   * `handle` gives the handling constant of an exception with a given code;
   * `fullUrl` is the request's absolute URL.
   */
  datatype Env<!J> = Env(
    transport: (Request, nat) -> Outcome,
    decode: string -> Decoded<J>,
    view: J -> Body,
    isOk: int -> bool,
    handle: int -> HandleCode,
    fullUrl: Request -> string)

  /** How one pass of the loop ends. */
  datatype Step = Succeeded | Retried | Failed(error: ApiError)

  /** How a whole call ends: it returns normally, or it throws. */
  datatype Completion = Normal | Thrown(error: ApiError)

  /** A finished call: how it ended, the final retry count, the last stored response and the number of sends. */
  datatype End = End(completion: Completion, retries: nat, response: Option<Response>, sends: nat)

  /** The exception for a transport failure that is not retried; it quotes the current retry count. */
  function TransportFailure(code: int, message: string, retries: nat): (e: ApiError)
    ensures e.code == code
    ensures var prefix := "HttpClient error (retried " + NatToString(retries) + "): ";
            |e.message| == |prefix| + |message| && e.message[..|prefix|] == prefix && e.message[|prefix|..] == message
  {
    ApiError(code, "HttpClient error (retried " + NatToString(retries) + "): " + message)
  }

  /** The exception for a body that is not valid JSON: code 512, with the raw content at the end of the message. */
  function IllegalResponse(reason: string, content: string): (e: ApiError)
    ensures e.code == IllegalResponseCode
    ensures |e.message| >= |content| && e.message[|e.message| - |content|..] == content
  {
    ApiError(IllegalResponseCode, "Invalid JSON data returned (" + reason + "): " + content)
  }

  /** The exception for a decoded response that is not OK. */
  function StatusError<J>(env: Env<J>, req: Request, resp: Response, body: J): ApiError {
    Classify(resp.statusCode, resp.content, env.view(body), env.fullUrl(req), req.verb.Name())
  }

  /** A retry is only ever granted while the retry count is below the maximum. */
  predicate MayRetry(retries: nat, max: int) {
    retries < max
  }

  /**
   * One pass of the loop with `retries` retries so far: a retryable transport
   * code or an exception whose handling constant is RETRY is retried while
   * retries remain; an undecodable body throws 512 whatever its status; an OK
   * response succeeds.
   */
  function Pass<J>(env: Env<J>, req: Request, outcome: Outcome, retries: nat, max: int): (s: Step)
    ensures s.Retried? ==> retries < max
    ensures s.Succeeded? <==> outcome.Received? && env.isOk(outcome.response.statusCode)
                               && env.decode(outcome.response.content).Parsed?
  {
    match outcome
    case TransportError(code, message) =>
      if RetryableTransport(code) && MayRetry(retries, max) then Retried
      else Failed(TransportFailure(code, message, retries))
    case Received(resp) =>
      match env.decode(resp.content)
      case Malformed(reason) => Failed(IllegalResponse(reason, resp.content))
      case Parsed(body) =>
        if env.isOk(resp.statusCode) then Succeeded
        else
          var e := StatusError(env, req, resp, body);
          if env.handle(e.code) == Retry && MayRetry(retries, max) then Retried else Failed(e)
  }

  /** The response stored after a send: the received one, or the previous one when the transport failed. */
  function Stored(outcome: Outcome, last: Option<Response>): Option<Response> {
    if outcome.Received? then Some(outcome.response) else last
  }

  /**
   * The rest of a call from retry count `retries`, with `last` the response
   * stored so far: one send per pass, and the retry count only grows.
   */
  function Run<J>(env: Env<J>, req: Request, max: int, retries: nat, last: Option<Response>): (e: End)
    ensures e.retries >= retries && e.sends == e.retries - retries + 1
    decreases if retries < max then max - retries else 0
  {
    var outcome := env.transport(req, retries);
    var stored := Stored(outcome, last);
    match Pass(env, req, outcome, retries, max)
    case Succeeded => End(Normal, retries, stored, 1)
    case Failed(e) => End(Thrown(e), retries, stored, 1)
    case Retried =>
      var rest := Run(env, req, max, retries + 1, stored);
      rest.(sends := rest.sends + 1)
  }

  /** One unfolding of `Run`: a retried pass continues from the next retry count, any other pass ends the call. */
  lemma RunUnfold<J>(env: Env<J>, req: Request, max: int, retries: nat, last: Option<Response>)
    ensures var outcome := env.transport(req, retries);
            var e := Run(env, req, max, retries, last);
            match Pass(env, req, outcome, retries, max)
            case Retried =>
              var rest := Run(env, req, max, retries + 1, Stored(outcome, last));
              e == rest.(sends := rest.sends + 1)
            case Succeeded => e == End(Normal, retries, Stored(outcome, last), 1)
            case Failed(err) => e == End(Thrown(err), retries, Stored(outcome, last), 1)
  {
  }

  /**
   * The loop's bookkeeping: `whole` is the call from a reset count, and the
   * `retries` passes so far, all retried, plus the rest of the call from
   * `retries` with `last` stored make it up.
   */
  ghost predicate Resumes<J>(env: Env<J>, req: Request, max: int, retries: nat, last: Option<Response>, whole: End) {
    var cur := Run(env, req, max, retries, last);
    cur.(sends := cur.sends + retries) == whole
  }

  /** The next pass, `step`, either keeps the bookkeeping for the next retry or ends the call with `retries + 1` sends. */
  lemma RunStep<J>(env: Env<J>, req: Request, max: int, retries: nat, last: Option<Response>, whole: End, step: Step)
    requires Resumes(env, req, max, retries, last, whole)
    requires step == Pass(env, req, env.transport(req, retries), retries, max)
    ensures step.Retried? ==> Resumes(env, req, max, retries + 1, Stored(env.transport(req, retries), last), whole)
    ensures step.Succeeded? ==> whole == End(Normal, retries, Stored(env.transport(req, retries), last), retries + 1)
    ensures step.Failed? ==> whole == End(Thrown(step.error), retries, Stored(env.transport(req, retries), last), retries + 1)
  {
    RunUnfold(env, req, max, retries, last);
  }

  /**
   * The shape of every call (its send count is in `Run`'s contract): the
   * retry count never passes the maximum unless it already started there,
   * and every pass before the last was retried.
   */
  lemma {:induction false} RunShape<J>(env: Env<J>, req: Request, max: int, retries: nat, last: Option<Response>)
    ensures var e := Run(env, req, max, retries, last);
            && (e.retries <= max || e.retries == retries)
            && (forall k :: retries <= k < e.retries ==> Pass(env, req, env.transport(req, k), k, max) == Retried)
    decreases if retries < max then max - retries else 0
  {
    var outcome := env.transport(req, retries);
    if Pass(env, req, outcome, retries, max) == Retried {
      RunShape(env, req, max, retries + 1, Stored(outcome, last));
    }
  }

  /**
   * The last pass of every call decides its completion, and the response
   * that pass received, if any, is the one left stored.
   */
  lemma {:induction false} RunLastPass<J>(env: Env<J>, req: Request, max: int, retries: nat, last: Option<Response>)
    ensures var e := Run(env, req, max, retries, last);
            var final := Pass(env, req, env.transport(req, e.retries), e.retries, max);
            && (e.completion == Normal <==> final == Succeeded)
            && (forall err :: e.completion == Thrown(err) <==> final == Failed(err))
            && (env.transport(req, e.retries).Received? ==> e.response == Some(env.transport(req, e.retries).response))
    decreases if retries < max then max - retries else 0
  {
    var outcome := env.transport(req, retries);
    if Pass(env, req, outcome, retries, max) == Retried {
      RunLastPass(env, req, max, retries + 1, Stored(outcome, last));
    }
  }

  /** A call performs at most `max + 1` sends, and exactly one when no retry is allowed. */
  lemma SendBound<J>(env: Env<J>, req: Request, max: int, last: Option<Response>)
    ensures var e := Run(env, req, max, 0, last);
            1 <= e.sends && e.sends == e.retries + 1
            && (max >= 0 ==> e.sends <= max + 1 && e.retries <= max)
            && (max <= 0 ==> e.sends == 1 && e.retries == 0)
  {
    RunShape(env, req, max, 0, last);
  }

  /** A normal return always rests on an OK response whose body decoded. */
  lemma NormalMeansOk<J>(env: Env<J>, req: Request, max: int, last: Option<Response>)
    ensures var e := Run(env, req, max, 0, last);
            e.completion == Normal ==>
              e.response.Some? && env.isOk(e.response.value.statusCode)
              && env.decode(e.response.value.content).Parsed?
  {
    RunLastPass(env, req, max, 0, last);
  }

  /**
   * A transport that keeps failing with one retryable code is sent to
   * `max + 1` times, and the call throws that code, quoting `max` retries.
   */
  lemma {:induction false} AlwaysTransportFailure<J>(env: Env<J>, req: Request, max: nat, retries: nat, last: Option<Response>, code: int, message: string)
    requires RetryableTransport(code)
    requires retries <= max
    requires forall n :: env.transport(req, n) == TransportError(code, message)
    ensures Run(env, req, max, retries, last)
            == End(Thrown(TransportFailure(code, message, max)), max, last, max - retries + 1)
    decreases max - retries
  {
    if retries < max {
      AlwaysTransportFailure(env, req, max, retries + 1, last, code, message);
    }
  }

  /**
   * Both branches of the transport rule: a failure whose code is on the
   * allow-list is sent again while retries remain; any other transport
   * failure is rethrown with its own code, quoting the current retry count.
   */
  lemma TransportRetryRule<J>(env: Env<J>, req: Request, max: int, retries: nat, last: Option<Response>, code: int, message: string)
    requires env.transport(req, retries) == TransportError(code, message)
    ensures var e := Run(env, req, max, retries, last);
            if RetryableTransport(code) && retries < max then
              var rest := Run(env, req, max, retries + 1, last);
              e == rest.(sends := rest.sends + 1)
            else
              e == End(Thrown(TransportFailure(code, message, retries)), retries, last, 1)
  {
  }

  /** A transport code outside the allow-list is never retried: the first such failure throws with that code. */
  lemma FatalTransportFailure<J>(env: Env<J>, req: Request, max: int, retries: nat, last: Option<Response>, code: int, message: string)
    requires env.transport(req, retries) == TransportError(code, message)
    requires !RetryableTransport(code)
    ensures Run(env, req, max, retries, last) == End(Thrown(TransportFailure(code, message, retries)), retries, last, 1)
  {
  }

  /** A body that does not decode ends the call with 512 on that very send, whatever the status and retries left. */
  lemma MalformedNeverRetried<J>(env: Env<J>, req: Request, max: int, retries: nat, last: Option<Response>, resp: Response)
    requires env.transport(req, retries) == Received(resp)
    requires env.decode(resp.content).Malformed?
    ensures Run(env, req, max, retries, last)
            == End(Thrown(IllegalResponse(env.decode(resp.content).reason, resp.content)), retries, Some(resp), 1)
  {
  }

  /** A decoded OK response sets `request_success` and ends the call normally on that send, storing the response. */
  lemma OkResponseEndsCall<J>(env: Env<J>, req: Request, max: int, retries: nat, last: Option<Response>, resp: Response)
    requires env.transport(req, retries) == Received(resp)
    requires env.decode(resp.content).Parsed? && env.isOk(resp.statusCode)
    ensures Run(env, req, max, retries, last) == End(Normal, retries, Some(resp), 1)
  {
  }

  /**
   * A decoded response that is not OK throws its classified exception
   * unchanged unless its handling constant is RETRY and retries remain, in
   * which case the same request is sent again.
   */
  lemma StatusRetryRule<J>(env: Env<J>, req: Request, max: int, retries: nat, last: Option<Response>, resp: Response)
    requires env.transport(req, retries) == Received(resp)
    requires env.decode(resp.content).Parsed? && !env.isOk(resp.statusCode)
    ensures var err := StatusError(env, req, resp, env.decode(resp.content).value);
            var e := Run(env, req, max, retries, last);
            if env.handle(err.code) == Retry && retries < max then
              var rest := Run(env, req, max, retries + 1, Some(resp));
              e == rest.(sends := rest.sends + 1)
            else
              e == End(Thrown(err), retries, Some(resp), 1)
  {
  }

  /** When no exception code is handled as RETRY and no transport code is retryable, the request is sent once. */
  lemma NoRetryHandleSendsOnce<J>(env: Env<J>, req: Request, max: int, last: Option<Response>)
    requires forall code :: env.handle(code) != Retry
    requires forall n :: !(env.transport(req, n).TransportError? && RetryableTransport(env.transport(req, n).code))
    ensures Run(env, req, max, 0, last).sends == 1
  {
    RunShape(env, req, max, 0, last);
  }
}
