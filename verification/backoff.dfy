/**
 The retry/backoff controller: how a transport outcome is classified (the
 error switch of Region.prototype._sendRequest) and how a retried item's
 delay evolves (Region.prototype._retryRequest).
 */
module Backoff {
  import opened Js

  /** The response headers the scheduler reads. */
  datatype Headers = Headers(retryAfter: Option<string>, methodLimit: Option<string>)

  /** What the transport reports for one request: a 2xx response, an error
      response with its status, or a failure without any response. */
  datatype Response =
    | Success(headers: Headers, body: string)
    | StatusError(status: int, headers: Headers, message: string)
    | NoResponse(message: string)

  /** What reaches the caller's failure continuation. Only the first argument of
      `onError` is passed on to the caller, so the exhausted-retries cases deliver
      just their message. */
  datatype Failure = Message(text: string) | StatusFailure(status: Option<int>, msg: string)

  /** What to do with an item after its request has completed. */
  datatype Decision =
    | Resolve(body: Option<string>)
    | Retry(escalate: bool, explicitMS: Option<Num>)
    | Reject(failure: Failure)

  /** The headers a response carries, if it has one. */
  function ResponseHeaders(r: Response): Option<Headers> {
    match r
    case Success(h, _) => Some(h)
    case StatusError(_, h, _) => Some(h)
    case NoResponse(_) => None
  }

  /** `retry-after` in milliseconds when the header is present: `parseInt(h) * 1000`. */
  function RetryAfterMS(h: Headers): Option<Num> {
    if h.retryAfter.Some? then Some(Times(ParseInt(h.retryAfter.value), 1000)) else None
  }

  /** The outcome switch of `_sendRequest`. */
  function Classify(r: Response, retryCount: nat, maxRetries: int): (d: Decision)
    ensures d.Resolve? <==> r.Success? || (r.StatusError? && r.status == 404)
    ensures r.StatusError? && r.status == 404 ==> d == Resolve(None)
    ensures d.Retry? <==>
      r.StatusError? && (r.status == 429 || r.status == 500 || r.status == 503) && retryCount < maxRetries
    ensures d.Retry? ==> (d.escalate <==> r.status == 429)
    ensures d.Retry? ==> d.explicitMS == if r.status == 429 then RetryAfterMS(r.headers) else None
    ensures r.Success? ==> d == Resolve(Some(r.body))
    ensures r.NoResponse? ==> d == Reject(StatusFailure(None, r.message))
    ensures r.StatusError? && r.status != 404 && r.status != 429 && r.status != 500 && r.status != 503 ==>
      d == Reject(StatusFailure(Some(r.status), r.message))
    ensures r.StatusError? && r.status == 429 && retryCount >= maxRetries ==>
      d == Reject(Message("429 - Aborting request after retrying " + IntToString(retryCount) + " times"))
    ensures r.StatusError? && (r.status == 500 || r.status == 503) && retryCount >= maxRetries ==>
      d == Reject(Message("Aborting request after retrying " + IntToString(retryCount) + " times"))
  {
    match r
    case Success(_, body) => Resolve(Some(body))
    case NoResponse(msg) => Reject(StatusFailure(None, msg))
    case StatusError(status, headers, msg) =>
      if status == 404 then Resolve(None)
      else if status == 429 then
        if retryCount < maxRetries then Retry(true, RetryAfterMS(headers))
        else Reject(Message("429 - Aborting request after retrying " + IntToString(retryCount) + " times"))
      else if status == 500 || status == 503 then
        if retryCount < maxRetries then Retry(false, None)
        else Reject(Message("Aborting request after retrying " + IntToString(retryCount) + " times"))
      else Reject(StatusFailure(Some(status), msg))
  }

  /** The delay of a retried item: the explicit value if one is given, else the
      configured default when the item had no delay yet, else twice the last one. */
  function NextRetryMS(current: Num, explicit: Option<Num>, default: int): (r: Num)
    ensures explicit.Some? ==> r == explicit.value
    ensures explicit.None? && current.Int? && current.v > 0 ==> r.Int? && r.v > current.v
    ensures explicit.None? && default > 0 && current.Int? && current.v >= 0 ==> Positive(r)
  {
    if explicit.Some? then explicit.value
    else if current == Int(0) then Int(default)
    else Times(current, 2)
  }

  /** The delay after `k` consecutive retries without an explicit value. */
  function FaultDelay(default: int, k: nat): Num {
    if k == 0 then Int(0) else NextRetryMS(FaultDelay(default, k - 1), None, default)
  }

  function Pow2(k: nat): nat {
    if k == 0 then 1 else 2 * Pow2(k - 1)
  }

  /** Server faults back off exponentially: the k-th retry waits D * 2^(k-1). */
  lemma {:induction false} FaultDelayDoubles(default: int, k: nat)
    requires k >= 1
    ensures FaultDelay(default, k) == Int(default * Pow2(k - 1))
  {
    if k > 1 {
      FaultDelayDoubles(default, k - 1);
      var prev := default * Pow2(k - 2);
      assert default * Pow2(k - 1) == prev * 2 by {
        assert Pow2(k - 1) == 2 * Pow2(k - 2);
      }
      if prev == 0 {
        assert default == 0 by {
          assert Pow2(k - 2) > 0 by { Pow2Positive(k - 2); }
        }
      }
    }
  }

  lemma {:induction false} Pow2Positive(k: nat)
    ensures Pow2(k) > 0
  {
    if k > 0 { Pow2Positive(k - 1); }
  }

  /** Three server faults in a row with default delay D wait D, 2D and 4D. */
  lemma ThreeFaults(default: int)
    ensures FaultDelay(default, 1) == Int(default)
    ensures FaultDelay(default, 2) == Int(2 * default)
    ensures FaultDelay(default, 3) == Int(4 * default)
  {
    FaultDelayDoubles(default, 1);
    FaultDelayDoubles(default, 2);
    FaultDelayDoubles(default, 3);
  }

  /** A rate-limit answer with `retry-after: 2` asks for a 2000 ms delay and
      escalates the item, while the budget lasts. */
  lemma RetryAfterTwoSeconds(limit: Option<string>, message: string, maxRetries: int)
    requires 0 < maxRetries
    ensures Classify(StatusError(429, Headers(Some("2"), limit), message), 0, maxRetries)
            == Retry(true, Some(Int(2000)))
  {
    ParseIntOfNat(2, []);
    assert NatToString(2) + [] == "2";
  }
}
