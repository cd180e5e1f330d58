/**
 * The token service (`context::get_jwt`): issues a user's JWT, and owns the
 * one automatic retry policy of the context, which re-asks for a token when
 * the provider reports a refresh-token failure.
 */
module GetJwt {
  import opened Wrappers
  import opened Primitives
  import Text
  import Service

  datatype Request = Request(userId: UserId)

  datatype Response = Response(accessToken: string)

  datatype Error =
    | NotAllowed
    | UserNotFound
    | WrongRecipient
    | Worker(cause: BoxError)
    | MailBox(mailbox: MailboxError)
    | Supabase(error: string, errorDescription: string)
    | Other(cause: BoxError)

  type Svc = Service.Svc<Request, Response, Error>

  /** `Error::worker`: a failure inside the service's worker. It yields `Other`, never `Worker`. */
  function WorkerError(e: BoxError): (r: Error)
    ensures r.Other? && r.cause == e
    ensures !r.Worker?
  {
    Other(e)
  }

  /** `Error::other`: wraps any error as `Other`. */
  function OtherError(e: BoxError): (r: Error)
    ensures r.Other? && r.cause == e
  {
    Other(e)
  }

  /** `From<actix::MailboxError> for Error`. */
  function FromMailbox(e: MailboxError): (r: Error)
    ensures r.MailBox? && r.mailbox == e
  {
    MailBox(e)
  }

  /** The stub installed where no token issuer is available. */
  function UnimplementedSvc(): (s: Svc)
    ensures forall req :: s.call(req) == Failure(Other(BoxError("unimplemented")))
  {
    Service.Unimplemented(OtherError(BoxError("unimplemented")))
  }

  /** The stub installed where token issuance is denied. */
  function NotAllowedSvc(): (s: Svc)
    ensures forall req :: s.call(req) == Failure(NotAllowed)
  {
    Service.Unimplemented(NotAllowed)
  }

  /** The error-description text that marks a retryable provider failure. */
  const REFRESH_TOKEN_MARKER: string := "Refresh Token"

  /** A provider failure whose description mentions the refresh token. */
  ghost predicate IsRefreshTokenFailure(result: Result<Response, Error>) {
    result.Failure? && result.error.Supabase?
    && Text.Contains(result.error.errorDescription, REFRESH_TOKEN_MARKER)
  }

  /** `RetryPolicy(usize)`: how many more retries may be made. */
  datatype RetryPolicy = RetryPolicy(budget: Usize)

  /** `RetryPolicy::default()`. */
  function DefaultPolicy(): (p: RetryPolicy)
    ensures p.budget == 1
  {
    RetryPolicy(1)
  }

  /**
   * `Policy::retry`: `Some` of the policy for the next attempt when the call
   * should be retried, `None` when the result is final.
   */
  function Retry(p: RetryPolicy, req: Request, result: Result<Response, Error>): (r: Option<RetryPolicy>)
    ensures r.Some? <==> IsRefreshTokenFailure(result) && p.budget > 0
    ensures r.Some? ==> r.value.budget == p.budget - 1
  {
    match result
    case Failure(Supabase(_, description)) =>
      // the guard tests `self.0 > 0`, so the decrement never wraps
      if Text.ContainsStr(description, REFRESH_TOKEN_MARKER) && p.budget > 0
      then Some(RetryPolicy(p.budget - 1))
      else None
    case _ => None
  }

  /** `Policy::clone_request`: every retry re-issues a copy of the request. */
  function CloneRequest(p: RetryPolicy, req: Request): (r: Option<Request>)
    ensures r == Some(req)
  {
    Some(req)
  }

  /** What a driver of the policy observed: the final result and every request it issued. */
  datatype Run = Run(result: Result<Response, Error>, sent: seq<Request>)

  /**
   * The retry loop a `tower::retry::Retry` layer runs around the token
   * service: issue the request, ask the policy, and on `Some` issue a clone
   * of the request under the new policy. `answer(k, req)` is the upstream's
   * answer to the `k`-th attempt, so a provider that fails and later
   * succeeds is covered.
   */
  function Drive(p: RetryPolicy, req: Request, answer: (nat, Request) -> Result<Response, Error>, k: nat): (run: Run)
    ensures 1 <= |run.sent| <= p.budget + 1
    ensures forall i :: 0 <= i < |run.sent| ==> run.sent[i] == req
    ensures run.result == answer(k + |run.sent| - 1, req)
    decreases p.budget
  {
    var result := answer(k, req);
    match Retry(p, req, result)
    case None => Run(result, [req])
    case Some(next) =>
      var copy := CloneRequest(p, req).value;
      var rest := Drive(next, copy, answer, k + 1);
      Run(rest.result, [req] + rest.sent)
  }

  /** Every attempt but the last failed with a refresh-token error. */
  lemma {:induction false} RetriedOnlyAfterRefreshFailure(p: RetryPolicy, req: Request, answer: (nat, Request) -> Result<Response, Error>, k: nat)
    ensures forall i :: k <= i < k + |Drive(p, req, answer, k).sent| - 1 ==> IsRefreshTokenFailure(answer(i, req))
    decreases p.budget
  {
    var result := answer(k, req);
    match Retry(p, req, result)
    case None =>
    case Some(next) =>
      RetriedOnlyAfterRefreshFailure(next, req, answer, k + 1);
  }

  /** The loop stops on a refresh-token failure only once the budget is spent. */
  lemma {:induction false} StopsEarlyOnlyOnFinalResult(p: RetryPolicy, req: Request, answer: (nat, Request) -> Result<Response, Error>, k: nat)
    ensures var run := Drive(p, req, answer, k);
      IsRefreshTokenFailure(run.result) ==> |run.sent| == p.budget + 1
    decreases p.budget
  {
    var result := answer(k, req);
    match Retry(p, req, result)
    case None =>
    case Some(next) =>
      StopsEarlyOnlyOnFinalResult(next, req, answer, k + 1);
  }

  /**
   * A provider that keeps reporting a refresh-token failure is asked exactly
   * `n + 1` times under `RetryPolicy(n)`, and its last failure is returned.
   */
  lemma PersistentFailureSpendsWholeBudget(p: RetryPolicy, req: Request, answer: (nat, Request) -> Result<Response, Error>)
    requires forall i :: IsRefreshTokenFailure(answer(i, req))
    ensures |Drive(p, req, answer, 0).sent| == p.budget + 1
    ensures Drive(p, req, answer, 0).result == answer(p.budget, req)
  {
    StopsEarlyOnlyOnFinalResult(p, req, answer, 0);
  }

  /** A result that is not a refresh-token failure is never retried, whatever the budget. */
  lemma OtherResultsAreFinal(p: RetryPolicy, req: Request, answer: (nat, Request) -> Result<Response, Error>)
    requires !IsRefreshTokenFailure(answer(0, req))
    ensures Drive(p, req, answer, 0) == Run(answer(0, req), [req])
  {
  }

  /** The default policy asks the provider at most twice. */
  lemma DefaultPolicyAtMostTwoAttempts(req: Request, answer: (nat, Request) -> Result<Response, Error>)
    ensures |Drive(DefaultPolicy(), req, answer, 0).sent| <= 2
  {
  }

  /** Errors made by `Error::worker` are never retried. */
  lemma WorkerErrorsAreFinal(p: RetryPolicy, req: Request, e: BoxError)
    ensures Retry(p, req, Failure(WorkerError(e))).None?
  {
  }

  /** A provider description carrying the marker is retried while budget remains. */
  lemma InvalidRefreshTokenIsRetried(p: RetryPolicy, req: Request)
    requires p.budget > 0
    ensures Retry(p, req, Failure(Supabase("invalid_grant", "Invalid Refresh Token: Already Used"))).Some?
  {
    var description := "Invalid Refresh Token: Already Used";
    assert description == "Invalid " + REFRESH_TOKEN_MARKER + ": Already Used";
    assert description[8..21] == REFRESH_TOKEN_MARKER;
    assert Text.OccursAt(description, REFRESH_TOKEN_MARKER, 8);
  }

  /** The match is case-sensitive: a lower-case mention is final. */
  lemma LowerCaseMarkerIsFinal(p: RetryPolicy, req: Request)
    ensures Retry(p, req, Failure(Supabase("invalid_grant", "refresh token"))).None?
  {
    assert "refresh token"[0] != REFRESH_TOKEN_MARKER[0];
  }
}
