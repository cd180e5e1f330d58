/**
 * A capability service, reduced to its request/response contract: one call
 * maps a request to a response or a typed error. Readiness, admission
 * budgets and cloning of the handle are not part of this model.
 */
module Service {
  import opened Wrappers

  /** A service handle (`TowerClient<Req, Resp, Err>`) seen as the function it computes. */
  datatype Svc<!Req, Resp, Err> = Svc(call: Req -> Result<Resp, Err>)

  /**
   * `TowerClient::unimplemented(make_err, worker)`: a stub that does no work
   * and fails every request with the configured error. The `worker` argument
   * only maps the handle's internal failures, which this model does not have.
   */
  function Unimplemented<Req(!new), Resp, Err>(err: Err): (s: Svc<Req, Resp, Err>)
    ensures forall req :: s.call(req) == Failure(err)
  {
    Svc(req => Failure(err))
  }
}
