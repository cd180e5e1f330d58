/** The execution service (`context::execute`): submits a node's instructions and outputs. */
module Execute {
  import opened Wrappers
  import opened Primitives
  import Service

  datatype Request = Request(instructions: Instructions, output: map<string, Value>)

  /** `signature` is `None` when no transaction went on chain. */
  datatype Response = Response(signature: Option<Signature>)

  datatype Error =
    | Canceled
    | NotAvailable
    | TxIncomplete
    | Timeout
    | InsufficientSolanaBalance(needed: nat, balance: nat)
    | TxSimFailed
    | Solana(client: ClientError)
    | Signer(signer: SignerError)
    | Worker(cause: BoxError)
    | MailBox(mailbox: MailboxError)
    | ChannelClosed
    | Other(cause: BoxError)

  type Svc = Service.Svc<Request, Response, Error>

  /** `Error::worker`: a failure inside the service's worker yields `Worker`. */
  function WorkerError(e: BoxError): (r: Error)
    ensures r.Worker? && r.cause == e
  {
    Worker(e)
  }

  /** `Error::other`, and equally `From<BoxError> for Error`. */
  function OtherError(e: BoxError): (r: Error)
    ensures r.Other? && r.cause == e
  {
    Other(e)
  }

  /** `From<ClientError> for Error`. */
  function FromClientError(e: ClientError): (r: Error)
    ensures r.Solana? && r.client == e
  {
    Solana(e)
  }

  /** `From<SignerError> for Error`. */
  function FromSignerError(e: SignerError): (r: Error)
    ensures r.Signer? && r.signer == e
  {
    Signer(e)
  }

  /** The stub installed where no execution strategy is available. */
  function UnimplementedSvc(): (s: Svc)
    ensures forall req :: s.call(req) == Failure(Other(BoxError("unimplemented")))
  {
    Service.Unimplemented(OtherError(BoxError("unimplemented")))
  }
}
