/** The signature service (`context::signer`): asks an external wallet to sign a message. */
module Signer {
  import opened Wrappers
  import Primitives
  import Service

  datatype SignatureRequest = SignatureRequest(pubkey: Primitives.Pubkey, message: seq<bv8>, timeout: Primitives.Duration)

  datatype SignatureResponse = SignatureResponse(signature: Primitives.Signature)

  datatype Error =
    | Pubkey(description: string)
    | User
    | Timeout
    | Worker(cause: Primitives.BoxError)
    | MailBox(mailbox: Primitives.MailboxError)
    | Other(cause: Primitives.BoxError)

  type Svc = Service.Svc<SignatureRequest, SignatureResponse, Error>

  /** `From<BoxError> for Error`, derived by `#[from]` on `Other`. */
  function FromBoxError(e: Primitives.BoxError): (r: Error)
    ensures r.Other? && r.cause == e
  {
    Other(e)
  }

  /**
   * The stub installed where no wallet is reachable. Its error is
   * `BoxError::from("unimplemented").into()`, which the `#[from]`
   * conversion turns into `Other`, not `Worker`.
   */
  function UnimplementedSvc(): (s: Svc)
    ensures forall req :: s.call(req) == Failure(Other(Primitives.BoxError("unimplemented")))
  {
    Service.Unimplemented(FromBoxError(Primitives.BoxError("unimplemented")))
  }
}
