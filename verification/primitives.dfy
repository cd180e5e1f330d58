/**
 * Identifiers and opaque payloads shared by the context and its services.
 * Types owned by other crates (uuid, solana_sdk, value) are modelled only
 * as far as the context reads them.
 */
module Primitives {

  /** A 128-bit UUID, as its numeric value. */
  type Uuid = x: int | 0 <= x < 0x1_0000_0000_0000_0000_0000_0000_0000_0000

  /** `uuid::Uuid::nil()`: all 128 bits zero. */
  const NIL: Uuid := 0

  type UserId = Uuid
  type FlowRunId = Uuid
  type NodeId = Uuid

  /** Rust's `u32`. */
  type U32 = x: int | 0 <= x < 0x1_0000_0000

  /** Rust's `u64`. */
  type U64 = x: int | 0 <= x < 0x1_0000_0000_0000_0000

  /** Rust's `usize` on a 64-bit target. */
  type Usize = x: int | 0 <= x < 0x1_0000_0000_0000_0000

  /** A boxed, type-erased error (`BoxError`), kept as its message. */
  datatype BoxError = BoxError(message: string)

  /** `actix::MailboxError`: the destination actor is gone or did not answer in time. */
  datatype MailboxError = Closed | Timeout

  /** `solana_sdk::pubkey::Pubkey`, as its bytes. */
  datatype Pubkey = Pubkey(bytes: seq<bv8>)

  /** `solana_sdk::signature::Signature`, as its bytes. */
  datatype Signature = Signature(bytes: seq<bv8>)

  /** The sub-second part of a `Duration`, always below one second. */
  type Nanos = x: int | 0 <= x < 1_000_000_000

  /** `std::time::Duration`, normalised as Rust keeps it: whole seconds plus fewer than a second of nanoseconds. */
  datatype Duration = Duration(secs: U64, nanos: Nanos)

  /** `crate::solana::Instructions`, carried through unchanged; its contents are not part of this model. */
  datatype Instructions = Instructions(encoded: seq<bv8>)

  /** A node output value of the `value` crate, carried through unchanged. */
  datatype Value = Value(encoded: seq<bv8>)

  /** `solana_client::client_error::ClientError`, kept as its message. */
  datatype ClientError = ClientError(message: string)

  /** `solana_sdk::signer::SignerError`, kept as its message. */
  datatype SignerError = SignerError(message: string)
}
