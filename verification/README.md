# flow-lib execution context, modelled in Dafny

This project models the decision and dispatch layer of the flow engine's
node execution context (`lib/flow-lib/src/context.rs`). Every node of a
workflow runs with a `Context` that carries the flow owner's and starter's
identities, configuration, a signer service, a token (`get_jwt`) service and,
when bound to one node invocation, a `CommandContext` with an execution
service. The model covers:

- the three service contracts (`get_jwt`, `signer`, `execute`): their request,
  response and error types, the error constructors and `From` conversions, and
  the stub services that fail every call with a fixed error;
- the token-refresh `RetryPolicy`: it retries only a provider (`Supabase`)
  failure whose description contains `Refresh Token`, only while its budget is
  positive, and decrements the budget on each retry. A retry driver (`Drive`)
  in the style of `tower::retry::Retry` shows that `RetryPolicy(n)` makes at
  most `n + 1` attempts, always with the same request, and exactly `n + 1`
  against a provider that keeps failing that way;
- context construction (`from_cfg`, `Default`) and the operations
  `execute`, `get_jwt_header`, `request_signature` and `new_interflow_origin`.

A service is a total function from request to `Result` (`Service.Svc`). The
async `&mut self` operations are pure functions; each returns, besides its
result, the list of service calls it made (`FlowContext.Traced`), so that "no
service is invoked" is a checkable statement.

`str::contains` is modelled on `seq<char>` by a first-match search
(`Text.Search`) proved against a specification (`Text.Contains`). For valid
UTF-8 text this agrees with Rust's byte-level search.

Two details of the code are kept as written. `get_jwt::Error::worker` builds
the `Other` variant, so the `Worker` variant of the token error is never
built in this file; `execute::Error::worker` does build `Worker`. The signer
stub's error goes through `From<BoxError>`, so it is `signer::Error::Other`,
not `Worker`.

## Model

| member | source | states |
|---|---|---|
| Text.Search | lib/flow-lib/src/context.rs:107 | the result is the first index at or after the start where the marker occurs; `None` only if it occurs nowhere after the start |
| Text.ContainsStr | lib/flow-lib/src/context.rs:107 | `contains` is true exactly when the needle occurs at some index of the text |
| Service.Unimplemented | lib/flow-lib/src/context.rs:83-89 | an unimplemented service fails every request with its configured error |
| GetJwt.WorkerError | lib/flow-lib/src/context.rs:68-70 | a worker failure of the token service becomes the `Other` variant carrying the cause, never `Worker` |
| GetJwt.OtherError | lib/flow-lib/src/context.rs:72-74 | `other` wraps the cause in the `Other` variant |
| GetJwt.FromMailbox | lib/flow-lib/src/context.rs:61-65 | a mailbox error becomes the `MailBox` variant carrying it |
| GetJwt.UnimplementedSvc | lib/flow-lib/src/context.rs:83-85 | the token stub fails every request with `Other("unimplemented")` |
| GetJwt.NotAllowedSvc | lib/flow-lib/src/context.rs:87-89 | the `not_allowed` stub fails every request with `NotAllowed` |
| GetJwt.DefaultPolicy | lib/flow-lib/src/context.rs:94-98 | the default retry budget is 1 |
| GetJwt.Retry | lib/flow-lib/src/context.rs:103-113 | retries exactly when the result is a `Supabase` error whose description contains `Refresh Token` and the budget is positive; the next budget is one less |
| GetJwt.CloneRequest | lib/flow-lib/src/context.rs:115-117 | every retry re-issues an identical copy of the request |
| GetJwt.Drive | lib/flow-lib/src/context.rs:100-118 | a driver of the policy makes between 1 and `n + 1` attempts, each with the original request, and returns the last attempt's result |
| GetJwt.RetriedOnlyAfterRefreshFailure | lib/flow-lib/src/context.rs:103-112 | every attempt before the last failed with a refresh-token error |
| GetJwt.StopsEarlyOnlyOnFinalResult | lib/flow-lib/src/context.rs:103-112 | the driver stops on a refresh-token error only after using all `n + 1` attempts |
| GetJwt.PersistentFailureSpendsWholeBudget | lib/flow-lib/src/context.rs:103-117 | against a provider that always reports a refresh-token error, `RetryPolicy(n)` asks exactly `n + 1` times and returns the last failure |
| GetJwt.OtherResultsAreFinal | lib/flow-lib/src/context.rs:104-111 | a first result that is not a refresh-token error is returned after one attempt, for every budget |
| GetJwt.DefaultPolicyAtMostTwoAttempts | lib/flow-lib/src/context.rs:94-98 | the default policy asks the provider at most twice |
| GetJwt.WorkerErrorsAreFinal | lib/flow-lib/src/context.rs:68-112 | an error made by `Error::worker` is never retried |
| GetJwt.InvalidRefreshTokenIsRetried | lib/flow-lib/src/context.rs:105-109 | the description `Invalid Refresh Token: Already Used` is retried while the budget is positive |
| GetJwt.LowerCaseMarkerIsFinal | lib/flow-lib/src/context.rs:107 | the marker match is case-sensitive: `refresh token` is not retried |
| Signer.FromBoxError | lib/flow-lib/src/context.rs:140-141 | a boxed error converts to the signer's `Other` variant |
| Signer.UnimplementedSvc | lib/flow-lib/src/context.rs:162-164 | the signer stub fails every request with `Other("unimplemented")` |
| Execute.WorkerError | lib/flow-lib/src/context.rs:241-243 | a worker failure of the execution service becomes the `Worker` variant carrying the cause |
| Execute.OtherError | lib/flow-lib/src/context.rs:245-247 | `other` wraps the cause in the `Other` variant |
| Execute.FromClientError | lib/flow-lib/src/context.rs:222-226 | an RPC client error becomes the `Solana` variant carrying it |
| Execute.FromSignerError | lib/flow-lib/src/context.rs:234-238 | a signing error becomes the `Signer` variant carrying it |
| Execute.UnimplementedSvc | lib/flow-lib/src/context.rs:250-252 | the execution stub fails every request with `Other("unimplemented")` |
| FlowContext.NewUser | lib/flow-lib/src/context.rs:318-322 | a user built from an id has that id |
| FlowContext.DefaultUser | lib/flow-lib/src/context.rs:324-331 | the default user has the nil id |
| FlowContext.EmptyExtensions | lib/flow-lib/src/context.rs:301 | the default registry has no entries |
| FlowContext.FromCfg | lib/flow-lib/src/context.rs:334-357 | the new context has no command, copies environment and endpoints from the configuration, uses the configured RPC URL, and stores identities, services and extensions unchanged |
| FlowContext.Default | lib/flow-lib/src/context.rs:293-311 | both users are nil; a command is bound with nil run and node ids, `times` 0 and the simple strategy of concurrency 1; the token and signer services are stubs that fail with `Other("unimplemented")` |
| FlowContext.GetJwtHeader | lib/flow-lib/src/context.rs:359-371 | calls the token service once for the flow owner; succeeds exactly when it does, with `Bearer ` followed by the token; otherwise returns the service's error unchanged |
| FlowContext.NewInterflowOrigin | lib/flow-lib/src/context.rs:373-380 | `None` exactly when no command is bound; otherwise the command's run id, node id and attempt count |
| FlowContext.Execute | lib/flow-lib/src/context.rs:382-400 | with no command, fails with `NotAvailable` and calls no service; otherwise makes one call to the command's service with the instructions and outputs and returns its answer |
| FlowContext.RequestSignature | lib/flow-lib/src/context.rs:402-421 | calls the signer once with the arguments unchanged; returns its signature or its error |
| FlowContext.FromCfgIsUnbound | lib/flow-lib/src/context.rs:353-398 | a context fresh from `from_cfg` cannot execute, calls no service trying, and has no interflow origin |
| FlowContext.DefaultOrigin | lib/flow-lib/src/context.rs:303-308 | the default context's origin is the nil run and node at attempt 0 |
| FlowContext.DefaultExecutesThroughSimple | lib/flow-lib/src/context.rs:303-308 | the default context's `execute` answers with the simple strategy built on its RPC client and signer stub |
| FlowContext.DefaultHasNoToken | lib/flow-lib/src/context.rs:295-302 | the default context's header request fails with `Other("unimplemented")` |
| FlowContext.NotAllowedHeader | lib/flow-lib/src/context.rs:360-371 | with the `not_allowed` token service, the header request fails with `NotAllowed` |
| FlowContext.BearerHeaderExample | lib/flow-lib/src/context.rs:361 | the token `abc.def.ghi` yields the header `Bearer abc.def.ghi` |
| FlowContext.TokenAndSignerIgnoreCommand | lib/flow-lib/src/context.rs:360-421 | the header and signature requests do not depend on the bound command |
| FlowContext.WorkerMappingsDiffer | lib/flow-lib/src/context.rs:68-70 | the token service's `worker` and `other` build the same error; the execution service's do not |

## Left out

- Readiness and admission: `TowerClient`'s `ready()` phase, its concurrency bound and the budget shared by its clones are not modelled, because the handle is not part of this model and its point is concurrency. Readiness never fails in the model, while the code propagates a readiness error with `?`.
- `TowerClient::from_service` and its mapping of internal failures through the `worker` constructor, and the `worker` argument that `TowerClient::unimplemented` receives for the same purpose: the handle's code is not part of this model. `Service.Unimplemented` takes only the error it always returns.
- `execute::simple` and `Instructions::execute`: transaction building, signing and RPC submission are network I/O; `Default` takes the strategy as a parameter.
- `ContextConfig::default()` is not part of this model; `Default` takes the default configuration as a parameter. Only the configuration fields the context reads are modelled.
- `Context::get` and the `Extensions` registry's lookups: they rely on type erasure and the registry's code is not part of this model. The registry is a map from type name to an opaque capability value; the model uses only that `Extensions::default()` is empty and that `from_cfg` stores the registry unchanged.
- The `http` client field and the construction of the RPC client: library objects with no visible logic; the RPC client is identified by its URL.
- FlowContext.RequestSignature: returns the signer's typed error where the code wraps it in `anyhow::Error`.
- `From<anyhow::Error>` for the execution error (a downcast), and the text of `verbose_solana_error`: library wrappers with no visible logic.
- The `tracing::error!` log on a retry and the `assert_send_sync` compile-time check.
- `FlowRunOrigin` variants other than `Interflow`: their definitions are not part of this model.
- GetJwt.Drive: models the loop of `tower::retry::Retry`, which is library code; the policy methods it calls are the ones in the source.
- The `u64` amounts of `InsufficientSolanaBalance` are unbounded `nat`: the context does no arithmetic on them.
- `crates/cmds-std/src/postgrest/mod.rs`: module declarations only, no logic.
