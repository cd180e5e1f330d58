/**
 * The execution context handed to every node: the identities of the flow's
 * owner and starter, configuration, the signer and token services, and an
 * optional `CommandContext` binding it to one node invocation. The async
 * `&mut self` operations are pure functions here; each one also reports
 * which services it invoked, so that "no service was called" can be stated.
 */
module FlowContext {
  import opened Wrappers
  import opened Primitives
  import GetJwt
  import Signer
  import Exec = Execute

  datatype User = User(id: UserId)

  /** `User::new`. */
  function NewUser(id: UserId): (u: User)
    ensures u.id == id
  {
    User(id)
  }

  /** `User::default()`: the nil identity, used for tests and `Context::default()`. */
  function DefaultUser(): (u: User)
    ensures u.id == NIL
  {
    User(NIL)
  }

  /** Binds a context to one node invocation of one flow run; `times` is owned by the executor. */
  datatype CommandContext = CommandContext(svc: Exec.Svc, flowRunId: FlowRunId, nodeId: NodeId, times: U32)

  /**
   * The `Interflow` variant of `config::client::FlowRunOrigin`, the origin of
   * a flow run started by a node. The other variants are not part of this model.
   */
  datatype FlowRunOrigin = Interflow(flowRunId: FlowRunId, nodeId: NodeId, times: U32)

  /** The part of `ContextConfig` the context reads. */
  datatype SolanaClientConfig = SolanaClientConfig(url: string)
  datatype Endpoints = Endpoints(urls: map<string, string>)
  datatype ContextConfig = ContextConfig(
    solanaClient: SolanaClientConfig,
    environment: map<string, string>,
    endpoints: Endpoints)

  /** The RPC client handle, identified by the endpoint it talks to. */
  datatype SolanaClient = SolanaClient(url: string)

  /** A registered capability, type-erased in the code; its contents are not part of this model. */
  datatype Extension = Extension(encoded: seq<bv8>)

  /** The type-keyed extension registry, keyed by type name; lookups are not part of this model. */
  datatype Extensions = Extensions(entries: map<string, Extension>)

  datatype Context = Context(
    flowOwner: User,
    startedBy: User,
    cfg: ContextConfig,
    solanaClient: SolanaClient,
    environment: map<string, string>,
    endpoints: Endpoints,
    extensions: Extensions,
    command: Option<CommandContext>,
    signer: Signer.Svc,
    getJwt: GetJwt.Svc)

  /** A service call made while serving one context operation. */
  datatype Invocation =
    | TokenCall(tokenRequest: GetJwt.Request)
    | SignerCall(signatureRequest: Signer.SignatureRequest)
    | ExecuteCall(executeRequest: Exec.Request)

  /** An operation's result together with the service calls it made, in order. */
  datatype Traced<T> = Traced(value: T, invoked: seq<Invocation>)

  /** `execute::simple(ctx, size)`: builds an execution service from the context's RPC client and signer. */
  type SimpleStrategy = (SolanaClient, Signer.Svc, Usize) -> Exec.Svc

  /** `Extensions::default()`. */
  function EmptyExtensions(): (x: Extensions)
    ensures |x.entries| == 0
  {
    Extensions(map[])
  }

  /** `Context::from_cfg`: a context for a flow run, not yet bound to any node. */
  function FromCfg(
    cfg: ContextConfig,
    flowOwner: User,
    startedBy: User,
    sigSvc: Signer.Svc,
    tokenSvc: GetJwt.Svc,
    extensions: Extensions): (ctx: Context)
    ensures ctx.command.None?
    ensures ctx.cfg == cfg
    ensures ctx.environment == cfg.environment && ctx.endpoints == cfg.endpoints
    ensures ctx.solanaClient.url == cfg.solanaClient.url
    ensures ctx.flowOwner == flowOwner && ctx.startedBy == startedBy
    ensures ctx.signer == sigSvc && ctx.getJwt == tokenSvc
    ensures ctx.extensions == extensions
  {
    Context(
      flowOwner, startedBy, cfg, SolanaClient(cfg.solanaClient.url),
      cfg.environment, cfg.endpoints, extensions, None, sigSvc, tokenSvc)
  }

  /**
   * `Context::default()`, for tests: stub services, nil users, and a command
   * bound to the simple execution strategy with concurrency 1. The default
   * configuration and the strategy are parameters here.
   */
  function Default(defaultCfg: ContextConfig, simple: SimpleStrategy): (ctx: Context)
    ensures ctx.flowOwner.id == NIL && ctx.startedBy.id == NIL
    ensures ctx.command.Some?
    ensures ctx.command.value.flowRunId == NIL && ctx.command.value.nodeId == NIL
    ensures ctx.command.value.times == 0
    ensures ctx.command.value.svc == simple(SolanaClient(defaultCfg.solanaClient.url), ctx.signer, 1)
    ensures forall req :: ctx.getJwt.call(req) == Failure(GetJwt.Other(BoxError("unimplemented")))
    ensures forall req :: ctx.signer.call(req) == Failure(Signer.Other(BoxError("unimplemented")))
    ensures ctx.environment == defaultCfg.environment && ctx.endpoints == defaultCfg.endpoints
    ensures |ctx.extensions.entries| == 0
  {
    var ctx := FromCfg(
      defaultCfg, DefaultUser(), DefaultUser(),
      Signer.UnimplementedSvc(), GetJwt.UnimplementedSvc(), EmptyExtensions());
    ctx.(command := Some(CommandContext(simple(ctx.solanaClient, ctx.signer, 1), NIL, NIL, 0)))
  }

  const BEARER_PREFIX: string := "Bearer "

  /**
   * `Context::get_jwt_header`: one call to the token service for the flow
   * owner; the token comes back behind a `Bearer ` prefix.
   */
  function GetJwtHeader(ctx: Context): (r: Traced<Result<string, GetJwt.Error>>)
    ensures r.invoked == [TokenCall(GetJwt.Request(ctx.flowOwner.id))]
    ensures var answer := ctx.getJwt.call(GetJwt.Request(ctx.flowOwner.id));
      && (r.value.Success? <==> answer.Success?)
      && (r.value.Success? ==>
            && |r.value.value| == |BEARER_PREFIX| + |answer.value.accessToken|
            && r.value.value[..|BEARER_PREFIX|] == BEARER_PREFIX
            && r.value.value[|BEARER_PREFIX|..] == answer.value.accessToken)
      && (r.value.Failure? ==> r.value.error == answer.error)
  {
    var req := GetJwt.Request(ctx.flowOwner.id);
    Traced(ctx.getJwt.call(req).Map((resp: GetJwt.Response) => BEARER_PREFIX + resp.accessToken), [TokenCall(req)])
  }

  /** `Context::new_interflow_origin`: where a flow run started by this node comes from. */
  function NewInterflowOrigin(ctx: Context): (r: Option<FlowRunOrigin>)
    ensures r.None? <==> ctx.command.None?
    ensures r.Some? ==>
      && r.value.flowRunId == ctx.command.value.flowRunId
      && r.value.nodeId == ctx.command.value.nodeId
      && r.value.times == ctx.command.value.times
  {
    match ctx.command
    case None => None
    case Some(c) => Some(Interflow(c.flowRunId, c.nodeId, c.times))
  }

  /**
   * `Context::execute`: hands the instructions and outputs to the bound
   * command's execution service, or fails with `NotAvailable` without
   * calling anything when no command is bound.
   */
  function Execute(ctx: Context, instructions: Instructions, output: map<string, Value>): (r: Traced<Result<Exec.Response, Exec.Error>>)
    ensures r.invoked == [] <==> ctx.command.None?
    ensures ctx.command.None? ==> r.value == Failure(Exec.NotAvailable)
    ensures ctx.command.Some? ==>
      && r.invoked == [ExecuteCall(Exec.Request(instructions, output))]
      && r.value == ctx.command.value.svc.call(Exec.Request(instructions, output))
  {
    match ctx.command
    case None => Traced(Failure(Exec.NotAvailable), [])
    case Some(c) =>
      var req := Exec.Request(instructions, output);
      Traced(c.svc.call(req), [ExecuteCall(req)])
  }

  /** `Context::request_signature`: forwards the arguments to the signer service unchanged. */
  function RequestSignature(ctx: Context, pubkey: Pubkey, message: seq<bv8>, timeout: Duration): (r: Traced<Result<Signature, Signer.Error>>)
    ensures r.invoked == [SignerCall(Signer.SignatureRequest(pubkey, message, timeout))]
    ensures var answer := ctx.signer.call(Signer.SignatureRequest(pubkey, message, timeout));
      && (r.value.Success? <==> answer.Success?)
      && (r.value.Success? ==> r.value.value == answer.value.signature)
      && (r.value.Failure? ==> r.value.error == answer.error)
  {
    var req := Signer.SignatureRequest(pubkey, message, timeout);
    Traced(ctx.signer.call(req).Map((resp: Signer.SignatureResponse) => resp.signature), [SignerCall(req)])
  }

  /** A context fresh from `from_cfg` cannot execute and has no interflow origin. */
  lemma FromCfgIsUnbound(
    cfg: ContextConfig, flowOwner: User, startedBy: User, sigSvc: Signer.Svc,
    tokenSvc: GetJwt.Svc, extensions: Extensions, instructions: Instructions, output: map<string, Value>)
    ensures var ctx := FromCfg(cfg, flowOwner, startedBy, sigSvc, tokenSvc, extensions);
      && Execute(ctx, instructions, output) == Traced(Failure(Exec.NotAvailable), [])
      && NewInterflowOrigin(ctx).None?
  {
  }

  /** The default context's origin is the nil run and node at attempt 0. */
  lemma DefaultOrigin(defaultCfg: ContextConfig, simple: SimpleStrategy)
    ensures NewInterflowOrigin(Default(defaultCfg, simple)) == Some(Interflow(NIL, NIL, 0))
  {
  }

  /** The default context routes `execute` to the simple strategy over its own RPC client and signer stub. */
  lemma DefaultExecutesThroughSimple(defaultCfg: ContextConfig, simple: SimpleStrategy, instructions: Instructions, output: map<string, Value>)
    ensures var svc := simple(SolanaClient(defaultCfg.solanaClient.url), Signer.UnimplementedSvc(), 1);
      Execute(Default(defaultCfg, simple), instructions, output).value == svc.call(Exec.Request(instructions, output))
  {
  }

  /** With the stub token service of the default context, the header request fails with `Other`. */
  lemma DefaultHasNoToken(defaultCfg: ContextConfig, simple: SimpleStrategy)
    ensures GetJwtHeader(Default(defaultCfg, simple)).value == Failure(GetJwt.Other(BoxError("unimplemented")))
  {
  }

  /** With the `not_allowed` stub, the header request fails with `NotAllowed`. */
  lemma NotAllowedHeader(ctx: Context)
    requires ctx.getJwt == GetJwt.NotAllowedSvc()
    ensures GetJwtHeader(ctx).value == Failure(GetJwt.NotAllowed)
  {
  }

  /** A token `abc.def.ghi` becomes the header `Bearer abc.def.ghi`. */
  lemma BearerHeaderExample(ctx: Context)
    requires ctx.getJwt.call(GetJwt.Request(ctx.flowOwner.id)) == Success(GetJwt.Response("abc.def.ghi"))
    ensures GetJwtHeader(ctx).value == Success("Bearer abc.def.ghi")
  {
    assert BEARER_PREFIX + "abc.def.ghi" == "Bearer abc.def.ghi";
  }

  /** Only `execute` and `new_interflow_origin` depend on the bound command. */
  lemma TokenAndSignerIgnoreCommand(ctx: Context, command: Option<CommandContext>, pubkey: Pubkey, message: seq<bv8>, timeout: Duration)
    ensures GetJwtHeader(ctx.(command := command)) == GetJwtHeader(ctx)
    ensures RequestSignature(ctx.(command := command), pubkey, message, timeout) == RequestSignature(ctx, pubkey, message, timeout)
  {
  }

  /** `get_jwt::Error::worker` cannot be told apart from `other`; `execute::Error::worker` can. */
  lemma WorkerMappingsDiffer(e: BoxError)
    ensures GetJwt.WorkerError(e) == GetJwt.OtherError(e)
    ensures Exec.WorkerError(e) != Exec.OtherError(e)
  {
  }
}
