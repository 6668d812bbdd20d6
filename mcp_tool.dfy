/** The MCP tool wrapper: configuration validation (`MCPToolConfig.model_post_init`),
    transport resolution and client selection (`mcp_tool`), the description
    override, and the call and containment policy of `_response_fn`. */
module McpTool {
  import opened Wrappers
  import opened McpConfig
  import McpServer

  /** `MCPToolConfig`. `server` names a shared server configuration; the
      transport defaults to `sse`, `return_exception` to true. */
  datatype ToolConfig = ToolConfig(
    server: Option<string>,
    url: Option<Url>,
    transportType: Transport,
    command: Option<string>,
    args: Option<seq<string>>,
    env: Option<map<string, string>>,
    mcpToolName: string,
    description: Option<string>,
    returnException: bool)

  /** A tool configuration with every optional field left at its default. */
  function DefaultToolConfig(toolName: string): ToolConfig
  {
    ToolConfig(None, None, Sse, None, None, None, toolName, None, true)
  }

  /** Where an accepted configuration takes its transport fields from. */
  datatype Source = ByReference(server: string) | Direct

  predicate UsesServerRef(c: ToolConfig)
  {
    c.server.Some?
  }

  /** Only `url` and `command` mark a configuration as direct; `args` and
      `env` on their own do not. */
  predicate UsesDirectConfig(c: ToolConfig)
  {
    c.url.Some? || c.command.Some?
  }

  /** The per-transport checks of the direct branch, in source order. */
  function DirectCheck(t: Transport, url: Option<Url>, command: Option<string>,
                       args: Option<seq<string>>, env: Option<map<string, string>>): (r: Outcome<ConfigError>)
    ensures r.Pass? <==> TransportFieldsOk(t, url, command, args, env)
    ensures t.Stdio? && url.Some? ==> r == Fail(StdioUrlSet)
    ensures !t.Stdio? && (command.Some? || args.Some? || env.Some?) ==> r == Fail(RemoteForbiddenFields)
  {
    if t == Stdio then
      if url.Some? then Fail(StdioUrlSet)
      else if !Truthy(command) then Fail(StdioCommandRequired)
      else Pass
    else if t in {StreamableHttp, Sse} then
      if command.Some? || args.Some? || env.Some? then Fail(RemoteForbiddenFields)
      else if !Truthy(url) then Fail(RemoteUrlRequired)
      else Pass
    else
      Pass
  }

  /** The direct branch of the tool wrapper and the server configuration
      apply the same rules and report the same first error. */
  lemma DirectCheckMatchesServer(t: Transport, url: Option<Url>, command: Option<string>,
                                 args: Option<seq<string>>, env: Option<map<string, string>>)
    ensures DirectCheck(t, url, command, args, env)
            == McpServer.PostInit(McpServer.ServerConfig(t, url, command, args, env))
  {
  }

  /** The two configuration shapes the wrapper accepts, stated declaratively:
      a bare server reference, or no reference and valid direct fields. */
  predicate AcceptedShape(c: ToolConfig)
  {
    || (c.server.Some? && c.url.None? && c.command.None? && c.args.None? && c.env.None?)
    || (c.server.None? && TransportFieldsOk(c.transportType, c.url, c.command, c.args, c.env))
  }

  /** `model_post_init` of the tool wrapper. */
  function PostInit(c: ToolConfig): (r: Result<Source, ConfigError>)
    ensures r.Success? <==> AcceptedShape(c)
    ensures r.Success? ==> (r.value.ByReference? <==> UsesServerRef(c))
    ensures r.Success? && UsesServerRef(c) ==> r.value.server == c.server.value
    ensures !UsesServerRef(c) && !UsesDirectConfig(c) ==> r == Failure(NoSource)
    ensures UsesServerRef(c) && UsesDirectConfig(c) ==> r == Failure(BothSources)
    ensures UsesServerRef(c) && !UsesDirectConfig(c) && (c.args.Some? || c.env.Some?)
            ==> r == Failure(DirectFieldsWithReference)
    ensures !UsesServerRef(c) && UsesDirectConfig(c)
            ==> (r.Failure? <==> DirectCheck(c.transportType, c.url, c.command, c.args, c.env).Fail?)
    ensures !UsesServerRef(c) && UsesDirectConfig(c) && r.Failure?
            ==> r.error == DirectCheck(c.transportType, c.url, c.command, c.args, c.env).error
  {
    var usingServerRef := UsesServerRef(c);
    var usingDirectConfig := UsesDirectConfig(c);
    if !usingServerRef && !usingDirectConfig then Failure(NoSource)
    else if usingServerRef && usingDirectConfig then Failure(BothSources)
    else if usingServerRef then
      if c.url.Some? || c.command.Some? || c.args.Some? || c.env.Some? then Failure(DirectFieldsWithReference)
      else Success(ByReference(c.server.value))
    else
      match DirectCheck(c.transportType, c.url, c.command, c.args, c.env)
      case Pass => Success(Direct)
      case Fail(e) => Failure(e)
  }

  /** Since the transport defaults to `sse`, a configuration that gives only
      a command (or only args) is rejected. */
  lemma DefaultTransportRejectsCommandOnly(name: string, command: string, args: seq<string>)
    ensures PostInit(DefaultToolConfig(name).(command := Some(command))) == Failure(RemoteForbiddenFields)
    ensures PostInit(DefaultToolConfig(name).(args := Some(args))) == Failure(NoSource)
    ensures PostInit(DefaultToolConfig(name)) == Failure(NoSource)
  {
  }

  /** A server configuration as `builder.get_server` returns it. The
      wrapper reads its fields without knowing its class, so the transport
      is plain text here. */
  datatype ServerRecord = ServerRecord(
    serverType: string,
    transportType: string,
    url: Option<Url>,
    command: Option<string>,
    args: Option<seq<string>>,
    env: Option<map<string, string>>)

  /** How a server configuration appears when the builder hands it out. */
  function RecordOf(serverType: string, s: McpServer.ServerConfig): ServerRecord
  {
    ServerRecord(serverType, LiteralText(s.transportType), s.url, s.command, s.args, s.env)
  }

  /** The five transport fields `mcp_tool` works with after resolution. */
  datatype TransportFields = TransportFields(
    transportType: string,
    url: Option<Url>,
    command: Option<string>,
    args: Option<seq<string>>,
    env: Option<map<string, string>>)

  /** Takes all five transport fields from the referenced server when there
      is a reference, and from the wrapper's own fields otherwise; a
      referenced server must be of type "mcp". */
  function ResolveTransport(c: ToolConfig, getServer: string -> ServerRecord): (r: Result<TransportFields, ConfigError>)
    ensures c.server.Some? ==> (r.Failure? <==> getServer(c.server.value).serverType != "mcp")
    ensures r.Failure? ==> c.server.Some? && r.error == NotMcpServer(c.server.value)
    ensures r.Success? && c.server.Some? ==>
      var s := getServer(c.server.value);
      r.value == TransportFields(s.transportType, s.url, s.command, s.args, s.env)
    ensures c.server.None? ==>
      r == Success(TransportFields(LiteralText(c.transportType), c.url, c.command, c.args, c.env))
  {
    if c.server.Some? then
      var s := getServer(c.server.value);
      if s.serverType != "mcp" then Failure(NotMcpServer(c.server.value))
      else Success(TransportFields(s.transportType, s.url, s.command, s.args, s.env))
    else
      Success(TransportFields(LiteralText(c.transportType), c.url, c.command, c.args, c.env))
  }

  /** The three MCP client variants and what each is constructed with. */
  datatype Client =
    | StdioClient(command: Option<string>, args: Option<seq<string>>, env: Option<map<string, string>>)
    | StreamableHttpClient(url: string)
    | SseClient(url: string)

  /** A selected client and the `source` text that names its server. */
  datatype Connection = Connection(client: Client, source: string)

  /** `sep.join(parts)`. */
  function Join(parts: seq<string>, sep: string): string
  {
    if |parts| == 0 then ""
    else if |parts| == 1 then parts[0]
    else parts[0] + sep + Join(parts[1..], sep)
  }

  /** `' '.join(args) if args else ''`. */
  function JoinArgs(args: Option<seq<string>>): (s: string)
    // the `if args` guard makes no difference: an empty list joins to ""
    ensures args.None? || args.value == [] ==> s == ""
    ensures args.Some? && |args.value| == 1 ==> s == args.value[0]
  {
    if args.Some? && args.value != [] then Join(args.value, " ") else ""
  }

  /** Joining two non-empty argument lists puts exactly one space between
      their joined texts; with the single-argument case this fixes the
      text for every list. */
  lemma {:induction false} JoinArgsConcat(xs: seq<string>, ys: seq<string>)
    requires xs != [] && ys != []
    ensures JoinArgs(Some(xs + ys)) == JoinArgs(Some(xs)) + " " + JoinArgs(Some(ys))
    decreases |xs|
  {
    assert (xs + ys)[0] == xs[0];
    assert (xs + ys)[1..] == xs[1..] + ys;
    if |xs| > 1 {
      JoinArgsConcat(xs[1..], ys);
    }
  }

  /** Whether a client is the variant a transport literal asks for. */
  predicate ClientMatches(t: Transport, cl: Client)
  {
    match t
    case Stdio => cl.StdioClient?
    case StreamableHttp => cl.StreamableHttpClient?
    case Sse => cl.SseClient?
  }

  /** The client-selection `if`/`elif` chain of `mcp_tool`. */
  function SelectClient(f: TransportFields): (r: Result<Connection, ConfigError>)
    // only the three transport literals select a client
    ensures r.Failure? <==> f.transportType !in {"stdio", "streamable-http", "sse"}
    ensures r.Failure? ==> r.error == InvalidTransport(f.transportType)
    ensures r.Success? ==> ClientMatches(if f.transportType == "stdio" then Stdio
                                         else if f.transportType == "sse" then Sse
                                         else StreamableHttp, r.value.client)
    // a URL client connects to exactly the text reported as its source
    ensures r.Success? && !r.value.client.StdioClient? ==>
              r.value.client.url == r.value.source == TextOf(f.url)
    // the stdio client gets the resolved command, args and env unchanged,
    // and its source is the command, a space, then the space-joined args
    ensures r.Success? && r.value.client.StdioClient? ==>
              r.value.client == StdioClient(f.command, f.args, f.env)
              && r.value.source == TextOf(f.command) + " " + JoinArgs(f.args)
  {
    if f.transportType == "stdio" then
      Success(Connection(StdioClient(f.command, f.args, f.env), TextOf(f.command) + " " + JoinArgs(f.args)))
    else if f.transportType == "streamable-http" then
      var source := TextOf(f.url);
      Success(Connection(StreamableHttpClient(source), source))
    else if f.transportType == "sse" then
      var source := TextOf(f.url);
      Success(Connection(SseClient(source), source))
    else
      Failure(InvalidTransport(f.transportType))
  }

  /** Resolution followed by client selection. */
  function Connect(c: ToolConfig, getServer: string -> ServerRecord): (r: Result<Connection, ConfigError>)
    // only the two errors of `mcp_tool` itself can arise here
    ensures r.Failure? ==> r.error.NotMcpServer? || r.error.InvalidTransport?
    // the wrapper's own transport is always one of the three literals
    ensures c.server.None? ==> r.Success?
    // a referenced server connects exactly when it is "mcp" with a known transport
    ensures c.server.Some? ==>
              var s := getServer(c.server.value);
              (r.Success? <==> s.serverType == "mcp" && s.transportType in {"stdio", "streamable-http", "sse"})
  {
    match ResolveTransport(c, getServer)
    case Failure(e) => Failure(e)
    case Success(f) => SelectClient(f)
  }

  /** An accepted direct configuration always yields the client its
      transport names, built from its own fields. */
  lemma ConnectDirect(c: ToolConfig, getServer: string -> ServerRecord)
    requires PostInit(c) == Success(Direct)
    ensures Connect(c, getServer).Success?
    ensures ClientMatches(c.transportType, Connect(c, getServer).value.client)
    ensures c.transportType.Stdio? ==>
              Connect(c, getServer).value.client == StdioClient(c.command, c.args, c.env) && Truthy(c.command)
    ensures !c.transportType.Stdio? ==>
              Connect(c, getServer).value.source == c.url.value
  {
  }

  /** A reference to a validated MCP server configuration registered with
      type "mcp" always yields the client that server's transport names,
      built from the server's fields; the wrapper's own fields play no part. */
  lemma ConnectByReference(c: ToolConfig, getServer: string -> ServerRecord, s: McpServer.ServerConfig)
    requires PostInit(c).Success? && PostInit(c).value.ByReference?
    requires getServer(c.server.value) == RecordOf("mcp", s)
    requires McpServer.PostInit(s).Pass?
    ensures Connect(c, getServer).Success?
    ensures ClientMatches(s.transportType, Connect(c, getServer).value.client)
    ensures s.transportType.Stdio? ==> Connect(c, getServer).value.client == StdioClient(s.command, s.args, s.env)
    ensures !s.transportType.Stdio? ==> Connect(c, getServer).value.source == s.url.value
  {
  }

  /** The tool found on the server: its name, its description (which the
      wrapper may replace) and its input schema (which nothing replaces). */
  class ToolClient<S> {
    const name: string
    var description: string
    const inputSchema: S

    constructor (name: string, description: string, inputSchema: S)
      ensures this.name == name && this.description == description && this.inputSchema == inputSchema
    {
      this.name := name;
      this.description := description;
      this.inputSchema := inputSchema;
    }

    method SetDescription(description: string)
      modifies this
      ensures this.description == description
    {
      this.description := description;
    }
  }

  /** What the wrapper hands to the framework: a description and a schema. */
  datatype FunctionInfo<S> = FunctionInfo(description: string, inputSchema: S)

  /** The description exposed for a discovered tool: a configured
      description replaces the discovered one only when it is non-empty. */
  function OverriddenDescription(discovered: string, configured: Option<string>): (d: string)
    ensures Truthy(configured) ==> d == configured.value
    ensures d != discovered ==> Truthy(configured) && d == configured.value
  {
    if Truthy(configured) then configured.value else discovered
  }

  /** Applies the description override to the discovered tool and builds
      the function the framework sees, with the tool's own schema. */
  method Expose<S>(tool: ToolClient<S>, configured: Option<string>) returns (info: FunctionInfo<S>)
    modifies tool
    ensures tool.description == OverriddenDescription(old(tool.description), configured)
    ensures info == FunctionInfo(tool.description, tool.inputSchema)
  {
    if Truthy(configured) {
      tool.SetDescription(configured.value);
    }
    info := FunctionInfo(tool.description, tool.inputSchema);
  }

  /** `mcp_tool` up to the point where it yields: resolve the transport,
      select the client and, given the tool discovered over it, expose it.
      Any configuration error is raised before the tool is touched. */
  method Setup<S>(c: ToolConfig, getServer: string -> ServerRecord, tool: ToolClient<S>)
    returns (r: Result<(Connection, FunctionInfo<S>), ConfigError>)
    modifies tool
    ensures Connect(c, getServer).Failure? ==>
              r == Failure(Connect(c, getServer).error) && tool.description == old(tool.description)
    ensures Connect(c, getServer).Success? ==>
              tool.description == OverriddenDescription(old(tool.description), c.description)
              && r == Success((Connect(c, getServer).value, FunctionInfo(tool.description, tool.inputSchema)))
  {
    var resolved := ResolveTransport(c, getServer);
    if resolved.Failure? {
      return Failure(resolved.error);
    }
    var selected := SelectClient(resolved.value);
    if selected.Failure? {
      return Failure(selected.error);
    }
    var info := Expose(tool, c.description);
    r := Success((selected.value, info));
  }

  /** What `_response_fn` does from the caller's side: return a text, or
      raise an exception whose message is given. */
  datatype Reply = Returned(text: string) | Raised(error: string)

  /** The body of the `try`: a typed input is dumped and sent as is;
      otherwise the keyword arguments are validated against `schema` and,
      when validation succeeds, the keyword arguments themselves are sent.
      `dump`, `validate` and `call` are `model_dump`, `model_validate` and
      the remote call, each of which either returns or fails with a
      message. */
  function Attempt<S, T, P>(toolInput: Option<T>, kwargs: P, schema: S, dump: T -> Result<P, string>,
                            validate: S -> P -> Result<T, string>, call: P -> Result<string, string>)
    : (r: Result<string, string>)
    // a success is the remote tool's answer to the dump or to the raw
    // keyword arguments, the latter only once they passed validation
    ensures r.Success? && toolInput.Some? ==>
              dump(toolInput.value).Success? && r == call(dump(toolInput.value).value)
    ensures r.Success? && toolInput.None? ==>
              validate(schema)(kwargs).Success? && r == call(kwargs)
    // a failure is the dump's, the validation's or the call's
    ensures r.Failure? && toolInput.Some? ==>
              if dump(toolInput.value).Failure? then r == Failure(dump(toolInput.value).error)
              else r == call(dump(toolInput.value).value)
    ensures r.Failure? && toolInput.None? ==>
              if validate(schema)(kwargs).Failure? then r == Failure(validate(schema)(kwargs).error)
              else r == call(kwargs)
  {
    if toolInput.Some? then
      var args :- dump(toolInput.value);
      call(args)
    else
      var _ :- validate(schema)(kwargs);
      call(kwargs)
  }

  /** With a typed input, the keyword arguments, the schema and the
      validator play no part: a failing dump is the outcome, otherwise the
      call on the dump. */
  lemma TypedInputSkipsValidation<S, T, P>(t: T, kwargs1: P, kwargs2: P, schema1: S, schema2: S,
                                           dump: T -> Result<P, string>,
                                           validate1: S -> P -> Result<T, string>, validate2: S -> P -> Result<T, string>,
                                           call: P -> Result<string, string>)
    ensures Attempt(Some(t), kwargs1, schema1, dump, validate1, call)
            == Attempt(Some(t), kwargs2, schema2, dump, validate2, call)
    ensures dump(t).Success? ==> Attempt(Some(t), kwargs1, schema1, dump, validate1, call) == call(dump(t).value)
    ensures dump(t).Failure? ==> Attempt(Some(t), kwargs1, schema1, dump, validate1, call) == Failure(dump(t).error)
  {
  }

  /** Without a typed input, failed validation against the schema is the
      outcome and the remote tool is not consulted; successful validation
      sends the raw keyword arguments, not the validated value. */
  lemma ValidationGuardsCall<S, T, P>(kwargs: P, schema: S, dump: T -> Result<P, string>,
                                      validate: S -> P -> Result<T, string>,
                                      call1: P -> Result<string, string>, call2: P -> Result<string, string>)
    ensures validate(schema)(kwargs).Failure? ==>
              Attempt(None, kwargs, schema, dump, validate, call1) == Attempt(None, kwargs, schema, dump, validate, call2)
              == Failure(validate(schema)(kwargs).error)
    ensures validate(schema)(kwargs).Success? ==> Attempt(None, kwargs, schema, dump, validate, call1) == call1(kwargs)
  {
  }

  /** The `except Exception` clause: every failure is either returned as
      its message (when `return_exception` is set) or re-raised unchanged. */
  function Contain(returnException: bool, attempt: Result<string, string>): (r: Reply)
    // with return_exception the wrapper never raises
    ensures returnException ==> r.Returned?
    // it raises exactly when the attempt failed and return_exception is off
    ensures r.Raised? <==> !returnException && attempt.Failure?
    // the re-raised exception is the original one
    ensures r.Raised? ==> r.error == attempt.error
    // success passes through; a contained failure is its message, verbatim
    ensures r.Returned? ==> r.text == (if attempt.Success? then attempt.value else attempt.error)
  {
    match attempt
    case Success(v) => Returned(v)
    case Failure(e) => if returnException then Returned(e) else Raised(e)
  }

  /** `_response_fn` of the exposed function `info`: the attempt inside
      `try`, validating keyword arguments against the schema `info`
      exposes, then `except Exception`. Before returning a contained
      failure of a typed input, the handler dumps the input again for its
      log line; when dumping is what failed, it fails again there and that
      exception escapes. */
  function Respond<S, T, P>(info: FunctionInfo<S>, toolInput: Option<T>, kwargs: P, returnException: bool,
                            dump: T -> Result<P, string>, validate: S -> P -> Result<T, string>,
                            call: P -> Result<string, string>): (reply: Reply)
    // keyword arguments the exposed schema rejects never reach the remote tool
    ensures toolInput.None? && validate(info.inputSchema)(kwargs).Failure? ==>
              reply == Contain(returnException, Failure(validate(info.inputSchema)(kwargs).error))
    // without return_exception, the containment policy alone decides
    ensures !returnException ==>
              reply == Contain(false, Attempt(toolInput, kwargs, info.inputSchema, dump, validate, call))
    // with it, the reply is raised exactly when a typed input cannot be dumped
    ensures returnException ==> (reply.Raised? <==> toolInput.Some? && dump(toolInput.value).Failure?)
    ensures returnException && reply.Raised? ==> reply.error == dump(toolInput.value).error
    // every returned reply is what the containment policy returns
    ensures reply.Returned? ==>
              reply == Contain(returnException, Attempt(toolInput, kwargs, info.inputSchema, dump, validate, call))
  {
    var attempt := Attempt(toolInput, kwargs, info.inputSchema, dump, validate, call);
    if attempt.Failure? && returnException && toolInput.Some? && dump(toolInput.value).Failure? then
      Raised(dump(toolInput.value).error)
    else
      Contain(returnException, attempt)
  }

  /** Under the default `return_exception` of a tool configuration, the
      function raises only when a typed input cannot be dumped; every other
      failure comes back as its message. */
  lemma DefaultReturnsErrors<S, T, P>(toolName: string, info: FunctionInfo<S>, toolInput: Option<T>, kwargs: P,
                                      dump: T -> Result<P, string>, validate: S -> P -> Result<T, string>,
                                      call: P -> Result<string, string>)
    ensures var reply := Respond(info, toolInput, kwargs, DefaultToolConfig(toolName).returnException,
                                 dump, validate, call);
            && (reply.Raised? <==> toolInput.Some? && dump(toolInput.value).Failure?)
            && (reply.Returned? && Attempt(toolInput, kwargs, info.inputSchema, dump, validate, call).Failure? ==>
                  reply.text == Attempt(toolInput, kwargs, info.inputSchema, dump, validate, call).error)
  {
  }
}
