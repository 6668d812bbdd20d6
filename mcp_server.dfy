/** The MCP server configuration record and its post-construction
    validation (`MCPServerConfig.model_post_init`). */
module McpServer {
  import opened Wrappers
  import opened McpConfig

  /** `MCPServerConfig`: the transport defaults to `sse`, every other field
      to `None`. */
  datatype ServerConfig = ServerConfig(
    transportType: Transport,
    url: Option<Url>,
    command: Option<string>,
    args: Option<seq<string>>,
    env: Option<map<string, string>>)

  /** A server configuration with every field left at its default. */
  function DefaultServerConfig(): ServerConfig
  {
    ServerConfig(Sse, None, None, None, None)
  }

  /** The checks of `model_post_init`, in source order: the first failing
      check is the error raised. */
  function PostInit(c: ServerConfig): (r: Outcome<ConfigError>)
    // accepted exactly when the declarative per-transport rules hold
    ensures r.Pass? <==> TransportFieldsOk(c.transportType, c.url, c.command, c.args, c.env)
    // stdio: the url check comes before the command check
    ensures c.transportType.Stdio? && c.url.Some? ==> r == Fail(StdioUrlSet)
    ensures c.transportType.Stdio? && c.url.None? && !Truthy(c.command) ==> r == Fail(StdioCommandRequired)
    // sse/streamable-http: the forbidden-fields check comes before the url check
    ensures !c.transportType.Stdio? && (c.command.Some? || c.args.Some? || c.env.Some?) ==> r == Fail(RemoteForbiddenFields)
    ensures !c.transportType.Stdio? && c.command.None? && c.args.None? && c.env.None? && c.url.None?
            ==> r == Fail(RemoteUrlRequired)
    // only the four per-transport errors can be raised here
    ensures r.Fail? ==> r.error in {StdioUrlSet, StdioCommandRequired, RemoteForbiddenFields, RemoteUrlRequired}
  {
    if c.transportType == Stdio then
      if c.url.Some? then Fail(StdioUrlSet)
      else if !Truthy(c.command) then Fail(StdioCommandRequired)
      else Pass
    else if c.transportType in {StreamableHttp, Sse} then
      if c.command.Some? || c.args.Some? || c.env.Some? then Fail(RemoteForbiddenFields)
      else if !Truthy(c.url) then Fail(RemoteUrlRequired)
      else Pass
    else
      Pass
  }

  /** With the default transport `sse`, a configuration that sets nothing
      is rejected for its missing url, and one that sets only an empty
      argument list is rejected for a forbidden field. */
  lemma DefaultsRejected()
    ensures PostInit(DefaultServerConfig()) == Fail(RemoteUrlRequired)
    ensures PostInit(DefaultServerConfig().(args := Some([]))) == Fail(RemoteForbiddenFields)
    ensures PostInit(DefaultServerConfig().(env := Some(map[]))) == Fail(RemoteForbiddenFields)
  {
  }
}
