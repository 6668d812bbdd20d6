/** Types shared by the MCP server configuration and the MCP tool wrapper:
    the transport literal, URLs, Python truthiness of optional strings and
    the `ValueError`s raised while validating or resolving a configuration. */
module McpConfig {
  import opened Wrappers

  /** The pydantic literal `Literal["sse", "stdio", "streamable-http"]`. */
  datatype Transport = Sse | Stdio | StreamableHttp

  /** The text of a transport literal, as the configuration spells it. */
  function LiteralText(t: Transport): string
  {
    match t
    case Sse => "sse"
    case Stdio => "stdio"
    case StreamableHttp => "streamable-http"
  }

  /** The text of a parsed `HttpUrl`. Parsing never yields an empty URL,
      so a present URL is always truthy. */
  type Url = s: string | |s| > 0 witness "http://localhost/"

  /** Python truthiness of `str | None`: `None` and `""` are falsy. */
  predicate Truthy(s: Option<string>)
  {
    s.Some? && s.value != ""
  }

  /** `str(x)` of an optional string: `None` prints as "None". */
  function TextOf(s: Option<string>): string
  {
    match s
    case None => "None"
    case Some(v) => v
  }

  /** The `ValueError`s raised by configuration validation and resolution. */
  datatype ConfigError =
    | NoSource                  // neither a server reference nor direct fields
    | BothSources               // a server reference and url/command together
    | DirectFieldsWithReference // args/env set beside a server reference
    | StdioUrlSet               // stdio with a url
    | StdioCommandRequired      // stdio with a missing or empty command
    | RemoteForbiddenFields     // sse/streamable-http with command, args or env
    | RemoteUrlRequired         // sse/streamable-http without a url
    | NotMcpServer(server: string)
    | InvalidTransport(transport: string)

  /** The message each error is raised with. */
  function Message(e: ConfigError): string
  {
    match e
    case NoSource => "Either server reference or direct configuration must be provided"
    case BothSources => "Cannot use both server reference and direct configuration"
    case DirectFieldsWithReference => "Direct configuration fields should not be set when using server reference"
    case StdioUrlSet => "url should not be set when using stdio transport type"
    case StdioCommandRequired => "command is required when using stdio transport type"
    case RemoteForbiddenFields => "command, args, and env should not be set when using sse/streamable-http transport type"
    case RemoteUrlRequired => "url is required when using sse/streamable-http transport type"
    case NotMcpServer(server) => "Server " + server + " is not an MCP server"
    case InvalidTransport(transport) => "Invalid transport type: " + transport
  }

  /** The two parametrised messages quote their subject verbatim, so the
      server name or transport can be read back from the message. */
  lemma MessageQuotesSubject(e: ConfigError)
    ensures e.NotMcpServer? ==>
              var m := Message(e);
              |m| >= 7 + |e.server| && m[..7] == "Server " && m[7..7 + |e.server|] == e.server
              && m[7 + |e.server|..] == " is not an MCP server"
    ensures e.InvalidTransport? ==>
              var m := Message(e);
              |m| >= 24 && m[..24] == "Invalid transport type: " && m[24..] == e.transport
  {
  }

  /** Two "not an MCP server" errors, or two "Invalid transport type"
      errors, raised with the same text quote the same subject. */
  lemma MessageIdentifiesSubject(e1: ConfigError, e2: ConfigError)
    requires Message(e1) == Message(e2)
    requires (e1.NotMcpServer? && e2.NotMcpServer?) || (e1.InvalidTransport? && e2.InvalidTransport?)
    ensures e1 == e2
  {
    MessageQuotesSubject(e1);
    MessageQuotesSubject(e2);
    if e1.NotMcpServer? {
      assert |e1.server| == |e2.server|;
    }
  }

  /** The per-transport field rules, stated declaratively: stdio needs a
      non-empty command and no url; the URL transports need a url and none
      of command, args or env (an empty list or map still counts as set). */
  predicate TransportFieldsOk(t: Transport, url: Option<Url>, command: Option<string>,
                              args: Option<seq<string>>, env: Option<map<string, string>>)
  {
    match t
    case Stdio => url.None? && command.Some? && command.value != ""
    case _ => url.Some? && command.None? && args.None? && env.None?
  }
}
