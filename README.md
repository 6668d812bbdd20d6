# MCP tool wrapper, MCP server configuration and calculator tools — a Dafny model

This project models the decision logic of three parts of the AIQ toolkit.
It proves properties of that logic with Dafny.

- **MCP tool wrapper** (`src/aiq/tool/mcp/mcp_tool.py`, module `McpTool`).
  The wrapper connects to a Model Context Protocol (MCP) server and exposes one remote tool as a toolkit function.
  The model covers:
  - the configuration's post-construction validation;
  - resolution of the transport fields from a server reference or from the inline fields;
  - client selection and its `source` text;
  - the description override;
  - the call and containment policy of `_response_fn`.
- **MCP server configuration** (`src/aiq/servers/mcp_server.py`, module `McpServer`).
  The model covers the per-transport validation of `MCPServerConfig`.
- **Simple calculator** (`examples/simple_calculator/src/aiq_simple_calculator/register.py`, module `Calculator`).
  The model covers:
  - number extraction with `re.findall(r"\d+", …)`;
  - `validate_number_count`;
  - the comparison, product and difference tools;
  - the "fewer than 2 numbers" reply of the composite calculator.

Shared pieces:
- `McpConfig` holds what both MCP modules use: the transport literal, URLs, Python truthiness of optional strings, and the `ValueError`s with their exact messages.
- `Wrappers` holds `Option`, `Result` and `Outcome`.

How the model represents the source:
- A raised `ValueError` is a `Failure`/`Fail` value.
- `builder.get_server` is a function parameter.
- Schema validation, `model_dump` and the remote `acall` are function parameters. Each either returns a value or fails with a message.
- `int()` and `str()` on integers raise `ValueError` beyond Python's default limit of 4300 digits (`sys.get_int_max_str_digits()`). The calculator tools model that limit.
- The tool discovered over the connection is an object of class `ToolClient`. The wrapper changes its description in place.

Behaviour of the code worth noting:
- `except Exception` at `mcp_tool.py:155` catches every subclass of `Exception` raised by the dump, the validation or the call. `McpTool.Contain` models exactly that.
- With `return_exception` set, the handler dumps a typed input a second time for its log line (`mcp_tool.py:158-161`). If dumping is what failed, it fails again there, and that exception escapes the handler. `McpTool.Respond` models this.
- A typed `tool_input` is not validated again. It is dumped and sent as it is. Keyword arguments are validated, but the raw keyword arguments are sent, not the validated value (`mcp_tool.py:149-154`).
- A server reference combined with inline `args` or `env` raises its own error ("Direct configuration fields should not be set…"). A reference combined with `url` or `command` raises "Cannot use both…". An inline `transport_type` beside a reference is not checked, since it always has a value (`sse` by default).

## Model

| member | source | states |
|---|---|---|
| `McpServer.PostInit` | src/aiq/servers/mcp_server.py:41-51 | accepted exactly when the per-transport rules hold. For stdio, the url check comes before the command check. For sse/streamable-http, the forbidden-fields check comes before the url check. Only these four errors can arise. |
| `McpServer.DefaultsRejected` | src/aiq/servers/mcp_server.py:29-51 | with the default transport `sse`, an empty configuration fails for its missing url. An empty `args` list or `env` map still counts as set and is rejected. |
| `McpConfig.MessageQuotesSubject` | src/aiq/tool/mcp/mcp_tool.py:108-133 | `Message` holds the exact `ValueError` texts of `mcp_server.py:43-51` and `mcp_tool.py:70-91`, `108` and `133`. The two parametrised ones are "Server " + name + " is not an MCP server" and "Invalid transport type: " + transport, with the subject quoted verbatim. |
| `McpConfig.MessageIdentifiesSubject` | src/aiq/tool/mcp/mcp_tool.py:108-133 | two "not an MCP server" errors, or two "Invalid transport type" errors, with the same message quote the same server or transport. |
| `McpTool.DirectCheck` | src/aiq/tool/mcp/mcp_tool.py:81-91 | the direct branch accepts exactly the fields the per-transport rules allow. A url with stdio is the first error. Command, args or env with a URL transport is the first error. |
| `McpTool.DirectCheckMatchesServer` | src/aiq/servers/mcp_server.py:41-51 | the wrapper's direct checks and the server configuration's checks give the same verdict and the same first error on every input. |
| `McpTool.PostInit` | src/aiq/tool/mcp/mcp_tool.py:61-91 | accepted exactly in two shapes: a bare server reference, or no reference with valid direct fields. It reports which shape was accepted. It gives the specific error for no source, for both sources, and for args/env beside a reference. Otherwise the first direct-check error. |
| `McpTool.DefaultTransportRejectsCommandOnly` | src/aiq/tool/mcp/mcp_tool.py:41-91 | with the default transport, a command-only configuration fails on forbidden fields. An args-only or empty configuration fails for having no source. |
| `McpTool.ResolveTransport` | src/aiq/tool/mcp/mcp_tool.py:104-120 | fails exactly when the referenced server's type is not "mcp". All five fields come from the server, or all from the wrapper. Sources are never mixed. |
| `McpTool.JoinArgs` | src/aiq/tool/mcp/mcp_tool.py:124 | missing or empty args give the empty string. A single argument gives itself. |
| `McpTool.JoinArgsConcat` | src/aiq/tool/mcp/mcp_tool.py:124 | joining two non-empty lists puts exactly one space between their joined texts. With the single-argument case, this fixes the text for every list. |
| `McpTool.SelectClient` | src/aiq/tool/mcp/mcp_tool.py:122-133 | only "stdio", "streamable-http" and "sse" select a client; anything else is an invalid transport. The client variant matches the transport. A URL client connects to exactly its `source` text. The stdio client gets command, args and env unchanged, with source `command + " " + joined args`. |
| `McpTool.Connect` | src/aiq/tool/mcp/mcp_tool.py:104-133 | only "not an MCP server" and "Invalid transport type" can arise. The wrapper's own fields always connect, since its transport is one of the three literals. A referenced server connects exactly when its type is "mcp" and its transport is one of the three literals. |
| `McpTool.ConnectDirect` | src/aiq/tool/mcp/mcp_tool.py:104-133 | every accepted direct configuration selects the client its transport names. A stdio client gets a non-empty command. A URL client's source is the configured URL. |
| `McpTool.ConnectByReference` | src/aiq/tool/mcp/mcp_tool.py:105-133 | a reference to a validated server configuration of type "mcp" always connects. The client is built from the server's fields, and the invalid-transport branch is never reached. |
| `McpTool.ToolClient.SetDescription` | src/aiq/tool/mcp/mcp_tool.py:139 | the tool's description becomes the given text. Name and schema are constants. |
| `McpTool.OverriddenDescription` | src/aiq/tool/mcp/mcp_tool.py:138-139 | a non-empty configured description always wins. The description changes only to a non-empty configured one. |
| `McpTool.Expose` | src/aiq/tool/mcp/mcp_tool.py:138-171 | the tool's description is overridden as above. The exposed function carries that description and the tool's own input schema. |
| `McpTool.Setup` | src/aiq/tool/mcp/mcp_tool.py:104-171 | a configuration error from resolution or client selection is raised before the tool is touched. Otherwise the tool's description becomes the overridden one, and it yields the selected client and the exposed function with that description and the tool's schema. |
| `McpTool.Attempt` | src/aiq/tool/mcp/mcp_tool.py:148-154 | a success is the remote tool's answer to the typed input's dump, or to the raw keyword arguments once they passed validation against the given schema. A failure is the dump's, the validation's or the call's, in that order. |
| `McpTool.TypedInputSkipsValidation` | src/aiq/tool/mcp/mcp_tool.py:149-151 | with a typed input, the keyword arguments, the schema and the validator play no part. A failing dump is the outcome; otherwise the outcome is the call on the dump. |
| `McpTool.ValidationGuardsCall` | src/aiq/tool/mcp/mcp_tool.py:153-154 | without a typed input, failed validation is the outcome whatever the remote tool would do. Successful validation sends the raw keyword arguments. |
| `McpTool.Contain` | src/aiq/tool/mcp/mcp_tool.py:155-166 | with `return_exception`, nothing is raised. It raises exactly when the attempt failed and `return_exception` is off, and it re-raises the original error. A contained failure is returned as its message, verbatim. A success passes through unchanged. |
| `McpTool.DefaultReturnsErrors` | src/aiq/tool/mcp/mcp_tool.py:55-166 | under the default `return_exception = True` of a tool configuration, the function raises only when a typed input cannot be dumped. Every other failure comes back as its message. |
| `McpTool.Respond` | src/aiq/tool/mcp/mcp_tool.py:146-170 | keyword arguments are validated against the schema of the exposed function (`Setup` shows that this is the discovered tool's schema), and arguments it rejects never reach the remote tool. Without `return_exception`, the reply is the containment policy applied to the attempt. With it, the reply is raised exactly when a typed input cannot be dumped, with the dump's error. Every returned reply is what the containment policy returns. |
| `Calculator.DigitPrefixLength` | examples/simple_calculator/src/aiq_simple_calculator/register.py:53 | the longest digit prefix: all digits, followed by a non-digit or the end, and non-empty when the text starts with a digit. |
| `Calculator.FindDigitRuns` | examples/simple_calculator/src/aiq_simple_calculator/register.py:53 | every number found is a non-empty string of digits. |
| `Calculator.RunsDecompose` | examples/simple_calculator/src/aiq_simple_calculator/register.py:53 | every text is its found numbers in order, interleaved with digit-free gaps, and the gaps between two numbers are non-empty. |
| `Calculator.RunsUnique` | examples/simple_calculator/src/aiq_simple_calculator/register.py:53 | any such decomposition of a text yields exactly the numbers found. So the numbers found are the maximal digit runs, left to right. |
| `Calculator.DecimalValue` | examples/simple_calculator/src/aiq_simple_calculator/register.py:57-58 | the value `int()` gives a digit run is zero exactly when every digit is '0'. With `PrintParse` and `ParsePrint` it is the inverse of `str()`. |
| `Calculator.NatToDecimal` | examples/simple_calculator/src/aiq_simple_calculator/register.py:60 | `str(n)` is a non-empty digit string. It starts with '0' only for 0. |
| `Calculator.PrintParse` | examples/simple_calculator/src/aiq_simple_calculator/register.py:57-60 | `int(str(n)) == n`. |
| `Calculator.ParsePrint` | examples/simple_calculator/src/aiq_simple_calculator/register.py:57-60 | `str(int(ds)) == ds` for a digit string without a leading zero. |
| `Calculator.DigitsOfValue` | examples/simple_calculator/src/aiq_simple_calculator/register.py:57-58 | the value of a digit run has at most as many digits as the run. |
| `Calculator.DigitsMonotone` | examples/simple_calculator/src/aiq_simple_calculator/register.py:142 | a larger number never has fewer digits. |
| `Calculator.ParseInt` | examples/simple_calculator/src/aiq_simple_calculator/register.py:57-58 | `int()` of a digit run raises exactly when the run, leading zeros included, is longer than 4300 digits, and reports that length. Otherwise it gives the run's value, which prints within the limit. |
| `Calculator.PrintInt` | examples/simple_calculator/src/aiq_simple_calculator/register.py:60 | `str()` raises exactly when the absolute value has more than 4300 digits. Otherwise it gives the decimal text. |
| `Calculator.DifferenceDigits` | examples/simple_calculator/src/aiq_simple_calculator/register.py:142 | the difference of two numbers that print within the limit prints within the limit. |
| `Calculator.IntToDecimal` | examples/simple_calculator/src/aiq_simple_calculator/register.py:142 | `str(i)` starts with '-' exactly for negative `i`. The digits parse back to the absolute value and have no leading zero, except in "0". |
| `Calculator.ValidateNumberCount` | examples/simple_calculator/src/aiq_simple_calculator/register.py:35-40 | no message exactly when the count is as expected. Otherwise the "Provide at least" message for too few and the "only supports" message for too many. Messages are never empty. |
| `Calculator.ReportsDistinct` | examples/simple_calculator/src/aiq_simple_calculator/register.py:59-64 | the greater, less and equal reports for the same operands are pairwise different. |
| `Calculator.CompareNumbers` | examples/simple_calculator/src/aiq_simple_calculator/register.py:52-64 | without exactly two numbers, the count message is returned unchanged. With two, it raises exactly when `int()` refuses a number over the limit, reporting the first such number's length; printing never raises. Otherwise the result is the greater, less or equal report exactly when `a > b`, `a < b` or `a == b`. |
| `Calculator.MultiplyNumbers` | examples/simple_calculator/src/aiq_simple_calculator/register.py:82-90 | without exactly two numbers, the count message is returned unchanged. With two, `int()` raises on a number over the limit. Otherwise `str()` raises exactly when the product has more than 4300 digits, and else it reports the two numbers and their product. |
| `Calculator.SubtractNumbers` | examples/simple_calculator/src/aiq_simple_calculator/register.py:134-142 | without exactly two numbers, the count message is returned unchanged. With two, `int()` raises on a number over the limit. Otherwise it reports the two numbers and their difference, which always prints. |
| `Calculator.InterleaveGlue` | examples/simple_calculator/src/aiq_simple_calculator/register.py:53 | two decompositions glued at a joining text interleave to the two texts with the joining text between them. |
| `Calculator.NonDigitSplits` | examples/simple_calculator/src/aiq_simple_calculator/register.py:53 | for all texts `x`, `y` and every non-digit `c`, the numbers of `x + c + y` are those of `x` followed by those of `y`. |
| `Calculator.MinusSignNotCaptured` | examples/simple_calculator/src/aiq_simple_calculator/register.py:135-140 | for all texts `x` and `y`, the numbers of `x + "-" + y` are those of `x` followed by those of `y`. A minus sign is never part of an operand. |
| `Calculator.NegativeDifference` | examples/simple_calculator/src/aiq_simple_calculator/register.py:142 | subtracting 5 from 3 reports "-2". The difference may be negative. |
| `Calculator.EarlyReply` | examples/simple_calculator/src/aiq_simple_calculator/register.py:227-232 | it replies early exactly when the input holds fewer than two numbers. The reply is the time header followed by the error text, before any calculator tool is invoked; the datetime tool has already run. |
| `Calculator.EarlyReplyVersusTools` | examples/simple_calculator/src/aiq_simple_calculator/register.py:227-232 | below two numbers, the composite replies early and the tools would ask for more. Above two, it goes on to the tools, and each integer tool answers with its "only supports" message. |

## Left out

- MCP transports, handshake, tool discovery and the `async with client` lifecycle (`mcp_tool.py:99-102`, `135-137`) are asynchronous network and subprocess I/O in `aiq.tool.mcp.mcp_client`. `aiq.tool.mcp.mcp_client` is not part of this model. The discovered tool is a parameter of `McpTool.Setup`.
- Pydantic machinery is left out: `model_validate`, `model_dump`, the `_convert_from_str` converter (`model_validate_json`), and the `Literal` check that rejects other transport strings at construction. Validation, dump and the remote call are function parameters. The transport of a configuration is an enumeration.
- `HttpUrl` parsing and normalisation are left out. A URL is its text, which is never empty, so `not url` is the same as `url is None`.
- `builder.get_server` is a total function parameter. What the builder does with an unknown name is not part of this model.
- Logging calls (`mcp_tool.py:141`, `157-163`) are left out. Their only observable effect, a second failing `model_dump` of a typed input, is modelled in `McpTool.Respond`.
- `McpTool.Respond`: `model_dump` is a function, so both dumps of the same input give the same result. A dump that succeeds once and fails the second time is not modelled.
- Request-ID correlation, idempotent close and concurrent sharing of a connection are left out; none of them appears in the modelled code.
- `McpTool.Respond`: a `BaseException` that is not an `Exception` escapes the handler even with `return_exception` set. Examples are the `asyncio.CancelledError` of a cancelled `await` at `mcp_tool.py:151` or `154`, `KeyboardInterrupt` and `SystemExit`. This is not modelled: `dump`, `validate` and `call` fail only with ordinary exceptions.
- `McpTool.Respond`: the remote call is a parameter. It is not tied to the discovered tool's name (`tool.acall`, `mcp_tool.py:151`, `154`).
- `McpTool.ConnectByReference` assumes that the builder reports `server_type == "mcp"` for an MCP server configuration. `MCPServerConfig` declares no `server_type` (`mcp_server.py:25-35`), and how the builder assigns it is not part of this model.
- `if tool_input:` (`mcp_tool.py:149`, `157`) is modelled as "a typed input is present". This assumes a present pydantic input is always truthy.
- `McpTool.Respond`: an exception is represented by its message text. Its class and traceback are not modelled.
- `Calculator.ValidateNumberCount`: printing `expected_count` is not subject to the 4300-digit limit in the model. Every caller passes 2.
- The 4300-digit limit is modelled at its default. `sys.set_int_max_str_digits` and the `PYTHONINTMAXSTRDIGITS` setting are not modelled.
- `Calculator.FindDigitRuns`: `\d` and `int()` are modelled on the ASCII digits 0-9 only. Python also accepts other Unicode decimal digits.
- The division tool (`register.py:108-116`) is left out. Its result is a float, and `b = 0` raises `ZeroDivisionError`.
- The rest of `_simple_calculator` is left out: the datetime tool call, the telemetry steps (`custom_start_tool`/`custom_end_tool`, `uuid4`), the four awaited tool calls and the concatenation of their results (`register.py:216-226`, `235-247`). The current time is a parameter of `Calculator.EarlyReply`.
- Registration decorators, `FunctionInfo.create`/`from_fn`, the `mcp_server` factory (`mcp_server.py:54-60`) and `src/aiq/servers/a2a_server.py` are left out. They construct framework or server objects and hold no logic to state.
