/**
 * The tool-protocol session the scheduler borrows. Only what the scheduler
 * observes is modelled: the calls it issues, in order, and the replies. The
 * server behind the session is an oracle that may answer each call according
 * to everything asked before it.
 */
module Mcp {
  import opened Json

  /** One item of a tool result's `content` list: one with a `text` attribute, or any other kind. */
  datatype Content = TextContent(text: string) | OtherContent

  /** What a session call gives back. */
  datatype Reply =
      /** `list_tools()`: the names of the advertised tools. */
    | ToolList(names: seq<string>)
      /** `call_tool(...)`: the result's `isError` flag and `content` list. */
    | ToolResult(isError: bool, content: seq<Content>)
      /** The call raised; `message` is `str(e)`. */
    | Raised(message: string)

  /** A call issued on the session. */
  datatype Call = ListTools | CallTool(name: string, arguments: Fields)

  /** `[tool.name for tool in r.tools]`, or `[]` when the reply has no `tools` attribute. */
  function ToolNames(r: Reply): seq<string> {
    if r.ToolList? then r.names else []
  }

  /** `r.content` when the reply has one, `[]` otherwise. */
  function ContentOf(r: Reply): seq<Content> {
    if r.ToolResult? then r.content else []
  }

  /** `hasattr(r, 'isError') and r.isError`. */
  predicate ReportsError(r: Reply) {
    r.ToolResult? && r.isError
  }

  class Session {
    /** Every call issued on this session so far, oldest first. */
    var trace: seq<Call>
    /** The server: its reply to a call, given the calls that came before it. */
    const respond: (seq<Call>, Call) -> Reply

    constructor (respond: (seq<Call>, Call) -> Reply)
      ensures trace == [] && this.respond == respond
    {
      trace := [];
      this.respond := respond;
    }

    /** Issues one call and waits for its reply. */
    method Issue(c: Call) returns (r: Reply)
      modifies this
      ensures trace == old(trace) + [c]
      ensures r == respond(old(trace), c)
    {
      r := respond(trace, c);
      trace := trace + [c];
    }
  }
}
