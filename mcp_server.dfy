/**
 * tools/mcp_server.py: the single-agent server. It answers only inline tool
 * calls: one reply per call found in the message, none when there is none.
 */
module McpServer {
  import opened Values
  import opened ToolUtils
  import opened FileSystem
  import opened ToolRegistry
  import BaseTool
  import opened ToolLoop

  class MCPServer {
    /** `self.tools`, with the state of the tools in it. */
    const toolbox: Toolbox

    ghost predicate Valid()
      reads this, toolbox, toolbox.runCommand
    {
      toolbox.Valid()
    }

    /** `__init__`: the five tools registered by name over the host's disk. */
    constructor (disk: Disk)
      ensures Valid() && fresh(toolbox) && toolbox.disk == disk
      ensures toolbox.tools == RegistryOf(Constructed) && toolbox.order == OrderOf(Constructed)
    {
      toolbox := new Toolbox(disk);
    }

    /**
     * `process_message`: the calls extracted from the message are answered
     * in order until one raises, each by its tool's result on the state the
     * calls before it left; a message without calls gets no reply.
     */
    method ProcessMessage(message: string, host: Host) returns (replies: seq<string>, ghost outcomes: seq<Outcome<Json>>)
      requires Valid()
      modifies toolbox.runCommand, toolbox.disk
      ensures Valid()
      ensures Session(replies, outcomes, toolbox.State())
        == AnswerAll(ToolStep(toolbox.tools, host), ToolCalls(message, host.parse), host.dumps, old(toolbox.State()))
      ensures Answered(ToolCalls(message, host.parse), replies, outcomes, host.dumps)
      ensures ToolCalls(message, host.parse) == [] ==> replies == [] && unchanged(toolbox.runCommand, toolbox.disk)
    {
      var calls := ExtractToolCalls(message, host.parse);
      replies, outcomes := toolbox.AnswerCalls(calls, host);
    }

    /** `get_tool_definitions` */
    function ToolDefinitions(): (r: Json)
      reads this, toolbox
      ensures r.JObj? && Keys(r.fields) == toolbox.order
      ensures Keyed(toolbox.tools, toolbox.order) ==>
        forall i :: 0 <= i < |toolbox.order| ==> r.fields[i].1 == BaseTool.ToDict(InfoOf(toolbox.tools[toolbox.order[i]]))
    {
      toolbox.Definitions()
    }
  }
}
