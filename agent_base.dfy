/**
 * tools/agent_base.py: the fields every agent is built with, its dictionary
 * form and its system prompt, plus the two pieces of the `process` methods
 * that all four agents share: reading `message["action"]` and the reply to
 * an action they do not know.
 */
module AgentBase {
  import opened Text
  import opened Values
  import opened ToolUtils
  import BaseTool

  /** An agent's name, description and tools; set once by the constructor. */
  datatype AgentInfo = AgentInfo(name: string, description: string, tools: seq<BaseTool.ToolInfo>)

  /** `Agent.__init__`: a missing tool list (`None`) becomes the empty list. */
  function MakeAgent(name: string, description: string, tools: Option<seq<BaseTool.ToolInfo>>): (r: AgentInfo)
    ensures r.name == name && r.description == description
    ensures tools.None? ==> r.tools == []
    ensures tools.Some? ==> r.tools == tools.value
  {
    AgentInfo(name, description, match tools case Some(ts) => ts case None => [])
  }

  /** `[tool.to_dict() for tool in tools]` */
  function ToolDicts(tools: seq<BaseTool.ToolInfo>): (r: seq<Json>)
    ensures |r| == |tools|
    ensures forall i :: 0 <= i < |tools| ==> r[i] == BaseTool.ToDict(tools[i])
  {
    seq(|tools|, i requires 0 <= i < |tools| => BaseTool.ToDict(tools[i]))
  }

  /** `to_dict`: name, description and the tools' own dictionaries in order. */
  function ToDict(a: AgentInfo): (r: Json)
    ensures r.JObj? && Keys(r.fields) == ["name", "description", "tools"]
    ensures Lookup(r.fields, "name") == Some(JStr(a.name))
    ensures Lookup(r.fields, "description") == Some(JStr(a.description))
    ensures Lookup(r.fields, "tools") == Some(JArr(ToolDicts(a.tools)))
  {
    JObj([("name", JStr(a.name)), ("description", JStr(a.description)), ("tools", JArr(ToolDicts(a.tools)))])
  }

  /** `{tool.name: tool.to_dict() for tool in tools}`: a later tool with the same name replaces the earlier value. */
  function ToolsByName(tools: seq<BaseTool.ToolInfo>): (r: seq<(string, Json)>)
    decreases |tools|
  {
    if tools == [] then []
    else Put(ToolsByName(tools[..|tools| - 1]), tools[|tools| - 1].name, BaseTool.ToDict(tools[|tools| - 1]))
  }

  /** Every tool's name is a key of the comprehension, and each key maps to the last tool carrying it. */
  lemma {:induction false} ToolsByNameLookup(tools: seq<BaseTool.ToolInfo>, i: nat)
    requires i < |tools|
    requires forall j :: i < j < |tools| ==> tools[j].name != tools[i].name
    ensures Lookup(ToolsByName(tools), tools[i].name) == Some(BaseTool.ToDict(tools[i]))
    decreases |tools|
  {
    var last := tools[|tools| - 1];
    LookupPut(ToolsByName(tools[..|tools| - 1]), last.name, BaseTool.ToDict(last), tools[i].name);
    if i < |tools| - 1 {
      ToolsByNameLookup(tools[..|tools| - 1], i);
    }
  }

  const PromptYou := "You are the "
  const PromptIntro := "\n" + PromptYou
  const PromptAgent := " agent"
  const PromptRole := ", part of a multi-agent system.\n\n"
  const PromptTools := "\n\nYou have access to the following tools:\n"
  const PromptUsage :=
    "\n\nWhen you need to use a tool, format your request as:\n"
    + "<tool_name>{\"param1\": \"value1\", \"param2\": \"value2\"}</tool_name>\n\n"
    + "Always follow the tool's schema exactly and provide all required parameters.\n"

  /** `get_system_prompt`, with the tool table rendered by `dumps` (two-space indent in the source). */
  function SystemPrompt(a: AgentInfo, dumps: Dumper): string {
    PromptIntro + a.name + PromptAgent + PromptRole + a.description + PromptTools + dumps(JObj(ToolsByName(a.tools))) + PromptUsage
  }

  /** The prompt introduces the agent by name. */
  lemma SystemPromptNamesAgent(a: AgentInfo, dumps: Dumper)
    ensures Contains(SystemPrompt(a, dumps), PromptYou + a.name + PromptAgent)
  {
    var intro := PromptYou + a.name + PromptAgent;
    assert PromptIntro + a.name + PromptAgent == "\n" + intro;
    ContainsEnd("\n", intro);
    var s := PromptIntro + a.name + PromptAgent;
    ContainsAppend(s, PromptRole, intro);
    ContainsAppend(s + PromptRole, a.description, intro);
    ContainsAppend(s + PromptRole + a.description, PromptTools, intro);
    var t := dumps(JObj(ToolsByName(a.tools)));
    ContainsAppend(s + PromptRole + a.description + PromptTools, t, intro);
    ContainsAppend(s + PromptRole + a.description + PromptTools + t, PromptUsage, intro);
  }

  /** The prompt carries the agent's description and its tool table. */
  lemma SystemPromptCarries(a: AgentInfo, dumps: Dumper)
    ensures Contains(SystemPrompt(a, dumps), a.description)
    ensures Contains(SystemPrompt(a, dumps), dumps(JObj(ToolsByName(a.tools))))
  {
    var head := PromptIntro + a.name + PromptAgent + PromptRole;
    var t := dumps(JObj(ToolsByName(a.tools)));
    ContainsEnd(head, a.description);
    ContainsAppend(head + a.description, PromptTools, a.description);
    ContainsAppend(head + a.description + PromptTools, t, a.description);
    ContainsAppend(head + a.description + PromptTools + t, PromptUsage, a.description);
    ContainsEnd(head + a.description + PromptTools, t);
    ContainsAppend(head + a.description + PromptTools + t, PromptUsage, t);
  }

  // ---- shared by the agents' `process` ----

  /** `message.get("action", "")`; a message that is not a dict has no `get`. */
  function ActionOf(message: Json): (r: Outcome<Json>)
    ensures r.Raise? <==> !message.JObj?
    ensures message.JObj? && "action" !in Keys(message.fields) ==> r == Ok(JStr(""))
  {
    Get(message, "action", JStr(""))
  }

  /** `d.get(k, default)` on a dict. */
  function Field(fields: seq<(string, Json)>, k: string, default: Json): (r: Json)
    ensures k !in Keys(fields) ==> r == default
    ensures k in Keys(fields) ==> Some(r) == Lookup(fields, k)
  {
    match Lookup(fields, k) case Some(v) => v case None => default
  }

  /** The reply to an action the agent does not handle. */
  function UnknownAction(action: Json, available: seq<string>): (r: Json)
    ensures r.JObj? && Lookup(r.fields, "status") == Some(JStr("error"))
    ensures Keys(r.fields) == ["status", "message", "available_actions"]
    ensures r.fields[1].1 == JStr("Unknown action: " + Str(action)) && r.fields[2].1 == Strings(available)
  {
    ErrorReplyWith("Unknown action: " + Str(action), "available_actions", Strings(available))
  }

  /** `{"status": "success", ...}` */
  function Success(fields: seq<(string, Json)>): (r: Json)
    ensures r.JObj? && |r.fields| == |fields| + 1 && r.fields[0] == ("status", JStr("success"))
  {
    JObj([("status", JStr("success"))] + fields)
  }

  predicate IsSuccess(r: Json) {
    r.JObj? && Lookup(r.fields, "status") == Some(JStr("success"))
  }

  predicate IsError(r: Json, m: string) {
    r == ErrorReply(m)
  }
}
