/**
 * tools/multi_agent_mcp_server.py: the multi-agent server. A message that
 * carries inline tool calls is answered call by call, as by the single-agent
 * server. Otherwise it is read as JSON and routed on its "target": to the
 * orchestrator, to one of the agents, or refused. Each entry of the replies
 * is one `websocket.send`.
 */
module MultiAgentServer {
  import opened Values
  import opened ToolUtils
  import opened FileSystem
  import opened AgentBase
  import opened ToolRegistry
  import BaseTool
  import opened ToolLoop
  import opened Orchestration
  import MemoryBank

  const InvalidFormat := "Invalid message format. Expected either tool calls or a valid JSON message."
  const UnknownFormat := "Unknown message format. Expected either tool calls or a JSON message with a 'target' field."

  /** What `available_targets` lists: the orchestrator, then the agents. */
  const Targets := ["orchestrator"] + AgentNames

  /** The text sent for a handler's outcome: the reply, or `{"error": str(e)}` when it raised. */
  function Sent(o: Outcome<Json>, dumps: Dumper): string {
    match o
    case Ok(v) => dumps(v)
    case Raise(e) => dumps(ErrorOnly(e))
  }

  /** `get_agent_definitions`: each agent's dict under its key, in registration order. */
  function AgentDefinitions(): (r: Json)
    ensures r.JObj? && Keys(r.fields) == AgentNames
    ensures forall i :: 0 <= i < |AgentNames| ==> r.fields[i].1 == ToDict(AgentOf(AgentNames[i]))
  {
    JObj(seq(|AgentNames|, i requires 0 <= i < |AgentNames| => (AgentNames[i], ToDict(AgentOf(AgentNames[i])))))
  }

  /** `get_workflow_definitions`: the four templates under their names. */
  function WorkflowDefinitions(): (r: Json)
    ensures r.JObj? && Keys(r.fields) == TemplateNames
  {
    Definitions()
  }

  /** The message is a dict whose "target" is `target`. */
  predicate RoutedTo(j: Json, target: Json) {
    j.JObj? && "target" in Keys(j.fields) && Field(j.fields, "target", JNull) == target
  }

  /** The routed reply, the workflows and the memory bank's state after it. */
  datatype Routed = Routed(reply: string, active: map<string, Workflow>, memory: MemoryBank.Memory)

  /**
   * The JSON branch of `process_message` on a parsed message `j`, the disk
   * reading `fs`: the orchestrator answers a message whose target is
   * "orchestrator", the named agent one whose target is an agent.
   */
  function RouteResult(j: Json, host: Host, fs: Fs, active: map<string, Workflow>, mem: MemoryBank.Memory): Routed
    requires MemoryBank.Coherent(mem)
  {
    match In(JStr("target"), j)
    case Raise(e) => Routed(host.dumps(ErrorOnly(e)), active, mem)
    case Ok(has) =>
      if !has then Routed(host.dumps(ErrorReply(UnknownFormat)), active, mem)
      else match Get(j, "target", JNull)
        case Raise(e) => Routed(host.dumps(ErrorOnly(e)), active, mem)
        case Ok(target) =>
          if target == JStr("orchestrator") then
            var a := Respond(j, host.now, fs, active, mem);
            Routed(Sent(a.reply, host.dumps), a.active, a.memory)
          else match InKeys(target, AgentNames)
            case Raise(e) => Routed(host.dumps(ErrorOnly(e)), active, mem)
            case Ok(isAgent) =>
              if !isAgent then
                Routed(host.dumps(ErrorReplyWith("Unknown target: " + Str(target), "available_targets", Strings(Targets))),
                       active, mem)
              else
                var h := AgentAnswer(target.s, j, CallContext(host.now), fs, mem);
                Routed(Sent(h.reply, host.dumps), active, h.memory)
  }

  /** The refusals: no "target" key, a non-dict, an unhashable target, a target that is neither the orchestrator nor an agent. */
  lemma RouteRefusals(j: Json, host: Host, fs: Fs, active: map<string, Workflow>, mem: MemoryBank.Memory)
    requires MemoryBank.Coherent(mem)
    ensures var routed := RouteResult(j, host, fs, active, mem);
      && (In(JStr("target"), j).Raise? ==> routed == Routed(host.dumps(ErrorOnly(In(JStr("target"), j).error)), active, mem))
      && (In(JStr("target"), j) == Ok(false) ==> routed == Routed(host.dumps(ErrorReply(UnknownFormat)), active, mem))
      && (In(JStr("target"), j) == Ok(true) && !j.JObj? ==>
            routed == Routed(host.dumps(ErrorOnly(NoAttribute(j, "get"))), active, mem))
      && (j.JObj? && "target" in Keys(j.fields) && !Hashable(Field(j.fields, "target", JNull)) ==>
            routed == Routed(host.dumps(ErrorOnly(Unhashable(Field(j.fields, "target", JNull)))), active, mem))
      && (j.JObj? && "target" in Keys(j.fields) ==>
            var target := Field(j.fields, "target", JNull);
            Hashable(target) && target != JStr("orchestrator") && !(target.JStr? && target.s in AgentNames) ==>
              routed == Routed(host.dumps(ErrorReplyWith("Unknown target: " + Str(target), "available_targets",
                                                         Strings(Targets))), active, mem))
  {
  }

  /** A message for the orchestrator gets its answer; one for an agent gets that agent's. */
  lemma RouteDelivers(j: Json, host: Host, fs: Fs, active: map<string, Workflow>, mem: MemoryBank.Memory)
    requires MemoryBank.Coherent(mem)
    ensures RoutedTo(j, JStr("orchestrator")) ==>
      var a := Respond(j, host.now, fs, active, mem);
      RouteResult(j, host, fs, active, mem) == Routed(Sent(a.reply, host.dumps), a.active, a.memory)
    ensures forall name :: name in AgentNames && RoutedTo(j, JStr(name)) ==>
      var h := AgentAnswer(name, j, CallContext(host.now), fs, mem);
      RouteResult(j, host, fs, active, mem) == Routed(Sent(h.reply, host.dumps), active, h.memory)
  {
  }

  /** The refusals: no "target" key, a non-dict, an unhashable target, a target that is neither the orchestrator nor an agent. */
  ghost predicate Refused(j: Json, host: Host, reply: string) {
    && (In(JStr("target"), j).Raise? ==> reply == host.dumps(ErrorOnly(In(JStr("target"), j).error)))
    && (In(JStr("target"), j) == Ok(false) ==> reply == host.dumps(ErrorReply(UnknownFormat)))
    && (In(JStr("target"), j) == Ok(true) && !j.JObj? ==> reply == host.dumps(ErrorOnly(NoAttribute(j, "get"))))
    && (j.JObj? && "target" in Keys(j.fields) && !Hashable(Field(j.fields, "target", JNull)) ==>
          reply == host.dumps(ErrorOnly(Unhashable(Field(j.fields, "target", JNull)))))
    && (j.JObj? && "target" in Keys(j.fields) ==>
          var target := Field(j.fields, "target", JNull);
          Hashable(target) && target != JStr("orchestrator") && !(target.JStr? && target.s in AgentNames) ==>
            reply == host.dumps(ErrorReplyWith("Unknown target: " + Str(target), "available_targets", Strings(Targets))))
  }

  /**
   * The orchestrator's reply to a dict `j`, by action, when the disk reads
   * `fs`, the workflows go from `active` to `active'` and the memory bank
   * from `mem` to `mem'`.
   */
  ghost predicate OrchestratorAnswers(j: Json, host: Host, fs: Fs, active: map<string, Workflow>, mem: MemoryBank.Memory,
                                      reply: string, active': map<string, Workflow>, mem': MemoryBank.Memory)
    requires j.JObj? && MemoryBank.Coherent(mem)
  {
    var action := Field(j.fields, "action", JStr(""));
    && (action != JStr("start_workflow") ==> active' == active)
    && (action != JStr("direct_agent_call") ==> mem' == mem)
    && (action == JStr("start_workflow") ==>
          var s := StartResult(j.fields, host.now, active);
          reply == Sent(s.reply, host.dumps) && active' == s.active)
    && (action == JStr("get_workflow_status") ==> reply == Sent(WorkflowStatus(active, j.fields), host.dumps))
    && (action == JStr("list_workflows") ==> reply == host.dumps(ListWorkflows()))
    && (action == JStr("list_agents") ==> reply == host.dumps(ListAgents()))
    && (action == JStr("direct_agent_call") ==>
          var h := DirectResult(j.fields, host.now, fs, mem);
          reply == Sent(h.reply, host.dumps) && mem' == h.memory)
    && ((forall a :: a in Actions ==> action != JStr(a)) ==> reply == host.dumps(UnknownAction(action, Actions)))
  }

  /** An agent's reply to the whole message `j`: only the memory bank changes state. */
  ghost predicate AgentAnswers(j: Json, host: Host, fs: Fs, mem: MemoryBank.Memory, reply: string, mem': MemoryBank.Memory)
    requires MemoryBank.Coherent(mem)
  {
    && (forall name :: name in AgentNames && name != "memory_bank" && RoutedTo(j, JStr(name)) ==>
          reply == Sent(PureAgent(name, j, fs), host.dumps) && mem' == mem)
    && (RoutedTo(j, JStr("memory_bank")) ==>
          var h := MemoryBank.ProcessResult(mem, j, CallContext(host.now));
          reply == Sent(h.reply, host.dumps) && mem' == h.memory)
  }

  /** What the JSON branch answers: a refusal, the orchestrator's reply, or an agent's. */
  ghost predicate RouteAnswers(j: Json, host: Host, fs: Fs, active: map<string, Workflow>, mem: MemoryBank.Memory,
                               reply: string, active': map<string, Workflow>, mem': MemoryBank.Memory)
    requires MemoryBank.Coherent(mem)
  {
    && Refused(j, host, reply)
    && (RoutedTo(j, JStr("orchestrator")) ==> OrchestratorAnswers(j, host, fs, active, mem, reply, active', mem'))
    && (!RoutedTo(j, JStr("orchestrator")) ==> active' == active)
    && AgentAnswers(j, host, fs, mem, reply, mem')
  }

  /** `Respond` answers as `OrchestratorAnswers` says. */
  lemma RespondAnswers(j: Json, host: Host, fs: Fs, active: map<string, Workflow>, mem: MemoryBank.Memory)
    requires j.JObj? && MemoryBank.Coherent(mem)
    ensures var a := Respond(j, host.now, fs, active, mem);
      OrchestratorAnswers(j, host, fs, active, mem, Sent(a.reply, host.dumps), a.active, a.memory)
  {
    RespondCases(j, host.now, fs, active, mem);
  }

  lemma RouteRefusedResult(j: Json, host: Host, fs: Fs, active: map<string, Workflow>, mem: MemoryBank.Memory)
    requires MemoryBank.Coherent(mem)
    ensures Refused(j, host, RouteResult(j, host, fs, active, mem).reply)
  {
    RouteRefusals(j, host, fs, active, mem);
  }

  lemma RouteOrchestratorResult(j: Json, host: Host, fs: Fs, active: map<string, Workflow>, mem: MemoryBank.Memory)
    requires MemoryBank.Coherent(mem) && RoutedTo(j, JStr("orchestrator"))
    ensures var routed := RouteResult(j, host, fs, active, mem);
      OrchestratorAnswers(j, host, fs, active, mem, routed.reply, routed.active, routed.memory)
  {
    RouteDelivers(j, host, fs, active, mem);
    RespondAnswers(j, host, fs, active, mem);
  }

  lemma RouteAgentsResult(j: Json, host: Host, fs: Fs, active: map<string, Workflow>, mem: MemoryBank.Memory)
    requires MemoryBank.Coherent(mem)
    ensures var routed := RouteResult(j, host, fs, active, mem);
      AgentAnswers(j, host, fs, mem, routed.reply, routed.memory)
  {
    RouteDelivers(j, host, fs, active, mem);
  }

  /** Only a message for the orchestrator can change the workflows. */
  lemma RouteKeepsWorkflows(j: Json, host: Host, fs: Fs, active: map<string, Workflow>, mem: MemoryBank.Memory)
    requires MemoryBank.Coherent(mem)
    ensures !RoutedTo(j, JStr("orchestrator")) ==> RouteResult(j, host, fs, active, mem).active == active
  {
  }

  /** `RouteResult` answers as `RouteAnswers` says. */
  lemma RouteResultAnswers(j: Json, host: Host, fs: Fs, active: map<string, Workflow>, mem: MemoryBank.Memory)
    requires MemoryBank.Coherent(mem)
    ensures var routed := RouteResult(j, host, fs, active, mem);
      RouteAnswers(j, host, fs, active, mem, routed.reply, routed.active, routed.memory)
  {
    RouteRefusedResult(j, host, fs, active, mem);
    if RoutedTo(j, JStr("orchestrator")) {
      RouteOrchestratorResult(j, host, fs, active, mem);
    }
    RouteAgentsResult(j, host, fs, active, mem);
    RouteKeepsWorkflows(j, host, fs, active, mem);
  }

  class MultiAgentMCPServer {
    /** `self.tools`, with the state of the tools in it. */
    const toolbox: Toolbox
    /** `self.orchestrator`, which owns the agents and the workflows. */
    const orchestrator: Orchestrator

    ghost predicate Valid()
      reads this, toolbox, toolbox.runCommand, orchestrator, orchestrator.memory
    {
      toolbox.Valid() && orchestrator.Valid()
    }

    /** `__init__`: a fresh orchestrator, and the five tools registered by name over the host's disk. */
    constructor (disk: Disk)
      ensures Valid() && fresh(toolbox) && fresh(orchestrator) && toolbox.disk == disk
      ensures toolbox.tools == RegistryOf(Constructed) && orchestrator.active == map[]
    {
      toolbox := new Toolbox(disk);
      orchestrator := new Orchestrator();
    }

    /** `get_tool_definitions` */
    function ToolDefinitions(): (r: Json)
      reads this, toolbox
      ensures r.JObj? && Keys(r.fields) == toolbox.order
      ensures Keyed(toolbox.tools, toolbox.order) ==>
        forall i :: 0 <= i < |toolbox.order| ==> r.fields[i].1 == BaseTool.ToDict(InfoOf(toolbox.tools[toolbox.order[i]]))
    {
      toolbox.Definitions()
    }

    /**
     * `process_message`: with inline calls, only the tools run and the
     * orchestrator is not consulted; without them, one reply: the format
     * error when the text is not JSON, the routed reply otherwise.
     */
    method ProcessMessage(message: string, host: Host) returns (replies: seq<string>, ghost outcomes: seq<Outcome<Json>>)
      requires Valid()
      modifies toolbox.runCommand, toolbox.disk, orchestrator, orchestrator.memory
      ensures Valid()
      ensures var calls := ToolCalls(message, host.parse);
        && (calls != [] ==>
              && Session(replies, outcomes, toolbox.State()) == AnswerAll(ToolStep(toolbox.tools, host), calls, host.dumps, old(toolbox.State()))
              && Answered(calls, replies, outcomes, host.dumps) && unchanged(orchestrator, orchestrator.memory))
        && (calls == [] ==> |replies| == 1 && unchanged(toolbox.runCommand, toolbox.disk))
        && (calls == [] && host.parse(message).None? ==>
              replies == [host.dumps(ErrorReply(InvalidFormat))] && unchanged(orchestrator, orchestrator.memory))
      ensures var calls := ToolCalls(message, host.parse);
        calls == [] && host.parse(message).Some? ==>
          var routed := RouteResult(host.parse(message).value, host, old(toolbox.disk.View()),
                                    old(orchestrator.active), old(orchestrator.memory.State()));
          replies == [routed.reply] && orchestrator.active == routed.active && orchestrator.memory.State() == routed.memory
    {
      var calls := ExtractToolCalls(message, host.parse);
      if calls != [] {
        replies, outcomes := toolbox.AnswerCalls(calls, host);
        assert unchanged(orchestrator, orchestrator.memory);
        return;
      }
      outcomes := [];
      match host.parse(message)
      case None =>
        replies := [host.dumps(ErrorReply(InvalidFormat))];
      case Some(j) =>
        var reply := Route(j, host);
        replies := [reply];
    }

    /**
     * The JSON branch of `process_message`: a message with a "target" goes to
     * the orchestrator, or whole to the agent the target names; any other
     * target is refused with the list of targets.
     */
    method Route(j: Json, host: Host) returns (reply: string)
      requires Valid()
      modifies orchestrator, orchestrator.memory
      ensures Valid()
      ensures !RoutedTo(j, JStr("orchestrator")) ==> orchestrator.active == old(orchestrator.active)
      ensures !RoutedTo(j, JStr("orchestrator")) && !RoutedTo(j, JStr("memory_bank")) ==> unchanged(orchestrator.memory)
      ensures RoutedTo(j, JStr("orchestrator")) && Field(j.fields, "action", JStr("")) != JStr("direct_agent_call") ==>
        unchanged(orchestrator.memory)
      ensures RouteAnswers(j, host, old(toolbox.disk.View()), old(orchestrator.active), old(orchestrator.memory.State()),
                           reply, orchestrator.active, orchestrator.memory.State())
      ensures Routed(reply, orchestrator.active, orchestrator.memory.State())
           == RouteResult(j, host, old(toolbox.disk.View()), old(orchestrator.active), old(orchestrator.memory.State()))
    {
      ghost var fs, active, mem := toolbox.disk.View(), orchestrator.active, orchestrator.memory.State();
      RouteResultAnswers(j, host, fs, active, mem);
      var has := In(JStr("target"), j);
      if has.Raise? {
        return host.dumps(ErrorOnly(has.error));
      }
      if !has.value {
        return host.dumps(ErrorReply(UnknownFormat));
      }
      var target := Get(j, "target", JNull);
      if target.Raise? {
        return host.dumps(ErrorOnly(target.error));
      }
      assert target.value == Field(j.fields, "target", JNull);
      if target.value == JStr("orchestrator") {
        reply := AskOrchestrator(j, host);
        return;
      }
      var isAgent := InKeys(target.value, AgentNames);
      if isAgent.Raise? {
        return host.dumps(ErrorOnly(isAgent.error));
      }
      if !isAgent.value {
        return host.dumps(ErrorReplyWith("Unknown target: " + Str(target.value), "available_targets", Strings(Targets)));
      }
      reply := AskAgent(target.value.s, j, host);
    }

    /** The orchestrator answers the whole message. */
    method AskOrchestrator(j: Json, host: Host) returns (reply: string)
      requires Valid() && j.JObj?
      modifies orchestrator, orchestrator.memory
      ensures Valid()
      ensures Field(j.fields, "action", JStr("")) != JStr("start_workflow") ==>
        orchestrator.active == old(orchestrator.active)
      ensures Field(j.fields, "action", JStr("")) != JStr("direct_agent_call") ==> unchanged(orchestrator.memory)
      ensures Field(j.fields, "action", JStr("")) == JStr("list_workflows") ==> reply == host.dumps(ListWorkflows())
      ensures Field(j.fields, "action", JStr("")) == JStr("list_agents") ==> reply == host.dumps(ListAgents())
      ensures Field(j.fields, "action", JStr("")) == JStr("get_workflow_status") ==>
        reply == Sent(WorkflowStatus(old(orchestrator.active), j.fields), host.dumps)
      ensures Field(j.fields, "action", JStr("")) == JStr("start_workflow") ==>
        var s := StartResult(j.fields, host.now, old(orchestrator.active));
        reply == Sent(s.reply, host.dumps) && orchestrator.active == s.active
      ensures Field(j.fields, "action", JStr("")) == JStr("direct_agent_call") ==>
        var h := DirectResult(j.fields, host.now, old(toolbox.disk.View()), old(orchestrator.memory.State()));
        reply == Sent(h.reply, host.dumps) && orchestrator.memory.State() == h.memory
      ensures (forall a :: a in Actions ==> Field(j.fields, "action", JStr("")) != JStr(a)) ==>
        reply == host.dumps(UnknownAction(Field(j.fields, "action", JStr("")), Actions))
      ensures var a := Respond(j, host.now, old(toolbox.disk.View()), old(orchestrator.active), old(orchestrator.memory.State()));
        reply == Sent(a.reply, host.dumps) && orchestrator.active == a.active && orchestrator.memory.State() == a.memory
    {
      var r := orchestrator.ProcessMessage(j, host.now, toolbox.disk.View());
      reply := Sent(r, host.dumps);
    }

    /** The agent registered under `name` answers the whole message, its "target" included. */
    method AskAgent(name: string, j: Json, host: Host) returns (reply: string)
      requires Valid() && name in AgentNames
      modifies orchestrator.memory
      ensures Valid()
      ensures name != "memory_bank" ==>
        reply == Sent(PureAgent(name, j, old(toolbox.disk.View())), host.dumps) && unchanged(orchestrator.memory)
      ensures name == "memory_bank" ==>
        var h := MemoryBank.ProcessResult(old(orchestrator.memory.State()), j, CallContext(host.now));
        reply == Sent(h.reply, host.dumps) && orchestrator.memory.State() == h.memory
      ensures var h := AgentAnswer(name, j, CallContext(host.now), old(toolbox.disk.View()), old(orchestrator.memory.State()));
        reply == Sent(h.reply, host.dumps) && orchestrator.memory.State() == h.memory
    {
      var r := orchestrator.CallAgent(name, j, CallContext(host.now), toolbox.disk.View());
      reply := Sent(r, host.dumps);
    }
  }
}
