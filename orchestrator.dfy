/**
 * tools/orchestrator.py: the orchestrator owns the four agents, the four
 * workflow templates and the workflows started from them. A started
 * workflow is advanced one step at a time by `execute_workflow_step`: the
 * step's agent receives `{"action": <the step's action>, **parameters}` and
 * a record of its reply is appended to the workflow's results.
 *
 * The clock is the parameter `now` (whole seconds); the file system the
 * searcher agent reads is the snapshot `fs`.
 */
module Orchestration {
  import opened Text
  import opened Values
  import opened AgentBase
  import opened FileSystem
  import MemoryBank
  import CoderAgent
  import DeeperSearcherAgent
  import DebuggerAgent

  // ---- the agents ----

  /** The keys of `self.agents`, in registration order. */
  const AgentNames := ["memory_bank", "coder", "deeper_searcher", "debugger"]

  /** The agent registered under `name`; every agent is built without tools. */
  function AgentOf(name: string): (a: AgentInfo)
    requires name in AgentNames
    ensures a.tools == []
  {
    if name == "memory_bank" then MemoryBank.Info()
    else if name == "coder" then CoderAgent.Info()
    else if name == "deeper_searcher" then DeeperSearcherAgent.Info()
    else DebuggerAgent.Info()
  }

  /** The actions the agent registered under `name` dispatches on. */
  function ActionsOf(name: string): seq<string>
    requires name in AgentNames
  {
    if name == "memory_bank" then MemoryBank.Actions
    else if name == "coder" then CoderAgent.Actions
    else if name == "deeper_searcher" then DeeperSearcherAgent.Actions
    else DebuggerAgent.Actions
  }

  /** `agent.process(message, context)` for the three agents that keep no state. */
  function PureAgent(name: string, message: Json, fs: Fs): (r: Outcome<Json>)
    requires name in AgentNames && name != "memory_bank"
    ensures !message.JObj? ==> r.Raise?
  {
    if name == "coder" then CoderAgent.Process(message)
    else if name == "deeper_searcher" then DeeperSearcherAgent.Process(message, fs)
    else DebuggerAgent.Process(message)
  }

  /** The context an agent called outside a workflow receives: the time of the call. */
  function CallContext(now: nat): seq<(string, Json)> {
    [("timestamp", JInt(now))]
  }

  /**
   * What the agent registered under `name` answers, with the memory bank's
   * state after the call: the memory bank processes the message against its
   * state; the other agents answer from the message alone and leave it.
   */
  function AgentAnswer(name: string, message: Json, context: seq<(string, Json)>, fs: Fs, mem: MemoryBank.Memory)
    : (h: MemoryBank.Handled)
    requires name in AgentNames && MemoryBank.Coherent(mem)
    ensures MemoryBank.Coherent(h.memory)
    ensures name != "memory_bank" ==> h.reply == PureAgent(name, message, fs) && h.memory == mem
    ensures !message.JObj? ==> h.reply.Raise? && h.memory == mem
  {
    if name == "memory_bank" then
      MemoryBank.ProcessCoherent(mem, message, context);
      MemoryBank.ProcessResult(mem, message, context)
    else MemoryBank.Handled(PureAgent(name, message, fs), mem)
  }

  // ---- the workflow templates ----

  datatype Step = Step(agent: string, action: string, description: string)

  datatype Template = Template(description: string, steps: seq<Step>)

  /** The keys of `self.workflows`, in registration order. */
  const TemplateNames := ["code_implementation", "bug_fixing", "code_analysis", "code_refactoring"]

  /** `self.workflows.get(name)` */
  function TemplateOf(name: string): (t: Option<Template>)
    ensures t.Some? <==> name in TemplateNames
  {
    if name == "code_implementation" then
      Some(Template("Implement a new feature or change", [
        Step("deeper_searcher", "analyze_folder", "Analyze the codebase"),
        Step("memory_bank", "store", "Store analysis results"),
        Step("coder", "plan", "Create an implementation plan"),
        Step("coder", "implement", "Implement the changes"),
        Step("debugger", "verify_fix", "Verify the implementation")]))
    else if name == "bug_fixing" then
      Some(Template("Fix a bug in the code", [
        Step("debugger", "analyze_error", "Analyze the error"),
        Step("deeper_searcher", "analyze_file", "Analyze the affected files"),
        Step("debugger", "trace_execution", "Trace code execution"),
        Step("debugger", "suggest_fix", "Suggest a fix"),
        Step("coder", "implement", "Implement the fix"),
        Step("debugger", "verify_fix", "Verify the fix")]))
    else if name == "code_analysis" then
      Some(Template("Analyze the codebase", [
        Step("deeper_searcher", "analyze_folder", "Analyze the codebase structure"),
        Step("deeper_searcher", "find_patterns", "Identify code patterns"),
        Step("deeper_searcher", "identify_issues", "Identify potential issues"),
        Step("deeper_searcher", "suggest_improvements", "Suggest improvements"),
        Step("memory_bank", "store", "Store analysis results")]))
    else if name == "code_refactoring" then
      Some(Template("Refactor code to improve quality", [
        Step("deeper_searcher", "analyze_file", "Analyze the code to refactor"),
        Step("deeper_searcher", "suggest_improvements", "Suggest refactoring options"),
        Step("coder", "plan", "Create a refactoring plan"),
        Step("coder", "refactor", "Implement the refactoring"),
        Step("debugger", "verify_fix", "Verify the refactoring")]))
    else None
  }

  /** A step the orchestrator can carry out: a registered agent and an action that agent handles. */
  predicate Runnable(s: Step) {
    s.agent in AgentNames && s.action in ActionsOf(s.agent)
  }

  /** Every template has at least one step, and each of its steps is runnable. */
  lemma TemplatesRunnable(name: string)
    requires name in TemplateNames
    ensures |TemplateOf(name).value.steps| > 0
    ensures forall i :: 0 <= i < |TemplateOf(name).value.steps| ==> Runnable(TemplateOf(name).value.steps[i])
  {
  }

  /** `get_workflow_definitions` / `self.workflows` as a dict. */
  function TemplateJson(t: Template): Json {
    JObj([("description", JStr(t.description)),
          ("steps", JArr(seq(|t.steps|, i requires 0 <= i < |t.steps| =>
             JObj([("agent", JStr(t.steps[i].agent)), ("action", JStr(t.steps[i].action)),
                   ("description", JStr(t.steps[i].description))]))))])
  }

  function Definitions(): (r: Json)
    ensures r.JObj? && Keys(r.fields) == TemplateNames
  {
    JObj(seq(|TemplateNames|, i requires 0 <= i < |TemplateNames| =>
      (TemplateNames[i], TemplateJson(TemplateOf(TemplateNames[i]).value))))
  }

  // ---- workflows ----

  /** An entry of `self.active_workflows`; `end_time` is set once the last step ran. */
  datatype Workflow = Workflow(
    id: string, name: string, status: string, startTime: nat, currentStep: nat,
    steps: seq<Step>, parameters: Json, results: seq<Json>, endTime: Option<nat>)

  /** `f"wf_{int(time.time())}_{workflow_name}"` */
  function WorkflowId(now: nat, name: string): string {
    "wf_" + NatToString(now) + "_" + name
  }

  /** A workflow as `_start_workflow` creates it. */
  function Fresh(now: nat, name: string, parameters: Json): Workflow
    requires name in TemplateNames
  {
    Workflow(WorkflowId(now, name), name, "running", now, 0, TemplateOf(name).value.steps, parameters, [], None)
  }

  /** The record `execute_workflow_step` appends for step `k`. */
  function Record(k: nat, s: Step, result: Json): Json {
    JObj([("step", JInt(k)), ("agent", JStr(s.agent)), ("action", JStr(s.action)), ("result", result)])
  }

  /** The workflow runs its template's steps. */
  predicate FromTemplate(w: Workflow) {
    TemplateOf(w.name).Some? && w.steps == TemplateOf(w.name).value.steps
  }

  /**
   * How far a workflow got: one record per step already run (the i-th
   * records step i), and completed, with an end time, exactly when every
   * step has run.
   */
  predicate Progress(w: Workflow) {
    && |w.steps| > 0
    && |w.results| == w.currentStep <= |w.steps|
    && (w.status == "running" || w.status == "completed")
    && (w.status == "completed" <==> w.currentStep == |w.steps|)
    && (w.endTime.Some? <==> w.status == "completed")
    && forall i :: 0 <= i < |w.results| ==> Records(w.results[i], i, w.steps[i])
  }

  /** Every step names a registered agent and an action that agent handles. */
  predicate StepsRunnable(steps: seq<Step>) {
    forall i :: 0 <= i < |steps| ==> Runnable(steps[i])
  }

  /** What holds of every workflow the orchestrator holds. */
  predicate WorkflowOk(w: Workflow) {
    FromTemplate(w) && StepsRunnable(w.steps) && Progress(w)
  }

  /** The answer a four-entry record or step reply carries last. */
  function LastValue(x: Json): Json {
    if x.JObj? && |x.fields| == 4 then x.fields[3].1 else JNull
  }

  /** `x` is the record of step `k` running `s`. */
  predicate Records(x: Json, k: nat, s: Step) {
    x == Record(k, s, LastValue(x))
  }

  /** The workflow after its current step ran and the agent answered `result`. */
  function Advance(w: Workflow, result: Json, now: nat): (v: Workflow)
    requires w.currentStep < |w.steps|
    ensures v.currentStep == w.currentStep + 1 && v.results == w.results + [Record(w.currentStep, w.steps[w.currentStep], result)]
    ensures v.status == (if v.currentStep == |w.steps| then "completed" else w.status)
    ensures v.id == w.id && v.name == w.name && v.steps == w.steps && v.parameters == w.parameters
  {
    var k := w.currentStep;
    var done := k + 1 >= |w.steps|;
    w.(results := w.results + [Record(k, w.steps[k], result)], currentStep := k + 1,
       status := if done then "completed" else w.status,
       endTime := if done then Some(now) else w.endTime)
  }

  /** A new workflow is well formed. */
  lemma FreshOk(now: nat, name: string, parameters: Json)
    requires name in TemplateNames
    ensures WorkflowOk(Fresh(now, name, parameters))
  {
    TemplatesRunnable(name);
  }

  /** Running a step of a running workflow keeps its progress consistent; a running workflow has a next step. */
  lemma AdvanceOk(w: Workflow, result: Json, now: nat)
    requires Progress(w) && w.status == "running"
    ensures w.currentStep < |w.steps|
    ensures Progress(Advance(w, result, now))
    ensures WorkflowOk(w) ==> WorkflowOk(Advance(w, result, now))
  {
    var v := Advance(w, result, now);
    forall i | 0 <= i < |v.results|
      ensures Records(v.results[i], i, v.steps[i])
    {
      if i < w.currentStep {
        assert v.results[i] == w.results[i];
      }
    }
  }

  /** The workflow after the remaining steps ran in order, the agents answering `rs`. */
  function AdvanceAll(w: Workflow, rs: seq<Json>, now: nat): Workflow
    requires w.currentStep + |rs| <= |w.steps|
    decreases |rs|
  {
    if rs == [] then w else AdvanceAll(Advance(w, rs[0], now), rs[1..], now)
  }

  /** Running steps appends one record per answer and keeps everything else but the progress. */
  lemma {:induction false} AdvanceAllAppends(w: Workflow, rs: seq<Json>, now: nat)
    requires w.currentStep + |rs| <= |w.steps|
    ensures var v := AdvanceAll(w, rs, now);
      && v.steps == w.steps && v.name == w.name && v.id == w.id
      && v.currentStep == w.currentStep + |rs|
      && |v.results| == |w.results| + |rs|
      && v.results[..|w.results|] == w.results
      && forall j :: 0 <= j < |rs| ==> v.results[|w.results| + j] == Record(w.currentStep + j, w.steps[w.currentStep + j], rs[j])
    decreases |rs|
  {
    if rs != [] {
      var u := Advance(w, rs[0], now);
      AdvanceAllAppends(u, rs[1..], now);
      var v := AdvanceAll(u, rs[1..], now);
      assert v.results[..|w.results|] == w.results by {
        assert v.results[..|u.results|] == u.results;
        assert u.results[..|w.results|] == w.results;
      }
      forall j | 0 <= j < |rs|
        ensures v.results[|w.results| + j] == Record(w.currentStep + j, w.steps[w.currentStep + j], rs[j])
      {
        if j == 0 {
          assert v.results[|w.results|] == v.results[..|u.results|][|w.results|];
        } else {
          assert rs[j] == rs[1..][j - 1];
        }
      }
    }
  }

  /** Running steps of a running workflow keeps its progress consistent. */
  lemma {:induction false} AdvanceAllOk(w: Workflow, rs: seq<Json>, now: nat)
    requires Progress(w) && w.status == "running"
    requires |rs| <= |w.steps| - w.currentStep
    ensures Progress(AdvanceAll(w, rs, now))
    ensures |rs| > 0 ==> AdvanceAll(w, rs, now).status == (if |rs| == |w.steps| - w.currentStep then "completed" else "running")
    ensures |rs| == |w.steps| - w.currentStep ==> AdvanceAll(w, rs, now).endTime == Some(now)
    decreases |rs|
  {
    if rs != [] {
      AdvanceOk(w, rs[0], now);
      var u := Advance(w, rs[0], now);
      if |rs| > 1 {
        AdvanceAllOk(u, rs[1..], now);
      }
    }
  }

  /**
   * Running every remaining step of a running workflow completes it, with
   * every step recorded: the earlier records are kept and step k records
   * the k-th answer.
   */
  lemma RunsToCompletion(w: Workflow, rs: seq<Json>, now: nat)
    requires Progress(w) && w.status == "running"
    requires |rs| == |w.steps| - w.currentStep
    ensures var v := AdvanceAll(w, rs, now);
      && Progress(v) && v.status == "completed" && v.endTime == Some(now)
      && |v.results| == |v.steps| == |w.steps|
      && v.results[..|w.results|] == w.results
      && forall j :: 0 <= j < |rs| ==> v.results[w.currentStep + j] == Record(w.currentStep + j, w.steps[w.currentStep + j], rs[j])
  {
    AdvanceOk(w, rs[0], now);
    AdvanceAllOk(w, rs, now);
    AdvanceAllAppends(w, rs, now);
  }

  /** Two workflow ids coincide exactly when the same template was started in the same second. */
  lemma WorkflowIdCollides(now1: nat, name1: string, now2: nat, name2: string)
    ensures WorkflowId(now1, name1) == WorkflowId(now2, name2) <==> now1 == now2 && name1 == name2
  {
    if WorkflowId(now1, name1) == WorkflowId(now2, name2) {
      var d1, d2 := NatToString(now1), NatToString(now2);
      assert ("wf_" + d1 + "_" + name1)[3..] == d1 + "_" + name1;
      assert ("wf_" + d2 + "_" + name2)[3..] == d2 + "_" + name2;
      DigitsThenUnderscore(d1, name1, d2, name2);
      DigitsValueOfNatToString(now1);
      DigitsValueOfNatToString(now2);
    }
  }

  /** A run of digits followed by `_` can be split off in one way only. */
  lemma DigitsThenUnderscore(d1: string, n1: string, d2: string, n2: string)
    requires AllDigits(d1) && AllDigits(d2)
    requires d1 + "_" + n1 == d2 + "_" + n2
    ensures d1 == d2 && n1 == n2
  {
    var l, r := d1 + "_" + n1, d2 + "_" + n2;
    assert l[|d1|] == '_' && r[|d2|] == '_';
    assert forall i :: 0 <= i < |d1| ==> l[i] == d1[i];
    assert forall i :: 0 <= i < |d2| ==> r[i] == d2[i];
    assert |d1| == |d2|;
    assert d1 == (d1 + "_" + n1)[..|d1|];
    assert d2 == (d2 + "_" + n2)[..|d2|];
    assert n1 == (d1 + "_" + n1)[|d1| + 1..];
    assert n2 == (d2 + "_" + n2)[|d2| + 1..];
  }

  // ---- the read-only replies ----

  /** `{"action": step["action"], **parameters}`: a dict of parameters can override the action. */
  function StepMessage(s: Step, parameters: Json): (r: Outcome<Json>)
    ensures r.Raise? <==> !parameters.JObj?
  {
    Spread("action", JStr(s.action), parameters)
  }

  /** The agent sees the parameters' own "action" when they carry one, the step's otherwise. */
  lemma StepMessageAction(s: Step, parameters: Json)
    requires parameters.JObj? && DistinctKeys(parameters.fields)
    ensures StepMessage(s, parameters).Ok?
    ensures Lookup(StepMessage(s, parameters).value.fields, "action")
         == if "action" in Keys(parameters.fields) then Lookup(parameters.fields, "action") else Some(JStr(s.action))
  {
    SpreadLookup("action", JStr(s.action), parameters, "action");
  }

  /** The `workflow` dict of a status reply. */
  function StatusJson(w: Workflow): (r: Json)
    ensures r.JObj? && |r.fields| == 8
    ensures r.fields[6] == ("current_step_description",
      if w.currentStep < |w.steps| then JStr(w.steps[w.currentStep].description) else JNull)
  {
    JObj([("id", JStr(w.id)), ("name", JStr(w.name)), ("status", JStr(w.status)),
          ("start_time", JInt(w.startTime)), ("current_step", JInt(w.currentStep)),
          ("total_steps", JInt(|w.steps|)),
          ("current_step_description",
             if w.currentStep < |w.steps| then JStr(w.steps[w.currentStep].description) else JNull),
          ("results", JArr(w.results))])
  }

  /** `_get_workflow_status`: the id must be given and known; an unhashable id raises. */
  function WorkflowStatus(active: map<string, Workflow>, fields: seq<(string, Json)>): (r: Outcome<Json>)
    ensures var id := Field(fields, "workflow_id", JStr(""));
      && (!Truthy(id) ==> r == Ok(ErrorReply("Missing workflow_id")))
      && (Truthy(id) && !Hashable(id) ==> r == Raise(Unhashable(id)))
      && (Truthy(id) && Hashable(id) && !(id.JStr? && id.s in active) ==> r == Ok(ErrorReply("Unknown workflow ID: " + Str(id))))
      && (Truthy(id) && id.JStr? && id.s in active ==> r == Ok(Success([("workflow", StatusJson(active[id.s]))])))
  {
    var id := Field(fields, "workflow_id", JStr(""));
    if !Truthy(id) then Ok(ErrorReply("Missing workflow_id"))
    else if !Hashable(id) then Raise(Unhashable(id))
    else if !(id.JStr? && id.s in active) then Ok(ErrorReply("Unknown workflow ID: " + Str(id)))
    else Ok(Success([("workflow", StatusJson(active[id.s]))]))
  }

  /** A well-formed workflow reports a next step exactly while it is running. */
  lemma StatusDescribesNextStep(w: Workflow)
    requires WorkflowOk(w)
    ensures StatusJson(w).fields[6].1 == JNull <==> w.status == "completed"
    ensures w.status == "running" ==> StatusJson(w).fields[6].1 == JStr(w.steps[w.currentStep].description)
  {
  }

  /** `_list_workflows`: each template's name, description and number of steps, in order. */
  function ListWorkflows(): (r: Json)
    ensures r.JObj? && |r.fields| == 2 && r.fields[1].0 == "workflows" && r.fields[1].1.JArr?
    ensures var items := r.fields[1].1.items;
      && |items| == |TemplateNames|
      && forall i :: 0 <= i < |items| ==>
           items[i] == JObj([("name", JStr(TemplateNames[i])),
                             ("description", JStr(TemplateOf(TemplateNames[i]).value.description)),
                             ("steps", JInt(|TemplateOf(TemplateNames[i]).value.steps|))])
  {
    Success([("workflows", JArr(seq(|TemplateNames|, i requires 0 <= i < |TemplateNames| =>
      var t := TemplateOf(TemplateNames[i]).value;
      JObj([("name", JStr(TemplateNames[i])), ("description", JStr(t.description)), ("steps", JInt(|t.steps|))]))))])
  }

  /** `_list_agents`: each agent's key, description and (empty) tool list, in order. */
  function ListAgents(): (r: Json)
    ensures r.JObj? && |r.fields| == 2 && r.fields[1].0 == "agents" && r.fields[1].1.JArr?
    ensures var items := r.fields[1].1.items;
      && |items| == |AgentNames|
      && forall i :: 0 <= i < |items| ==>
           items[i] == JObj([("name", JStr(AgentNames[i])), ("description", JStr(AgentOf(AgentNames[i]).description)),
                             ("tools", JArr([]))])
  {
    Success([("agents", JArr(seq(|AgentNames|, i requires 0 <= i < |AgentNames| =>
      var a := AgentOf(AgentNames[i]);
      JObj([("name", JStr(AgentNames[i])), ("description", JStr(a.description)),
            ("tools", Strings(seq(|a.tools|, j requires 0 <= j < |a.tools| => a.tools[j].name)))]))))])
  }

  /** The actions `process_message` dispatches on. */
  const Actions := ["start_workflow", "get_workflow_status", "list_workflows", "list_agents", "direct_agent_call"]

  /** The context a workflow step's agent receives: the time, the workflow and the step. */
  function StepContext(now: nat, id: string, k: nat): seq<(string, Json)> {
    [("timestamp", JInt(now)), ("workflow_id", JStr(id)), ("step", JInt(k))]
  }

  /** `_start_workflow`'s reply and the workflows after it. */
  datatype Started = Started(reply: Outcome<Json>, active: map<string, Workflow>)

  function StartResult(fields: seq<(string, Json)>, now: nat, active: map<string, Workflow>): Started {
    var name := Field(fields, "workflow_name", JStr(""));
    if !Truthy(name) then Started(Ok(ErrorReply("Missing workflow_name")), active)
    else if !Hashable(name) then Started(Raise(Unhashable(name)), active)
    else if !(name.JStr? && name.s in TemplateNames) then
      Started(Ok(ErrorReplyWith("Unknown workflow: " + Str(name), "available_workflows", Strings(TemplateNames))), active)
    else
      var id := WorkflowId(now, name.s);
      Started(Ok(Success([("message", JStr("Started workflow " + name.s)), ("workflow_id", JStr(id))])),
              active[id := Fresh(now, name.s, Field(fields, "parameters", JObj([])))])
  }

  /** `_direct_agent_call`'s reply and the memory bank's state after it. */
  function DirectResult(fields: seq<(string, Json)>, now: nat, fs: Fs, mem: MemoryBank.Memory): MemoryBank.Handled
    requires MemoryBank.Coherent(mem)
  {
    var name := Field(fields, "agent_name", JStr(""));
    var message := Field(fields, "agent_message", JObj([]));
    if !Truthy(name) then MemoryBank.Handled(Ok(ErrorReply("Missing agent_name")), mem)
    else if !Hashable(name) then MemoryBank.Handled(Raise(Unhashable(name)), mem)
    else if !(name.JStr? && name.s in AgentNames) then
      MemoryBank.Handled(Ok(ErrorReplyWith("Unknown agent: " + Str(name), "available_agents", Strings(AgentNames))), mem)
    else if !Truthy(message) then MemoryBank.Handled(Ok(ErrorReply("Missing agent_message")), mem)
    else
      var h := AgentAnswer(name.s, message, CallContext(now), fs, mem);
      MemoryBank.Handled(match h.reply case Raise(e) => Raise(e) case Ok(v) => Ok(Success([("agent_name", name), ("result", v)])),
                         h.memory)
  }

  /** `process_message`'s reply, the workflows and the memory bank's state after it. */
  datatype Answer = Answer(reply: Outcome<Json>, active: map<string, Workflow>, memory: MemoryBank.Memory)

  function Respond(message: Json, now: nat, fs: Fs, active: map<string, Workflow>, mem: MemoryBank.Memory): Answer
    requires MemoryBank.Coherent(mem)
  {
    match ActionOf(message)
    case Raise(e) => Answer(Raise(e), active, mem)
    case Ok(action) =>
      var f := message.fields;
      if action == JStr("start_workflow") then
        var s := StartResult(f, now, active);
        Answer(s.reply, s.active, mem)
      else if action == JStr("get_workflow_status") then Answer(WorkflowStatus(active, f), active, mem)
      else if action == JStr("list_workflows") then Answer(Ok(ListWorkflows()), active, mem)
      else if action == JStr("list_agents") then Answer(Ok(ListAgents()), active, mem)
      else if action == JStr("direct_agent_call") then
        var h := DirectResult(f, now, fs, mem);
        Answer(h.reply, active, h.memory)
      else Answer(Ok(UnknownAction(action, Actions)), active, mem)
  }

  /** What `process_message` answers for each action, and that only a start and a direct call change state. */
  lemma RespondCases(message: Json, now: nat, fs: Fs, active: map<string, Workflow>, mem: MemoryBank.Memory)
    requires MemoryBank.Coherent(mem)
    ensures !message.JObj? ==> Respond(message, now, fs, active, mem) == Answer(Raise(ActionOf(message).error), active, mem)
    ensures message.JObj? ==>
      var a := Respond(message, now, fs, active, mem);
      var action := Field(message.fields, "action", JStr(""));
      && (action != JStr("start_workflow") ==> a.active == active)
      && (action != JStr("direct_agent_call") ==> a.memory == mem)
      && (action == JStr("start_workflow") ==> Started(a.reply, a.active) == StartResult(message.fields, now, active))
      && (action == JStr("get_workflow_status") ==> a.reply == WorkflowStatus(active, message.fields))
      && (action == JStr("list_workflows") ==> a.reply == Ok(ListWorkflows()))
      && (action == JStr("list_agents") ==> a.reply == Ok(ListAgents()))
      && (action == JStr("direct_agent_call") ==>
            MemoryBank.Handled(a.reply, a.memory) == DirectResult(message.fields, now, fs, mem))
      && ((forall x :: x in Actions ==> action != JStr(x)) ==> a.reply == Ok(UnknownAction(action, Actions)))
  {
  }

  function StepReply(id: string, k: nat, result: Json): Json {
    Success([("workflow_id", JStr(id)), ("step", JInt(k)), ("result", result)])
  }

  /**
   * The workflows `after` and the reply `r` once the running workflow `w`,
   * held under `id` in `before`, ran its current step: the step's message
   * is the step's action spread with the parameters (a non-dict raises);
   * an agent that raises leaves the workflows as they were; an answer is
   * recorded and the workflow advanced. For the agents that keep no state
   * the answer is the one `PureAgent` gives.
   */
  ghost predicate StepRan(before: map<string, Workflow>, after: map<string, Workflow>, id: string, w: Workflow,
                          now: nat, fs: Fs, mem0: MemoryBank.Memory, mem1: MemoryBank.Memory, r: Outcome<Json>)
    requires WorkflowOk(w) && w.status == "running" && MemoryBank.Coherent(mem0)
  {
    var s := w.steps[w.currentStep];
    && (!w.parameters.JObj? ==> r == Raise(StepMessage(s, w.parameters).error) && after == before && mem1 == mem0)
    && (r.Raise? ==> after == before)
    && (r.Ok? ==> r == Ok(StepReply(id, w.currentStep, LastValue(r.value)))
                  && after == before[id := Advance(w, LastValue(r.value), now)])
    && (w.parameters.JObj? ==>
          var h := AgentAnswer(s.agent, StepMessage(s, w.parameters).value, StepContext(now, id, w.currentStep), fs, mem0);
          && mem1 == h.memory
          && match h.reply
             case Raise(e) => r == Raise(e) && after == before
             case Ok(res) => r == Ok(StepReply(id, w.currentStep, res)) && after == before[id := Advance(w, res, now)])
  }

  class Orchestrator {
    /** `self.active_workflows` */
    var active: map<string, Workflow>
    /** The memory bank, the one agent whose state outlives a call. */
    const memory: MemoryBank.MemoryBankAgent

    /** The memory bank is consistent and every workflow is well formed under its own id. */
    ghost predicate Valid()
      reads this, memory
    {
      && memory.Valid()
      && forall id :: id in active ==> WorkflowOk(active[id]) && active[id].id == id
    }

    constructor ()
      ensures Valid() && active == map[] && fresh(memory)
    {
      active := map[];
      memory := new MemoryBank.MemoryBankAgent();
    }

    /** `agent.process(message, context)` for the agent registered under `name`. */
    method CallAgent(name: string, message: Json, context: seq<(string, Json)>, fs: Fs) returns (r: Outcome<Json>)
      requires Valid() && name in AgentNames
      modifies memory
      ensures Valid()
      ensures name != "memory_bank" ==> r == PureAgent(name, message, fs) && unchanged(memory)
      ensures !message.JObj? ==> r.Raise? && unchanged(memory)
      ensures MemoryBank.Handled(r, memory.State()) == AgentAnswer(name, message, context, fs, old(memory.State()))
    {
      if name == "memory_bank" {
        r := memory.Process(message, context);
      } else {
        r := PureAgent(name, message, fs);
      }
    }

    /** `process_message`: dispatch on the action; only a start changes the workflows. */
    method ProcessMessage(message: Json, now: nat, fs: Fs) returns (r: Outcome<Json>)
      requires Valid()
      modifies this, memory
      ensures Valid()
      ensures !message.JObj? ==> r.Raise? && unchanged(this, memory)
      ensures message.JObj? ==>
        var action := Field(message.fields, "action", JStr(""));
        && (action != JStr("start_workflow") ==> active == old(active))
        && (action != JStr("direct_agent_call") ==> unchanged(memory))
        && (action == JStr("get_workflow_status") ==> r == WorkflowStatus(active, message.fields))
        && (action == JStr("list_workflows") ==> r == Ok(ListWorkflows()))
        && (action == JStr("list_agents") ==> r == Ok(ListAgents()))
        && ((forall a :: a in Actions ==> action != JStr(a)) ==> r == Ok(UnknownAction(action, Actions)))
        && (action == JStr("start_workflow") ==>
              var s := StartResult(message.fields, now, old(active));
              r == s.reply && active == s.active)
        && (action == JStr("direct_agent_call") ==>
              var h := DirectResult(message.fields, now, fs, old(memory.State()));
              r == h.reply && memory.State() == h.memory)
      ensures Answer(r, active, memory.State()) == Respond(message, now, fs, old(active), old(memory.State()))
    {
      var action := ActionOf(message);
      if action.Raise? {
        return Raise(action.error);
      }
      var f := message.fields;
      if action.value == JStr("start_workflow") {
        r := StartWorkflow(f, now);
      } else if action.value == JStr("get_workflow_status") {
        r := WorkflowStatus(active, f);
      } else if action.value == JStr("list_workflows") {
        r := Ok(ListWorkflows());
      } else if action.value == JStr("list_agents") {
        r := Ok(ListAgents());
      } else if action.value == JStr("direct_agent_call") {
        r := DirectAgentCall(f, now, fs);
      } else {
        r := Ok(UnknownAction(action.value, Actions));
      }
    }

    /**
     * `_start_workflow`: a known template name starts a running workflow at
     * step 0 under `wf_<seconds>_<name>`, replacing any workflow already
     * held under that id.
     */
    method StartWorkflow(fields: seq<(string, Json)>, now: nat) returns (r: Outcome<Json>)
      requires Valid()
      modifies this
      ensures Valid()
      ensures var name := Field(fields, "workflow_name", JStr(""));
        && (!Truthy(name) ==> r == Ok(ErrorReply("Missing workflow_name")) && active == old(active))
        && (Truthy(name) && !Hashable(name) ==> r == Raise(Unhashable(name)) && active == old(active))
        && (Truthy(name) && Hashable(name) && !(name.JStr? && name.s in TemplateNames) ==>
              r == Ok(ErrorReplyWith("Unknown workflow: " + Str(name), "available_workflows", Strings(TemplateNames)))
              && active == old(active))
        && (name.JStr? && name.s in TemplateNames ==>
              var id := WorkflowId(now, name.s);
              && active == old(active)[id := Fresh(now, name.s, Field(fields, "parameters", JObj([])))]
              && r == Ok(Success([("message", JStr("Started workflow " + name.s)), ("workflow_id", JStr(id))])))
      ensures Started(r, active) == StartResult(fields, now, old(active))
    {
      var name := Field(fields, "workflow_name", JStr(""));
      var parameters := Field(fields, "parameters", JObj([]));
      if !Truthy(name) {
        return Ok(ErrorReply("Missing workflow_name"));
      }
      var known := InKeys(name, TemplateNames);
      if known.Raise? {
        return Raise(known.error);
      }
      if !known.value {
        return Ok(ErrorReplyWith("Unknown workflow: " + Str(name), "available_workflows", Strings(TemplateNames)));
      }
      var id := WorkflowId(now, name.s);
      FreshOk(now, name.s, parameters);
      active := active[id := Fresh(now, name.s, parameters)];
      r := Ok(Success([("message", JStr("Started workflow " + name.s)), ("workflow_id", JStr(id))]));
    }

    /** `_direct_agent_call`: a named, registered agent answers a non-empty message. */
    method DirectAgentCall(fields: seq<(string, Json)>, now: nat, fs: Fs) returns (r: Outcome<Json>)
      requires Valid()
      modifies memory
      ensures Valid()
      ensures var name := Field(fields, "agent_name", JStr(""));
        var message := Field(fields, "agent_message", JObj([]));
        && (!Truthy(name) ==> r == Ok(ErrorReply("Missing agent_name")) && unchanged(memory))
        && (Truthy(name) && !Hashable(name) ==> r == Raise(Unhashable(name)) && unchanged(memory))
        && (Truthy(name) && Hashable(name) && !(name.JStr? && name.s in AgentNames) ==>
              r == Ok(ErrorReplyWith("Unknown agent: " + Str(name), "available_agents", Strings(AgentNames)))
              && unchanged(memory))
        && (name.JStr? && name.s in AgentNames && !Truthy(message) ==>
              r == Ok(ErrorReply("Missing agent_message")) && unchanged(memory))
        && (name.JStr? && name.s in AgentNames && name.s != "memory_bank" && Truthy(message) ==>
              r == match PureAgent(name.s, message, fs)
                   case Raise(e) => Raise(e)
                   case Ok(v) => Ok(Success([("agent_name", name), ("result", v)])))
        && (name == JStr("memory_bank") && Truthy(message) ==>
              var h := MemoryBank.ProcessResult(old(memory.State()), message, CallContext(now));
              && memory.State() == h.memory
              && r == match h.reply
                      case Raise(e) => Raise(e)
                      case Ok(v) => Ok(Success([("agent_name", name), ("result", v)])))
      ensures MemoryBank.Handled(r, memory.State()) == DirectResult(fields, now, fs, old(memory.State()))
    {
      var name := Field(fields, "agent_name", JStr(""));
      var message := Field(fields, "agent_message", JObj([]));
      if !Truthy(name) {
        return Ok(ErrorReply("Missing agent_name"));
      }
      var known := InKeys(name, AgentNames);
      if known.Raise? {
        return Raise(known.error);
      }
      if !known.value {
        return Ok(ErrorReplyWith("Unknown agent: " + Str(name), "available_agents", Strings(AgentNames)));
      }
      if !Truthy(message) {
        return Ok(ErrorReply("Missing agent_message"));
      }
      var result := CallAgent(name.s, message, CallContext(now), fs);
      match result
      case Raise(e) => r := Raise(e);
      case Ok(v) => r := Ok(Success([("agent_name", name), ("result", v)]));
    }

    /**
     * `execute_workflow_step`: the current step of a running workflow is sent
     * to its agent, the answer recorded and the workflow moved on, completed
     * after its last step. Unknown ids and workflows no longer running are
     * refused and change nothing.
     */
    method ExecuteStep(id: string, now: nat, fs: Fs) returns (r: Outcome<Json>)
      requires Valid()
      modifies this, memory
      ensures Valid()
      ensures id !in old(active) ==>
        r == Ok(ErrorReply("Unknown workflow ID: " + id)) && active == old(active) && unchanged(memory)
      ensures id in old(active) && old(active)[id].status != "running" ==>
        r == Ok(ErrorReply("Workflow is not running: " + id)) && active == old(active) && unchanged(memory)
      ensures id in old(active) && old(active)[id].status == "running" ==>
        StepRan(old(active), active, id, old(active)[id], now, fs, old(memory.State()), memory.State(), r)
      ensures id in old(active) && old(active)[id].status == "running" && !old(active)[id].parameters.JObj? ==>
        unchanged(memory)
    {
      if id !in active {
        return Ok(ErrorReply("Unknown workflow ID: " + id));
      }
      var w := active[id];
      if w.status != "running" {
        return Ok(ErrorReply("Workflow is not running: " + id));
      }
      r := RunStep(id, w, now, fs);
    }

    /**
     * The running workflow `w`, held under `id`, runs its current step. The
     * source's guards against a running workflow without a next step and
     * against a step naming an unregistered agent cannot fire: `Valid` rules
     * both out.
     */
    method RunStep(id: string, w: Workflow, now: nat, fs: Fs) returns (r: Outcome<Json>)
      requires Valid() && id in active && active[id] == w && w.status == "running"
      modifies this, memory
      ensures Valid()
      ensures StepRan(old(active), active, id, w, now, fs, old(memory.State()), memory.State(), r)
      ensures !w.parameters.JObj? ==> unchanged(memory)
    {
      if w.currentStep >= |w.steps| {
        assert false;
      }
      var s := w.steps[w.currentStep];
      if s.agent !in AgentNames {
        assert false;
      }
      var message := StepMessage(s, w.parameters);
      if message.Raise? {
        return Raise(message.error);
      }
      var result := CallAgent(s.agent, message.value, StepContext(now, id, w.currentStep), fs);
      if result.Raise? {
        return Raise(result.error);
      }
      AdvanceOk(w, result.value, now);
      active := active[id := Advance(w, result.value, now)];
      r := Ok(StepReply(id, w.currentStep, result.value));
    }
  }
}
