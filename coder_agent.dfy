/**
 * tools/coder_agent.py: the Coder agent. `process` dispatches on
 * `message["action"]` to four handlers; each checks its fields in a fixed
 * order and answers with a fresh dict. The context argument is not read.
 */
module CoderAgent {
  import opened Values
  import opened AgentBase

  const Actions := ["plan", "implement", "review", "refactor"]

  const Description :=
    "You are the Coder agent, responsible for planning and implementing code changes. "
    + "Your job is to understand the requirements, plan the necessary changes, and implement them. "
    + "You should break down complex tasks into smaller, manageable steps and execute them one by one. "
    + "Always explain your reasoning and the changes you're making. When you encounter difficulties, "
    + "ask for help from other agents through the Orchestrator."

  /** The agent as constructed by the orchestrator: no tools. */
  function Info(): AgentInfo {
    MakeAgent("Coder", Description, None)
  }

  /** `process`: a message that is not a dict raises at `message.get`. */
  function Process(message: Json): (r: Outcome<Json>)
    ensures r.Raise? <==> !message.JObj?
  {
    match ActionOf(message)
    case Raise(e) => Raise(e)
    case Ok(action) =>
      var f := message.fields;
      if action == JStr("plan") then Ok(CreatePlan(f))
      else if action == JStr("implement") then Ok(Implement(f))
      else if action == JStr("review") then Ok(Review(f))
      else if action == JStr("refactor") then Ok(Refactor(f))
      else Ok(UnknownAction(action, Actions))
  }

  /** Any action other than the four handled ones gets the error listing exactly those four. */
  lemma ProcessUnknown(fields: seq<(string, Json)>)
    requires forall a :: a in Actions ==> Field(fields, "action", JStr("")) != JStr(a)
    ensures Process(JObj(fields)) == Ok(UnknownAction(Field(fields, "action", JStr("")), ["plan", "implement", "review", "refactor"]))
  {
  }

  /** The five pending steps of the sample plan, numbered from 1. */
  const PlanSteps: seq<(int, string)> := [
    (1, "Analyze the requirements and constraints"),
    (2, "Identify the files that need to be modified"),
    (3, "Implement the changes"),
    (4, "Test the changes"),
    (5, "Review and refactor if necessary")
  ]

  function StepJson(s: (int, string)): Json {
    JObj([("id", JInt(s.0)), ("description", JStr(s.1)), ("status", JStr("pending"))])
  }

  function PlanJson(task: Json): Json {
    JObj([
      ("task", task),
      ("steps", JArr(seq(|PlanSteps|, i requires 0 <= i < |PlanSteps| => StepJson(PlanSteps[i])))),
      ("estimated_time", JStr("30 minutes"))])
  }

  /** `_create_plan`: a task is required; the plan echoes it with five pending steps numbered 1 to 5. */
  function CreatePlan(f: seq<(string, Json)>): (r: Json)
    ensures !Truthy(Field(f, "task", JStr(""))) <==> r == ErrorReply("Missing task description")
    ensures Truthy(Field(f, "task", JStr(""))) ==> IsSuccess(r) && |r.fields| == 2 && r.fields[1] == ("plan", PlanJson(Field(f, "task", JStr(""))))
  {
    var task := Field(f, "task", JStr(""));
    if !Truthy(task) then ErrorReply("Missing task description")
    else Success([("plan", PlanJson(task))])
  }

  /** The sample plan carries the task and five steps with ids 1..5, all pending. */
  lemma PlanShape(task: Json)
    ensures var p := PlanJson(task);
      && p.fields[0] == ("task", task)
      && p.fields[1].1.JArr? && |p.fields[1].1.items| == 5
      && forall i :: 0 <= i < 5 ==>
           p.fields[1].1.items[i].fields[0] == ("id", JInt(i + 1))
           && p.fields[1].1.items[i].fields[2] == ("status", JStr("pending"))
  {
  }

  /** `_implement_code`: plan, then step_id (only None counts as missing), then file_path. */
  function Implement(f: seq<(string, Json)>): (r: Json)
    ensures !Truthy(Field(f, "plan", JObj([]))) <==> r == ErrorReply("Missing plan")
    ensures Truthy(Field(f, "plan", JObj([]))) ==>
      (Field(f, "step_id", JNull) == JNull <==> r == ErrorReply("Missing step_id"))
    ensures Truthy(Field(f, "plan", JObj([]))) && Field(f, "step_id", JNull) != JNull ==>
      (!Truthy(Field(f, "file_path", JStr(""))) <==> r == ErrorReply("Missing file_path"))
    ensures IsSuccess(r) <==>
      Truthy(Field(f, "plan", JObj([]))) && Field(f, "step_id", JNull) != JNull && Truthy(Field(f, "file_path", JStr("")))
  {
    var plan := Field(f, "plan", JObj([]));
    var stepId := Field(f, "step_id", JNull);
    var filePath := Field(f, "file_path", JStr(""));
    if !Truthy(plan) then ErrorReply("Missing plan")
    else if stepId == JNull then ErrorReply("Missing step_id")
    else if !Truthy(filePath) then ErrorReply("Missing file_path")
    else Success([
      ("message", JStr("Implemented changes for step " + Str(stepId) + " in file " + Str(filePath))),
      ("file_path", filePath),
      ("changes_made", JBool(true))])
  }

  /** A step id of 0 is accepted: only a missing or null step id is refused. */
  lemma ImplementAcceptsStepZero(f: seq<(string, Json)>)
    requires Truthy(Field(f, "plan", JObj([]))) && Truthy(Field(f, "file_path", JStr("")))
    requires Field(f, "step_id", JNull) == JInt(0)
    ensures IsSuccess(Implement(f))
  {
  }

  /** `_review_code`: file_path is required; the review finds no issues and no suggestions. */
  function Review(f: seq<(string, Json)>): (r: Json)
    ensures !Truthy(Field(f, "file_path", JStr(""))) <==> r == ErrorReply("Missing file_path")
    ensures Truthy(Field(f, "file_path", JStr(""))) ==>
      IsSuccess(r) && |r.fields| == 4 && r.fields[2] == ("issues", JArr([])) && r.fields[3] == ("suggestions", JArr([]))
  {
    var filePath := Field(f, "file_path", JStr(""));
    if !Truthy(filePath) then ErrorReply("Missing file_path")
    else Success([
      ("message", JStr("Reviewed code in file " + Str(filePath))),
      ("issues", JArr([])),
      ("suggestions", JArr([]))])
  }

  /** `_refactor_code`: file_path, then refactoring_type. */
  function Refactor(f: seq<(string, Json)>): (r: Json)
    ensures !Truthy(Field(f, "file_path", JStr(""))) <==> r == ErrorReply("Missing file_path")
    ensures Truthy(Field(f, "file_path", JStr(""))) ==>
      (!Truthy(Field(f, "refactoring_type", JStr(""))) <==> r == ErrorReply("Missing refactoring_type"))
    ensures IsSuccess(r) <==> Truthy(Field(f, "file_path", JStr(""))) && Truthy(Field(f, "refactoring_type", JStr("")))
    ensures IsSuccess(r) ==> |r.fields| == 4 && r.fields[2] == ("file_path", Field(f, "file_path", JStr("")))
  {
    var filePath := Field(f, "file_path", JStr(""));
    var kind := Field(f, "refactoring_type", JStr(""));
    if !Truthy(filePath) then ErrorReply("Missing file_path")
    else if !Truthy(kind) then ErrorReply("Missing refactoring_type")
    else Success([
      ("message", JStr("Refactored code in file " + Str(filePath) + " using " + Str(kind) + " refactoring")),
      ("file_path", filePath),
      ("changes_made", JBool(true))])
  }
}
