/**
 * tools/run_command.py: the run_command tool up to the process launch — the
 * parameter check, the approval gate, the command counter and the ids it
 * hands out, and the table of non-blocking commands. The launch itself is
 * an outcome the host supplies.
 */
module RunCommand {
  import opened Text
  import opened Values
  import opened ToolUtils
  import opened BaseTool
  import opened AgentBase

  /** The tool's schema text, without its descriptions; only its `required` list is read. */
  const Schema :=
    "{\"properties\": {\"CommandLine\": {\"type\": \"string\"}, \"Cwd\": {\"type\": \"string\"}, "
    + "\"Blocking\": {\"type\": \"boolean\"}, \"WaitMsBeforeAsync\": {\"type\": \"integer\"}, "
    + "\"SafeToAutoRun\": {\"type\": \"boolean\"}}, \"additionalProperties\": false, \"type\": \"object\", "
    + "\"required\": [\"CommandLine\", \"Cwd\", \"Blocking\", \"WaitMsBeforeAsync\", \"SafeToAutoRun\"]}"

  const Required := ["CommandLine", "Cwd", "Blocking", "WaitMsBeforeAsync", "SafeToAutoRun"]

  function Info(): ToolInfo {
    ToolInfo("run_command", "PROPOSE a command to run on behalf of the user.", Schema)
  }

  /** A started process: how it ends, and whether it ends within the caller's wait. */
  datatype Run = Run(exitCode: int, stdout: string, stderr: string, endsWithinWait: bool)

  /** What starting the shell gives: a process, or the exception it raised. */
  datatype Launch = Spawned(run: Run) | LaunchFailed(reason: string)

  /** `f"cmd_{n}"` */
  function CmdId(n: nat): string {
    "cmd_" + NatToString(n)
  }

  /** Different counter values give different ids. */
  lemma CmdIdInjective(a: nat, b: nat)
    requires CmdId(a) == CmdId(b)
    ensures a == b
  {
    assert CmdId(a)[4..] == NatToString(a);
    assert CmdId(b)[4..] == NatToString(b);
    DigitsValueOfNatToString(a);
    DigitsValueOfNatToString(b);
  }

  function WaitingReply(commandLine: Json, cwd: Json): Json {
    JObj([("status", JStr("waiting_for_approval")),
          ("message", JStr("This command requires user approval before execution.")),
          ("command_line", commandLine), ("cwd", cwd)])
  }

  function CompletedReply(id: string, run: Run): Json {
    JObj([("command_id", JStr(id)), ("status", JStr("completed")), ("exit_code", JInt(run.exitCode)),
          ("stdout", JStr(run.stdout)), ("stderr", JStr(run.stderr))])
  }

  function RunningReply(id: string): Json {
    JObj([("command_id", JStr(id)), ("status", JStr("running")), ("message", JStr("Command started with ID " + id))])
  }

  function FailedReply(reason: string): Json {
    ErrorOnly("Failed to execute command: " + reason)
  }

  /**
   * The reply once a non-blocking command has started: `wait_ms > 0`, and
   * the process ending within the wait, give its result; otherwise it is
   * reported running. A wait that is not a number fails the comparison.
   */
  function NonBlockingReply(id: string, run: Run, waitMs: Json): (r: Json)
    ensures NumberOf(waitMs).Some? && NumberOf(waitMs).value <= 0 ==> r == RunningReply(id)
    ensures NumberOf(waitMs).Some? && NumberOf(waitMs).value > 0 ==>
      r == if run.endsWithinWait then CompletedReply(id, run) else RunningReply(id)
    ensures NumberOf(waitMs).None? ==> r.JObj? && Keys(r.fields) == ["error"]
  {
    match NumberOf(waitMs)
    case None => FailedReply("'>' not supported between instances of '" + TypeName(waitMs) + "' and 'int'")
    case Some(n) => if n > 0 && run.endsWithinWait then CompletedReply(id, run) else RunningReply(id)
  }

  /** The reply of `execute`, and the counter and table of running commands after it. */
  datatype Ran = Ran(reply: Outcome<Json>, counter: nat, running: map<string, Run>)

  /**
   * `execute` from the counter `counter` and the table `running`, as a value.
   * Refusals leave both alone; a command marked safe takes the next id, and
   * only a non-blocking one that starts is recorded under it.
   */
  function RunResult(counter: nat, running: map<string, Run>, params: Json, parse: Parser, workingDir: string,
                     launch: Launch): (x: Ran)
    ensures x.counter == counter || x.counter == counter + 1
  {
    match ValidationReply(Schema, params, parse)
    case Raise(e) => Ran(Raise(e), counter, running)
    case Ok(Some(reply)) => Ran(Ok(reply), counter, running)
    case Ok(None) =>
      if !params.JObj? then Ran(Raise(NoAttribute(params, "get")), counter, running)
      else StartResult(counter, running, params.fields, workingDir, launch)
  }

  /** `execute` once the parameters are checked and `params` is a dict with fields `f`. */
  function StartResult(counter: nat, running: map<string, Run>, f: seq<(string, Json)>, workingDir: string,
                       launch: Launch): (x: Ran)
    ensures x.counter == counter || x.counter == counter + 1
  {
    if !Truthy(Field(f, "SafeToAutoRun", JBool(false))) then
      Ran(Ok(WaitingReply(Field(f, "CommandLine", JStr("")), Field(f, "Cwd", JStr(workingDir)))), counter, running)
    else
      var id := CmdId(counter + 1);
      match launch
      case LaunchFailed(reason) => Ran(Ok(FailedReply(reason)), counter + 1, running)
      case Spawned(run) =>
        if Truthy(Field(f, "Blocking", JBool(true))) then Ran(Ok(CompletedReply(id, run)), counter + 1, running)
        else Ran(Ok(NonBlockingReply(id, run, Field(f, "WaitMsBeforeAsync", JInt(0)))), counter + 1, running[id := run])
  }

  /** What `execute` answers and records in each case. */
  lemma RunResultCases(counter: nat, running: map<string, Run>, params: Json, parse: Parser, workingDir: string,
                       launch: Launch)
    ensures var x := RunResult(counter, running, params, parse, workingDir, launch);
      ValidateParams(Schema, params, parse) != Ok(None) ==> x.counter == counter && x.running == running
    ensures var x := RunResult(counter, running, params, parse, workingDir, launch);
      && (ValidationReply(Schema, params, parse).Raise? ==> x.reply == Raise(ValidationReply(Schema, params, parse).error))
      && (ValidationReply(Schema, params, parse).Ok? && ValidationReply(Schema, params, parse).value.Some? ==>
            x.reply == Ok(ValidationReply(Schema, params, parse).value.value))
      && (ValidateParams(Schema, params, parse) == Ok(None) && !params.JObj? ==>
            x.reply.Raise? && x.counter == counter && x.running == running)
    ensures var x := RunResult(counter, running, params, parse, workingDir, launch);
      ValidateParams(Schema, params, parse) == Ok(None) && params.JObj? ==>
      var f := params.fields;
      && (!Truthy(Field(f, "SafeToAutoRun", JBool(false))) ==>
            x == Ran(Ok(WaitingReply(Field(f, "CommandLine", JStr("")), Field(f, "Cwd", JStr(workingDir)))), counter, running))
      && (Truthy(Field(f, "SafeToAutoRun", JBool(false))) ==>
            var id := CmdId(counter + 1);
            && x.counter == counter + 1
            && (launch.LaunchFailed? ==> x.running == running && x.reply == Ok(FailedReply(launch.reason)))
            && (launch.Spawned? && Truthy(Field(f, "Blocking", JBool(true))) ==>
                  x.running == running && x.reply == Ok(CompletedReply(id, launch.run)))
            && (launch.Spawned? && !Truthy(Field(f, "Blocking", JBool(true))) ==>
                  x.running == running[id := launch.run]
                  && x.reply == Ok(NonBlockingReply(id, launch.run, Field(f, "WaitMsBeforeAsync", JInt(0))))))
  {
  }

  /** A command that takes an id takes one that no recorded command carries. */
  lemma FreshId(counter: nat, running: map<string, Run>)
    requires forall id :: id in running ==> exists n :: 1 <= n <= counter && id == CmdId(n)
    ensures CmdId(counter + 1) !in running
  {
    forall x | x in running ensures x != CmdId(counter + 1) {
      var n :| 1 <= n <= counter && x == CmdId(n);
      if x == CmdId(counter + 1) { CmdIdInjective(n, counter + 1); }
    }
  }

  class RunCommandTool {
    /** `_command_counter`: the number of commands started so far. */
    var counter: nat
    /** `_running_commands`: the non-blocking commands, by id. */
    var running: map<string, Run>

    /** Every recorded id was handed out by the counter. */
    ghost predicate Valid()
      reads this
    {
      forall id :: id in running ==> exists n :: 1 <= n <= counter && id == CmdId(n)
    }

    constructor ()
      ensures Valid() && counter == 0 && running == map[]
    {
      counter := 0;
      running := map[];
    }

    /**
     * `execute`. A failed parameter check or a command not marked safe
     * returns before the counter moves; every other call takes the next id,
     * which no recorded command carries. Only a non-blocking launch that
     * succeeds is recorded.
     */
    method Execute(params: Json, parse: Parser, workingDir: string, launch: Launch) returns (r: Outcome<Json>)
      requires Valid()
      modifies this
      ensures Valid()
      ensures Ran(r, counter, running) == RunResult(old(counter), old(running), params, parse, workingDir, launch)
      ensures counter == old(counter) || counter == old(counter) + 1
      ensures ValidateParams(Schema, params, parse) != Ok(None) ==> unchanged(this)
      ensures ValidationReply(Schema, params, parse).Raise? ==> r == Raise(ValidationReply(Schema, params, parse).error)
      ensures ValidationReply(Schema, params, parse).Ok? && ValidationReply(Schema, params, parse).value.Some? ==>
        r == Ok(ValidationReply(Schema, params, parse).value.value)
      ensures ValidateParams(Schema, params, parse) == Ok(None) && !params.JObj? ==> r.Raise? && unchanged(this)
      ensures ValidateParams(Schema, params, parse) == Ok(None) && params.JObj? ==>
        var f := params.fields;
        && (!Truthy(Field(f, "SafeToAutoRun", JBool(false))) ==>
              unchanged(this)
              && r == Ok(WaitingReply(Field(f, "CommandLine", JStr("")), Field(f, "Cwd", JStr(workingDir)))))
        && (Truthy(Field(f, "SafeToAutoRun", JBool(false))) ==>
              var id := CmdId(counter);
              && counter == old(counter) + 1 && id !in old(running)
              && (launch.LaunchFailed? ==> running == old(running) && r == Ok(FailedReply(launch.reason)))
              && (launch.Spawned? && Truthy(Field(f, "Blocking", JBool(true))) ==>
                    running == old(running) && r == Ok(CompletedReply(id, launch.run)))
              && (launch.Spawned? && !Truthy(Field(f, "Blocking", JBool(true))) ==>
                    running == old(running)[id := launch.run]
                    && r == Ok(NonBlockingReply(id, launch.run, Field(f, "WaitMsBeforeAsync", JInt(0))))))
    {
      RunResultCases(counter, running, params, parse, workingDir, launch);
      FreshId(counter, running);
      var check := ValidationReply(Schema, params, parse);
      if check.Raise? {
        r := Raise(check.error);
      } else if check.value.Some? {
        r := Ok(check.value.value);
      } else if !params.JObj? {
        r := Raise(NoAttribute(params, "get"));
      } else {
        r := Start(params.fields, workingDir, launch);
      }
    }

    /**
     * The rest of `execute`: a command not marked safe waits for approval;
     * one marked safe takes the next id, and is recorded under it only when
     * it runs in the background.
     */
    method Start(f: seq<(string, Json)>, workingDir: string, launch: Launch) returns (r: Outcome<Json>)
      requires Valid()
      modifies this
      ensures Valid()
      ensures Ran(r, counter, running) == StartResult(old(counter), old(running), f, workingDir, launch)
      ensures !Truthy(Field(f, "SafeToAutoRun", JBool(false))) ==> unchanged(this)
    {
      var commandLine := Field(f, "CommandLine", JStr(""));
      var cwd := Field(f, "Cwd", JStr(workingDir));
      var blocking := Field(f, "Blocking", JBool(true));
      var waitMs := Field(f, "WaitMsBeforeAsync", JInt(0));
      var safe := Field(f, "SafeToAutoRun", JBool(false));
      if !Truthy(safe) {
        return Ok(WaitingReply(commandLine, cwd));
      }
      counter := counter + 1;
      var id := CmdId(counter);
      FreshId(old(counter), old(running));
      if launch.LaunchFailed? {
        return Ok(FailedReply(launch.reason));
      }
      if Truthy(blocking) {
        return Ok(CompletedReply(id, launch.run));
      }
      running := running[id := launch.run];
      r := Ok(NonBlockingReply(id, launch.run, waitMs));
    }
  }

  /** The check passes exactly when every one of the five names is a key, whatever the values. */
  lemma ExecuteChecksRequired(fields: seq<(string, Json)>, parse: Parser)
    requires RequiresExactly(Schema, parse, Required)
    ensures ValidateParams(Schema, JObj(fields), parse) == Ok(None)
        <==> forall i :: 0 <= i < |Required| ==> Required[i] in Keys(fields)
  {
    ValidateParamsPasses(Schema, fields, parse, Required);
  }
}
