/**
 * The tool side shared by tools/mcp_server.py and
 * tools/multi_agent_mcp_server.py: the five tools both servers construct,
 * the name-keyed registry `_register_tools` fills, `execute_tool`, and the
 * loop of `process_message` that answers the tool calls found in a message,
 * one reply per call, until a call raises.
 *
 * What the servers take from their host is bundled in `Host`: the JSON
 * decoder and encoder, the clock, the working directory, how a command
 * launch turns out, and what the write_to_file tool answers.
 */
module ToolRegistry {
  import opened Values
  import opened ToolUtils
  import opened BaseTool
  import opened FileSystem
  import BrowserPreview
  import RunCommand
  import ViewFile
  import EditFile
  import opened ToolLoop

  /**
   * The host: `parse` and `dumps` stand for `json.loads` and `json.dumps`,
   * `now` for `time.time()`, `launch(n, params)` for the outcome of starting
   * the n-th command, and `writeFile(fs, params)` for write_to_file's reply
   * and the disk it leaves.
   */
  datatype Host = Host(
    parse: Parser, dumps: Dumper, now: nat, workingDir: string,
    launch: (nat, Json) -> RunCommand.Launch, writeFile: (Fs, Json) -> Wrote)

  /** write_to_file's reply and the disk after it: the file it created, and the directories above it. */
  datatype Wrote = Wrote(reply: Outcome<Json>, fs: Fs)

  datatype ToolKind = BrowserPreviewTool | RunCommandTool | ViewFileTool | WriteToFileTool | EditFileTool

  /** tools/write_to_file.py is not part of this model beyond its name and required parameters. */
  const WriteToFileSchema :=
    "{\"properties\": {\"TargetFile\": {\"type\": \"string\"}, \"CodeContent\": {\"type\": \"string\"}, "
    + "\"EmptyFile\": {\"type\": \"boolean\"}}, \"additionalProperties\": false, \"type\": \"object\", "
    + "\"required\": [\"TargetFile\", \"CodeContent\", \"EmptyFile\"]}"

  function InfoOf(k: ToolKind): ToolInfo {
    match k
    case BrowserPreviewTool => BrowserPreview.Info()
    case RunCommandTool => RunCommand.Info()
    case ViewFileTool => ViewFile.Info()
    case WriteToFileTool => ToolInfo("write_to_file", "Use this tool to create new files.", WriteToFileSchema)
    case EditFileTool => EditFile.Info()
  }

  /** `tool.name` */
  function NameOf(k: ToolKind): string {
    match k
    case BrowserPreviewTool => "browser_preview"
    case RunCommandTool => "run_command"
    case ViewFileTool => "view_file"
    case WriteToFileTool => "write_to_file"
    case EditFileTool => "edit_file"
  }

  /** The key a tool is registered under is the name it was constructed with. */
  lemma NameOfInfo(k: ToolKind)
    ensures NameOf(k) == InfoOf(k).name
  {
    match k
    case BrowserPreviewTool =>
    case RunCommandTool =>
    case ViewFileTool =>
    case WriteToFileTool =>
    case EditFileTool =>
  }

  /** The tools `_register_tools` constructs, in order. */
  const Constructed := [BrowserPreviewTool, RunCommandTool, ViewFileTool, WriteToFileTool, EditFileTool]

  /** `self.tools` after `self.tools[tool.name] = tool` for each of `ks` in turn. */
  function RegistryOf(ks: seq<ToolKind>): map<string, ToolKind>
    decreases |ks|
  {
    if ks == [] then map[]
    else RegistryOf(ks[..|ks| - 1])[NameOf(ks[|ks| - 1]) := ks[|ks| - 1]]
  }

  /** The keys of that dict in insertion order: a name is placed when first assigned. */
  function OrderOf(ks: seq<ToolKind>): seq<string>
    decreases |ks|
  {
    if ks == [] then []
    else
      var prefix := ks[..|ks| - 1];
      var name := NameOf(ks[|ks| - 1]);
      if name in RegistryOf(prefix) then OrderOf(prefix) else OrderOf(prefix) + [name]
  }

  /** Registering tools with pairwise distinct names maps each one by its name, and nothing else. */
  lemma {:induction false} RegistryByName(ks: seq<ToolKind>)
    requires forall i, j :: 0 <= i < j < |ks| ==> NameOf(ks[i]) != NameOf(ks[j])
    ensures forall i :: 0 <= i < |ks| ==> NameOf(ks[i]) in RegistryOf(ks) && RegistryOf(ks)[NameOf(ks[i])] == ks[i]
    ensures forall n :: n in RegistryOf(ks) ==> exists i :: 0 <= i < |ks| && NameOf(ks[i]) == n
    decreases |ks|
  {
    if ks != [] {
      var prefix := ks[..|ks| - 1];
      RegistryByName(prefix);
      forall i | 0 <= i < |ks|
        ensures NameOf(ks[i]) in RegistryOf(ks) && RegistryOf(ks)[NameOf(ks[i])] == ks[i]
      {
        if i < |ks| - 1 {
          assert ks[i] == prefix[i];
        }
      }
      forall n | n in RegistryOf(ks)
        ensures exists i :: 0 <= i < |ks| && NameOf(ks[i]) == n
      {
        if n != NameOf(ks[|ks| - 1]) {
          assert n in RegistryOf(prefix);
          var i :| 0 <= i < |prefix| && NameOf(prefix[i]) == n;
          assert ks[i] == prefix[i];
        }
      }
    }
  }

  /** The five tools are registered under their five distinct names, in construction order. */
  lemma ConstructedRegistry()
    ensures RegistryOf(Constructed) == map[
      "browser_preview" := BrowserPreviewTool, "run_command" := RunCommandTool, "view_file" := ViewFileTool,
      "write_to_file" := WriteToFileTool, "edit_file" := EditFileTool]
    ensures OrderOf(Constructed) == ["browser_preview", "run_command", "view_file", "write_to_file", "edit_file"]
  {
    var ks := Constructed;
    assert ks[..0] == [];
    RegisterStep(ks, 0);
    RegisterStep(ks, 1);
    RegisterStep(ks, 2);
    RegisterStep(ks, 3);
    RegisterStep(ks, 4);
    assert ks[..5] == ks;
  }

  /** One more registration assigns the next tool by name, and places a new name last. */
  lemma RegisterStep(ks: seq<ToolKind>, i: nat)
    requires i < |ks|
    ensures RegistryOf(ks[..i + 1]) == RegistryOf(ks[..i])[NameOf(ks[i]) := ks[i]]
    ensures OrderOf(ks[..i + 1]) ==
      if NameOf(ks[i]) in RegistryOf(ks[..i]) then OrderOf(ks[..i]) else OrderOf(ks[..i]) + [NameOf(ks[i])]
  {
    assert ks[..i + 1][..i] == ks[..i];
  }

  /** Every tool is held under its own name, and `order` lists the keys once each. */
  ghost predicate Keyed(tools: map<string, ToolKind>, order: seq<string>) {
    && (forall n :: n in tools <==> n in order)
    && (forall i, j :: 0 <= i < j < |order| ==> order[i] != order[j])
    && (forall n :: n in tools ==> NameOf(tools[n]) == n)
  }

  /** `self.tools[tool.name] = tool` keeps the registry keyed by name. */
  lemma KeyedStep(tools: map<string, ToolKind>, order: seq<string>, k: ToolKind)
    requires Keyed(tools, order)
    ensures Keyed(tools[NameOf(k) := k], if NameOf(k) in tools then order else order + [NameOf(k)])
  {
  }

  /** What the tools keep between calls: run_command's counter and table of running commands, and the disk. */
  datatype ToolState = ToolState(counter: nat, running: map<string, RunCommand.Run>, fs: Fs)

  /**
   * `execute_tool` on the state `st`: an unregistered name is answered
   * without running a tool; run_command moves the counter and the table,
   * edit_file rewrites the disk's files, write_to_file leaves the disk its
   * host gives, and the other tools change nothing.
   */
  function ToolResult(tools: map<string, ToolKind>, name: string, params: Json, host: Host, st: ToolState): (x: Executed<ToolState>)
    ensures name !in tools ==> x == Executed(Ok(ErrorOnly("Tool not found: " + name)), st)
    ensures name in tools && tools[name] != WriteToFileTool ==> x.state.fs.dirs == st.fs.dirs
    ensures name in tools && tools[name] != RunCommandTool ==> x.state.counter == st.counter && x.state.running == st.running
    ensures name in tools && tools[name] != EditFileTool && tools[name] != WriteToFileTool ==> x.state.fs == st.fs
    ensures name in tools && tools[name] == WriteToFileTool ==> Wrote(x.reply, x.state.fs) == host.writeFile(st.fs, params)
  {
    if name !in tools then Executed(Ok(ErrorOnly("Tool not found: " + name)), st)
    else
      match tools[name]
      case BrowserPreviewTool => Executed(BrowserPreview.Execute(params, host.parse), st)
      case RunCommandTool =>
        var ran := RunCommand.RunResult(st.counter, st.running, params, host.parse, host.workingDir,
                                        host.launch(st.counter + 1, params));
        Executed(ran.reply, ToolState(ran.counter, ran.running, st.fs))
      case ViewFileTool => Executed(ViewFile.Execute(params, host.parse, st.fs), st)
      case WriteToFileTool =>
        var w := host.writeFile(st.fs, params);
        Executed(w.reply, ToolState(st.counter, st.running, w.fs))
      case EditFileTool =>
        var w := EditFile.EditResult(st.fs.files, params, host.parse);
        Executed(w.reply, ToolState(st.counter, st.running, Fs(w.files, st.fs.dirs)))
  }

  /** `execute_tool` as one step of the tool-call loop: a call run on a state. */
  function ToolStep(tools: map<string, ToolKind>, host: Host): (ToolCall, ToolState) -> Executed<ToolState> {
    (c: ToolCall, st: ToolState) => ToolResult(tools, c.name, c.parameters, host, st)
  }

  /** `step` is `execute_tool` on `tools` and `host`, read off wherever `ToolResult` is. */
  ghost predicate Runs(step: (ToolCall, ToolState) -> Executed<ToolState>, tools: map<string, ToolKind>, host: Host) {
    forall c: ToolCall, st: ToolState {:trigger ToolResult(tools, c.name, c.parameters, host, st)} ::
      step(c, st) == ToolResult(tools, c.name, c.parameters, host, st)
  }

  lemma ToolStepRuns(tools: map<string, ToolKind>, host: Host)
    ensures Runs(ToolStep(tools, host), tools, host)
  {
  }

  /** The server's tool-call loop answers an unregistered name "Tool not found", whatever ran before it. */
  lemma AnswerAllNotFound(tools: map<string, ToolKind>, host: Host, calls: seq<ToolCall>, st: ToolState)
    ensures var s := AnswerAll(ToolStep(tools, host), calls, host.dumps, st);
      forall i :: 0 <= i < |s.outcomes| && calls[i].name !in tools ==>
        s.outcomes[i] == Ok(ErrorOnly("Tool not found: " + calls[i].name))
  {
    var refusal := (n: string) => ErrorOnly("Tool not found: " + n);
    forall i, t: ToolState | 0 <= i < |calls| && calls[i].name !in tools.Keys
      ensures ToolStep(tools, host)(calls[i], t).reply == Ok(refusal(calls[i].name))
    {
    }
    AnswerAllUnknown(ToolStep(tools, host), calls, host.dumps, st, tools.Keys, refusal);
  }

  /** Calls that name none of run_command, edit_file and write_to_file. */
  ghost predicate Stateless(tools: map<string, ToolKind>, calls: seq<ToolCall>) {
    forall i :: 0 <= i < |calls| && calls[i].name in tools ==>
      tools[calls[i].name] != RunCommandTool && tools[calls[i].name] != EditFileTool
      && tools[calls[i].name] != WriteToFileTool
  }

  /**
   * With no call to run_command, edit_file or write_to_file, each call of the loop is
   * answered as its tool answers on the starting state, and the state is
   * left as it was.
   */
  lemma AnswerAllStateless(tools: map<string, ToolKind>, host: Host, calls: seq<ToolCall>, st: ToolState)
    requires Stateless(tools, calls)
    ensures var s := AnswerAll(ToolStep(tools, host), calls, host.dumps, st);
      && s.state == st
      && forall i :: 0 <= i < |s.outcomes| ==>
           s.outcomes[i] == ToolResult(tools, calls[i].name, calls[i].parameters, host, st).reply
  {
    forall i | 0 <= i < |calls| ensures ToolStep(tools, host)(calls[i], st).state == st {
    }
    AnswerAllFixed(ToolStep(tools, host), calls, host.dumps, st);
  }

  /**
   * A file write_to_file creates is there for a later call of the same
   * message: after a write that did not raise, view_file reads the disk the
   * write left.
   */
  lemma WriteThenView(tools: map<string, ToolKind>, host: Host, w: ToolCall, v: ToolCall, st: ToolState)
    requires w.name in tools && tools[w.name] == WriteToFileTool
    requires v.name in tools && tools[v.name] == ViewFileTool
    requires host.writeFile(st.fs, w.parameters).reply.Ok?
    ensures var s := AnswerAll(ToolStep(tools, host), [w, v], host.dumps, st);
      && |s.outcomes| == 2
      && s.outcomes[1] == ViewFile.Execute(v.parameters, host.parse, host.writeFile(st.fs, w.parameters).fs)
  {
    var step := ToolStep(tools, host);
    var x := step(w, st);
    assert x.reply == host.writeFile(st.fs, w.parameters).reply;
    assert x.state.fs == host.writeFile(st.fs, w.parameters).fs;
    AnswerAllFrom(step, [w, v], 0, host.dumps, st);
    AnswerAllFrom(step, [w, v], 1, host.dumps, x.state);
    assert [w, v][2..] == [];
  }

  /** The tools of one server, and the state the two stateful ones keep. */
  class Toolbox {
    /** `self.tools` */
    var tools: map<string, ToolKind>
    /** The keys of `self.tools` in insertion order. */
    var order: seq<string>
    /** The run_command instance, with its counter and table of running commands. */
    const runCommand: RunCommand.RunCommandTool
    /** The disk view_file reads and edit_file writes. */
    const disk: Disk

    /** Every tool is held under its own name, and `order` lists the keys once each. */
    ghost predicate Valid()
      reads this, runCommand
    {
      runCommand.Valid() && Keyed(tools, order)
    }

    /** run_command's counter and table, and the disk. */
    ghost function State(): ToolState
      reads runCommand, disk
    {
      ToolState(runCommand.counter, runCommand.running, disk.View())
    }

    /** `__init__` and `_register_tools`: the five tools, registered by name. */
    constructor (disk: Disk)
      ensures Valid() && tools == RegistryOf(Constructed) && order == OrderOf(Constructed)
      ensures this.disk == disk && fresh(runCommand) && runCommand.counter == 0 && runCommand.running == map[]
    {
      tools := map[];
      order := [];
      runCommand := new RunCommand.RunCommandTool();
      this.disk := disk;
      new;
      RegisterTools(Constructed);
    }

    /** `for tool in tools: self.tools[tool.name] = tool`, from an empty registry. */
    method RegisterTools(ks: seq<ToolKind>)
      requires Valid() && tools == map[] && order == []
      modifies this
      ensures Valid() && tools == RegistryOf(ks) && order == OrderOf(ks)
    {
      var i := 0;
      while i < |ks|
        invariant 0 <= i <= |ks|
        invariant Valid()
        invariant tools == RegistryOf(ks[..i]) && order == OrderOf(ks[..i])
      {
        var k := ks[i];
        RegisterStep(ks, i);
        KeyedStep(tools, order, k);
        if NameOf(k) !in tools {
          order := order + [NameOf(k)];
        }
        tools := tools[NameOf(k) := k];
        i := i + 1;
      }
      assert ks[..|ks|] == ks;
    }

    /** `get_tool_definitions`: each registered tool's dict under its name, in registration order. */
    function Definitions(): (r: Json)
      reads this
      ensures r.JObj? && Keys(r.fields) == order
      ensures Keyed(tools, order) ==>
        forall i :: 0 <= i < |order| ==> r.fields[i].1 == ToDict(InfoOf(tools[order[i]]))
    {
      JObj(seq(|order|, i requires 0 <= i < |order| reads this =>
        (order[i], if order[i] in tools then ToDict(InfoOf(tools[order[i]])) else JNull)))
    }

    /**
     * `execute_tool`: an unregistered name is answered without running any
     * tool; a registered one runs that tool on the parameters.
     */
    method ExecuteTool(name: string, params: Json, host: Host) returns (r: Outcome<Json>)
      requires Valid()
      modifies runCommand, disk
      ensures Valid()
      ensures name !in tools ==> r == Ok(ErrorOnly("Tool not found: " + name)) && unchanged(runCommand, disk)
      ensures name in tools && tools[name] == BrowserPreviewTool ==>
        r == BrowserPreview.Execute(params, host.parse) && unchanged(runCommand, disk)
      ensures name in tools && tools[name] == ViewFileTool ==>
        r == ViewFile.Execute(params, host.parse, old(disk.View())) && unchanged(runCommand, disk)
      ensures name in tools && tools[name] == WriteToFileTool ==>
        unchanged(runCommand) && Wrote(r, disk.View()) == host.writeFile(old(disk.View()), params)
      ensures name in tools && tools[name] == RunCommandTool ==>
        && unchanged(disk)
        && RunCommand.Ran(r, runCommand.counter, runCommand.running)
           == RunCommand.RunResult(old(runCommand.counter), old(runCommand.running), params, host.parse, host.workingDir,
                                   host.launch(old(runCommand.counter) + 1, params))
      ensures name in tools && tools[name] == EditFileTool ==>
        && unchanged(runCommand) && disk.dirs == old(disk.dirs)
        && EditFile.Written(r, disk.files) == EditFile.EditResult(old(disk.files), params, host.parse)
      ensures Executed(r, State()) == ToolResult(tools, name, params, host, old(State()))
    {
      ghost var x := ToolResult(tools, name, params, host, State());
      if name !in tools {
        return Ok(ErrorOnly("Tool not found: " + name));
      }
      match tools[name]
      case BrowserPreviewTool =>
        r := BrowserPreview.Execute(params, host.parse);
      case RunCommandTool =>
        r := RunCommandStep(params, host);
      case ViewFileTool =>
        r := ViewFile.Execute(params, host.parse, disk.View());
      case WriteToFileTool =>
        var w := host.writeFile(disk.View(), params);
        disk.files, disk.dirs := w.fs.files, w.fs.dirs;
        r := w.reply;
      case EditFileTool =>
        r := EditStep(params, host);
    }

    /** One turn of the tool-call loop: `execute_tool` on a call, as the step it is proved to take. */
    method RunCall(c: ToolCall, host: Host, ghost step: (ToolCall, ToolState) -> Executed<ToolState>)
      returns (response: Outcome<Json>)
      requires Valid() && Runs(step, tools, host)
      modifies runCommand, disk
      ensures Valid()
      ensures Executed(response, State()) == step(c, old(State()))
    {
      response := ExecuteTool(c.name, c.parameters, host);
    }

    /** run_command's `execute`, through the value it is proved equal to. */
    method RunCommandStep(params: Json, host: Host) returns (r: Outcome<Json>)
      requires runCommand.Valid()
      modifies runCommand
      ensures runCommand.Valid()
      ensures RunCommand.Ran(r, runCommand.counter, runCommand.running)
        == RunCommand.RunResult(old(runCommand.counter), old(runCommand.running), params, host.parse, host.workingDir,
                                host.launch(old(runCommand.counter) + 1, params))
    {
      r := runCommand.Execute(params, host.parse, host.workingDir, host.launch(runCommand.counter + 1, params));
    }

    /** edit_file's `execute`, through the value it is proved equal to. */
    method EditStep(params: Json, host: Host) returns (r: Outcome<Json>)
      modifies disk
      ensures disk.dirs == old(disk.dirs)
      ensures EditFile.Written(r, disk.files) == EditFile.EditResult(old(disk.files), params, host.parse)
    {
      r := EditFile.Execute(disk, params, host.parse);
    }

    /**
     * The tool-call loop of `process_message`: each call is executed and its
     * formatted response sent; an exception sends `{"error": str(e)}` and
     * ends the loop.
     */
    method AnswerCalls(calls: seq<ToolCall>, host: Host) returns (replies: seq<string>, ghost outcomes: seq<Outcome<Json>>)
      requires Valid()
      modifies runCommand, disk
      ensures Valid()
      ensures Session(replies, outcomes, State()) == AnswerAll(ToolStep(tools, host), calls, host.dumps, old(State()))
      ensures Answered(calls, replies, outcomes, host.dumps)
      ensures forall i :: 0 <= i < |replies| && calls[i].name !in tools ==>
        outcomes[i] == Ok(ErrorOnly("Tool not found: " + calls[i].name))
      ensures calls == [] ==> replies == [] && unchanged(runCommand, disk)
    {
      AnswerAllAnswered(ToolStep(tools, host), calls, host.dumps, State());
      AnswerAllNotFound(tools, host, calls, State());
      ToolStepRuns(tools, host);
      replies, outcomes := AnswerEach(calls, host, ToolStep(tools, host));
    }

    /** The loop of `AnswerCalls`, run against a step that is `execute_tool`. */
    method AnswerEach(calls: seq<ToolCall>, host: Host, ghost step: (ToolCall, ToolState) -> Executed<ToolState>)
      returns (replies: seq<string>, ghost outcomes: seq<Outcome<Json>>)
      requires Valid() && Runs(step, tools, host)
      modifies runCommand, disk
      ensures Valid()
      ensures Session(replies, outcomes, State()) == AnswerAll(step, calls, host.dumps, old(State()))
      ensures calls == [] ==> replies == [] && unchanged(runCommand, disk)
    {
      ghost var whole := AnswerAll(step, calls, host.dumps, State());
      replies, outcomes := [], [];
      var i := 0;
      var raised := false;
      while i < |calls| && !raised
        invariant 0 <= i <= |calls| && |replies| == i
        invariant Valid()
        invariant calls == [] ==> unchanged(runCommand, disk)
        invariant raised ==> whole == Session(replies, outcomes, State())
        invariant !raised ==>
          var rest := AnswerAll(step, calls[i..], host.dumps, State());
          whole == Session(replies + rest.replies, outcomes + rest.outcomes, rest.state)
      {
        ghost var before := State();
        var response := RunCall(calls[i], host, step);
        AnswerAllAdvance(step, calls, i, host.dumps, before, State(), response, replies, outcomes, whole);
        replies, outcomes := replies + [Reply(calls[i].name, response, host.dumps)], outcomes + [response];
        raised := response.Raise?;
        i := i + 1;
      }
      if !raised {
        assert calls[i..] == [];
      }
    }
  }
}
