# pigi_saas: the MCP tool server, the multi-agent orchestrator and the HR helpers

This project models, in Dafny, the core of the `pigi_saas` repository.

- **The tool server.** `tools/mcp_server.py` and `tools/multi_agent_mcp_server.py` receive a text message. They find the
  `<tool_name>{json}</tool_name>` calls in it (`tools/utils.py`) and run each call against a registry of five tools:
  browser_preview, run_command, view_file, write_to_file and edit_file. Each result goes back wrapped as
  `<tool_name_response>…</tool_name_response>`.
- **The multi-agent router.** When a message holds no tool call, the multi-agent server decodes it as JSON. It hands it
  to the orchestrator or to one of four agents (coder, debugger, deeper_searcher, memory_bank) named by its `target`.
- **The orchestrator.** `tools/orchestrator.py` owns the agents and four workflow templates. It starts workflows, runs
  them one step at a time and reports their status.
- **The TypeScript helpers.**
  - the role checks (`lib/permissions.ts`, `lib/utils/employee-utils.ts`);
  - the post-login redirects (`app/auth/redirecting/page.tsx`, `app/page.tsx`);
  - the local logic of the employees API route: paging, the row-to-employee transform and the required-field check;
  - the department-request table's filter;
  - the SQL value formatting of the seed script.

Conventions of the model:

- JSON values are the `Values.Json` datatype. Dicts are insertion-ordered sequences of pairs, as Python's are.
- A Python exception is `Outcome.Raise(message)`; every handled error is the reply dict the code returns.
- `json.loads` and `json.dumps` are parameters: `Parser` and `Dumper` in `ToolUtils`.
- The surroundings are parameters too, bundled as `ToolRegistry.Host`:
  - the clock;
  - the working directory;
  - the subprocess launcher (`RunCommand.Launch`);
  - the file writer of write_to_file.
- The file system is a value, `FileSystem.Fs`: files mapped to their text, plus a set of directories. edit_file changes
  it through the class `FileSystem.Disk`.
- The regular expressions of the source are written out as scanners:
  - the tool-call pattern;
  - `validate_url`;
  - `safe_path`;
  - the `{{ ... }}` split of edit_file;
  - the error-type and `File "…", line N` patterns of the debugger agent.

Stateful objects are classes whose methods update their fields:

- `MemoryBank.MemoryBankAgent` holds its index and its contents;
- `RunCommand.RunCommandTool` holds its counter and running commands;
- `ToolRegistry.Toolbox` holds the tool registry;
- `Orchestration.Orchestrator` holds the active workflows;
- the two server classes hold their toolbox and orchestrator.

Each of these classes keeps an invariant `Valid()` that every method preserves. For example, every active workflow runs
its template's steps, and holds one record per finished step. The lemmas `Orchestration.AdvanceOk` and
`Orchestration.RunsToCompletion` prove that invariant step by step and over a whole run.

Three behaviours of the code are worth stating outright:

- **Workflow ids.** A workflow id is `"wf_<int(time.time())>_<name>"` (orchestrator.py:142). It is not unique: two starts of
  the same workflow in the same second get the same id, and the second replaces the first.
  `Orchestration.WorkflowIdCollides` proves exactly when two ids are equal.
- **Step action.** The message a workflow step sends its agent is `{"action": step_action, **parameters}`
  (orchestrator.py:287-290). A caller parameter named `action` overrides the step's action.
- **Workflow status.** No code path sets a status other than "running" or "completed" (orchestrator.py:148, 315-317).

## Model

| member | source | states |
|---|---|---|
| Values.Lookup | tools/orchestrator.py:128 | a dict lookup finds nothing exactly when the key is absent, and a value it finds is paired with that key in the dict |
| Values.LookupPut | tools/memory_bank_agent.py:89-95 | after `d[k] = v`, looking up k gives v and looking up any other key gives what it gave before |
| Values.KeysPut | tools/memory_bank_agent.py:89-95 | assigning a key keeps the key order, adding the key at the end only when it was absent |
| Values.Get | tools/orchestrator.py:128 | `d.get(k, default)` gives the value or the default on a dict, and raises AttributeError on anything else |
| Values.Spread | tools/orchestrator.py:287-290 | `{key: first, **p}` raises when p is not a dict; otherwise the keys of p come after key and override it |
| Values.SpreadLookup | tools/orchestrator.py:287-290 | in `{key: first, **p}`, a key of p reads p's value and key reads first only when p lacks it |
| Values.In | tools/base_tool.py:69 | Python `in`: key membership for a dict, `==` against some item for a list, substring for a string; None, booleans and integers raise |
| Values.PyEqRefl | tools/memory_bank_agent.py:131 | Python `==` (`PyEq`: 1 equals True, lists item by item, dicts by key whatever the order) holds between any value Python can hold and itself |
| Values.NestedListMember | tools/memory_bank_agent.py:131 | `[1] in [[True]]` is true: nested lists compare item by item |
| Values.DictOrderIgnored | tools/memory_bank_agent.py:131 | `{"a": 1, "b": 2} == {"b": 2, "a": 1}` |
| Values.AnyIn | tools/memory_bank_agent.py:131 | `any(x in c for x in xs)` is true only when some x is in c, and false only when every membership test gives false |
| Values.LowerOf | tools/memory_bank_agent.py:135 | `.lower()` succeeds exactly on strings and lower-cases each character |
| Values.ErrorReply | tools/orchestrator.py:132 | a handled-error reply is a dict whose status is "error" |
| Text.StripEmptyIffAllSpace | tools/edit_file.py:156 | `section.strip()` is empty exactly when the section is all white space |
| Text.StripPadded | tools/utils.py:20 | stripping removes exactly the surrounding white space, whatever the text between starts and ends with |
| Text.ContainsWitness | tools/edit_file.py:160 | a substring occurrence comes with the index it starts at |
| Text.JoinSplit | app/api/rh/employees/route.ts:87-89 | joining the pieces of `s.split(d)` with d gives s back |
| Text.DigitsValueOfNatToString | tools/orchestrator.py:142 | the decimal text of a natural number reads back as that number |
| ToolUtils.IdentLen | tools/utils.py:20 | the tag name is the longest run of identifier characters `[a-zA-Z0-9_]` |
| ToolUtils.TagAt | tools/utils.py:20 | a match at i starts at i, its name is an identifier, and its body, closing tag and end follow in that order within the text |
| ToolUtils.TagAtDelimits | tools/utils.py:20 | a match opens with `<name>` and its body is followed by `</name>` |
| ToolUtils.Matches | tools/utils.py:23 | `finditer` yields matches left to right that do not overlap, from the scan's start on, each with an identifier name and a matching closing tag |
| ToolUtils.MatchesFound | tools/utils.py:23 | every match `finditer` yields is the pattern's match at its own start |
| ToolUtils.CallsOf | tools/utils.py:26-39 | there are at most as many calls as matches |
| ToolUtils.CallsOfNames | tools/utils.py:26-39 | every call found carries the tag name of one of the matches |
| ToolUtils.ExtractToolCalls | tools/utils.py:9-41 | the loop over the matches returns exactly the calls whose stripped body decodes as JSON, in the text's order |
| ToolUtils.ToolCallsShape | tools/utils.py:9-41 | no more calls than matches, and every call name is an identifier |
| ToolUtils.ExtractWrapped | tools/utils.py:20-36 | a single `<name>body</name>` whose body decodes gives exactly one call with that name and those parameters |
| ToolUtils.FormatToolResponse | tools/utils.py:44-56 | the reply is `<name_response>`, then a newline, the dumped JSON and a newline, then `</name_response>` |
| ToolUtils.FormatThenExtract | tools/utils.py:9-56 | a formatted response, read back by the extractor, gives one call named `name_response` that carries the response |
| ToolUtils.ValidateUrlNeedsScheme | tools/utils.py:59-71 | an accepted URL starts with http:// or https://, and the character after the scheme is not white space |
| ToolUtils.ValidateUrlAccepts | tools/utils.py:59-71 | a scheme, then a host of at least two non-space characters not starting with one of `/$.?#`, is accepted |
| ToolUtils.ValidateUrlRejectsSpace | tools/utils.py:59-71 | a URL with white space right after the scheme is rejected |
| ToolUtils.SafePath | tools/utils.py:74-85 | removing every `../` never lengthens the path |
| ToolUtils.SafePathUnchanged | tools/utils.py:74-85 | safe_path leaves a path unchanged exactly when it contains no `../` |
| ToolUtils.SafePathNotIdempotent | tools/utils.py:74-85 | one pass is not enough: `....//` becomes `../`, which a second pass would remove |
| BaseTool.ToDict | tools/base_tool.py:38-49 | the dict form is name, description and schema, in that order, unchanged |
| BaseTool.FirstMissing | tools/base_tool.py:68-70 | the message names one of the required parameters |
| BaseTool.ValidationReply | tools/base_tool.py:51-76 | a validation message becomes `{"error": message}`, no message lets the call proceed, and exceptions propagate |
| BaseTool.FirstMissingNone | tools/base_tool.py:68-74 | with string names and dict parameters there is no message exactly when every required name is a key |
| BaseTool.FirstMissingStep | tools/base_tool.py:68-70 | a present name moves the loop on to the next; an absent one is reported at once |
| BaseTool.FirstMissingFirst | tools/base_tool.py:68-70 | the message names the first absent required name; every earlier one is present |
| BaseTool.ValidateParamsPasses | tools/base_tool.py:63-74 | parameters pass exactly when every required name is a key, whatever the values and any extra keys |
| BaseTool.ValidateParamsBadSchema | tools/base_tool.py:75-76 | a schema that does not decode gives "Invalid schema format" |
| AgentBase.MakeAgent | tools/agent_base.py:15-26 | an agent keeps its name and description; a missing tool list becomes empty |
| AgentBase.ToDict | tools/agent_base.py:43-54 | the dict form is name, description and the tools' dicts in order |
| AgentBase.ToolsByNameLookup | tools/agent_base.py:63 | in the prompt's tool table, each name maps to the dict of the last tool that has that name |
| AgentBase.SystemPromptNamesAgent | tools/agent_base.py:65-66 | the system prompt introduces the agent by its name |
| AgentBase.SystemPromptCarries | tools/agent_base.py:63-71 | the system prompt contains the description and the dumped tool table |
| AgentBase.ActionOf | tools/coder_agent.py:44 | `message.get("action", "")` defaults to "" and raises exactly when the message is not a dict |
| AgentBase.UnknownAction | tools/coder_agent.py:54-59 | the reply to an unknown action is an error that names the action and lists the available ones |
| BrowserPreview.Execute | tools/browser_preview.py:44-73 | validation errors and exceptions pass through; a URL that fails validate_url gives "Invalid URL format"; otherwise a success reply with the URL and name |
| BrowserPreview.PreviewAccepted | tools/browser_preview.py:55-73 | a well-formed http(s) URL with both required parameters gets the success reply |
| RunCommand.CmdIdInjective | tools/run_command.py:94-95 | distinct counter values give distinct command ids |
| RunCommand.NonBlockingReply | tools/run_command.py:116-149 | a wait of zero or less reports "running"; a positive wait reports the run's outcome; a wait that is not a number gives an error reply |
| RunCommand.RunCommandTool.constructor | tools/run_command.py:60-61 | the counter starts at 0 and no command is running |
| RunCommand.RunCommandTool.Execute | tools/run_command.py:63-154 | unsafe commands wait for approval and change nothing; safe ones take the next id, which was never used; blocking ones return their output; non-blocking ones are recorded as running; launch failures report the reason; reply, counter and table are `RunResult` of the old counter and table |
| RunCommand.RunResult | tools/run_command.py:63-154 | `execute` as a value: the counter moves by at most one per call |
| RunCommand.RunResultCases | tools/run_command.py:63-154 | validation failures, a non-dict and unsafe commands leave counter and table alone; a safe command takes id counter + 1; a launch failure and a blocking run leave the table; a non-blocking run is recorded under its id |
| RunCommand.FreshId | tools/run_command.py:94-95 | when every recorded id was issued at or below the counter, the next id is not recorded yet |
| RunCommand.RunCommandTool.Start | tools/run_command.py:78-154 | after validation, reply, counter and table are `StartResult`'s; an unsafe command changes nothing |
| RunCommand.ExecuteChecksRequired | tools/run_command.py:74-76 | a call passes validation exactly when all five required parameter names are present |
| ViewFile.Readlines | tools/view_file.py:93 | every line is non-empty and every line but the last ends in a newline |
| ViewFile.ConcatReadlines | tools/view_file.py:93 | joining the lines of a text gives the text back |
| ViewFile.Clamp | tools/view_file.py:99-100 | `max(0, min(x, total - 1))` lies in range, keeps an in-range x and sends x to the nearest end otherwise |
| ViewFile.ClampValue | tools/view_file.py:99-100 | the clamped value is the clamped number; an integer stays an integer; `True` stays `True` when the file has two lines or more and becomes 0 otherwise; `False` becomes 0 |
| ViewFile.BoolRangeKept | tools/view_file.py:99-100 | with `StartLine` and `EndLine` both `True` on a file of two lines or more, the reply's start_line and end_line are `True` |
| ViewFile.ClampRange | tools/view_file.py:99-100 | clamping keeps the order of start and end and never widens the range |
| ViewFile.Notes | tools/view_file.py:114-127 | there is no summary note exactly when the range starts at line 0 and reaches the last line |
| ViewFile.ViewRange | tools/view_file.py:96-129 | the reply carries the path, the clamped range and the total; it has a summary exactly when one is asked for and lines lie outside the range |
| ViewFile.ViewRangeBound | tools/view_file.py:87-103 | a range of at most 200 lines shows at most 201 lines |
| ViewFile.ViewRangeCovers | tools/view_file.py:103-110 | the lines before, within and after the shown range together make up the file's text |
| ViewFile.Execute | tools/view_file.py:58-132 | validation errors pass through, then the file-not-found check, the backwards-range and over-200 errors, then the range view of the file's lines as read in text mode, whose start_line and end_line are the parameters clamped as Python clamps them (`ClampValue`), so `True` can come back as `True` |
| ViewFile.BackwardsRangeRefused | tools/view_file.py:84-85 | an end line before the start line is refused for any existing file |
| ViewFile.BackwardsRangeIgnoresText | tools/view_file.py:84-85 | that refusal does not depend on the file's contents |
| EditFile.Sections | tools/edit_file.py:143 | splitting on the placeholder gives at least one section |
| EditFile.SectionsOfJoin | tools/edit_file.py:143 | sections without braces, joined by `{{ ... }}`, split back into the same sections |
| EditFile.FirstPlaceholder | tools/edit_file.py:143 | a placeholder found is a match of `{{ *... *}}` lying within the text |
| EditFile.FirstPlaceholderLeftmost | tools/edit_file.py:143 | the split point is the leftmost match of `{{ *... *}}`, and when none is found there is none anywhere after the start |
| EditFile.SectionsAfterFirst | tools/edit_file.py:143 | the text before the first placeholder is the first section, and the sections after it are those of the rest |
| EditFile.ApplyEdits | tools/edit_file.py:128-169 | the result is the whole edit when it has no placeholder, and the loop over the sections otherwise |
| EditFile.ApplySections | tools/edit_file.py:150-169 | the loop's result equals the section-by-section reference definition `Applied` |
| EditFile.EditedWhole | tools/edit_file.py:145-147 | an edit without a brace replaces the whole file |
| EditFile.StepExtends | tools/edit_file.py:159-167 | a section step keeps the text so far as a prefix, and afterwards the text contains the section |
| EditFile.AppliedContainsSections | tools/edit_file.py:154-167 | after the loop the text contains every non-blank section |
| EditFile.EditedKeeps | tools/edit_file.py:149-169 | an edit with placeholders keeps the original file as a prefix and contains every non-blank section: nothing is replaced, only appended |
| EditFile.EditResult | tools/edit_file.py:72-126 | `execute` as a value: the set of files is never changed |
| EditFile.EditResultCases | tools/edit_file.py:72-126 | validation failures, a non-dict, a non-string path, a missing file, a notebook and a non-string edit leave the files alone with their replies; otherwise only the target file changes, to the edited text-mode read |
| EditFile.Execute | tools/edit_file.py:72-126 | validation errors, file not found and `.ipynb` refusals leave the disk unchanged; a non-string edit gets "Failed to edit file"; otherwise the file is rewritten with the edit applied to its text as read in text mode, so CRLF and CR become LF, and nothing else changes; reply and files are `EditResult` of the old files |
| FileSystem.IsFile | tools/view_file.py:80 | `os.path.isfile` of a string is membership among the files; None, a list or a dict raises a TypeError |
| FileSystem.ReadText | tools/edit_file.py:106-107 | reading in text mode leaves no carriage return and never lengthens the text |
| FileSystem.ReadTextKeepsLf | tools/edit_file.py:106-107 | text without a carriage return reads back unchanged |
| FileSystem.ReadTextIdempotent | tools/edit_file.py:106-107 | reading text already read changes nothing |
| FileSystem.ReadTextCrLf | tools/view_file.py:92-93 | a Windows line ending reads as a single newline |
| FileSystem.IsDir | tools/deeper_searcher_agent.py:101 | `os.path.isdir` of a string is membership among the directories; None, a list or a dict raises |
| FileSystem.Basename | tools/deeper_searcher_agent.py:90 | the basename is the part after the last slash |
| FileSystem.Ext | tools/deeper_searcher_agent.py:225 | the extension is empty or a suffix of the last path component that starts with its last dot |
| FileSystem.ExtOfName | tools/deeper_searcher_agent.py:225 | `stem.suffix` has extension `.suffix` |
| FileSystem.ExtOfDotFile | tools/deeper_searcher_agent.py:225 | a name made of a leading dot and a suffix has no extension |
| ToolRegistry.NameOfInfo | tools/mcp_server.py:52-53 | the key a tool is registered under is the name it was constructed with |
| ToolRegistry.RegistryByName | tools/mcp_server.py:52-53 | with distinct names, each tool is registered under its name and every key is some tool's name |
| ToolRegistry.ConstructedRegistry | tools/mcp_server.py:43-53 | the five tools are registered in the order browser_preview, run_command, view_file, write_to_file, edit_file |
| ToolRegistry.RegisterStep | tools/mcp_server.py:52-53 | registering one tool sets its name's entry; a new name is appended to the order |
| ToolLoop.AnsweredAll | tools/mcp_server.py:80-94 | when no tool raises, there is one formatted reply per call, in order |
| ToolLoop.AnswerAll | tools/mcp_server.py:80-94 | the loop over the calls threads the state from each call to the next; it gives at most one reply and one outcome per call |
| ToolLoop.AnswerAllFrom | tools/mcp_server.py:83-94 | from the i-th call on, that call runs first on the current state, and the loop goes on after it exactly when it did not raise |
| ToolLoop.AnswerAllAdvance | tools/mcp_server.py:83-97 | one more turn of the loop keeps the replies so far plus the rest of the loop equal to the whole loop; a call that raises ends it |
| ToolLoop.AnswerAllAnswered | tools/mcp_server.py:80-97 | one reply per executed call, in order: the formatted response of an outcome that did not raise, or the `{"error": ...}` reply of one that did; every outcome but the last succeeded, and the loop stops short of the last call only after a call that raised |
| ToolLoop.AnswerAllUnknown | tools/mcp_server.py:83-94 | a call whose name the step refuses whatever the state is answered with that refusal, wherever it comes in the loop |
| ToolLoop.AnswerAllFixed | tools/mcp_server.py:83-94 | when no call changes the state, each call is answered as on the starting state and the state is kept |
| ToolRegistry.ToolResult | tools/mcp_server.py:100-119 | an unregistered name is "Tool not found" and keeps the state; only run_command moves the counter and table; only edit_file and write_to_file change the files, and only write_to_file the directories; write_to_file's reply and disk are the host's `writeFile` |
| ToolRegistry.WriteThenView | tools/mcp_server.py:83-119 | a view_file call after a write_to_file call that did not raise reads the disk the write left |
| ToolRegistry.AnswerAllNotFound | tools/mcp_server.py:83-119 | in the loop, an unregistered name is answered "Tool not found" whatever ran before it |
| ToolRegistry.AnswerAllStateless | tools/mcp_server.py:83-119 | a message calling none of run_command, edit_file and write_to_file is answered call by call on the starting state, which it leaves as it was |
| ToolRegistry.ToolStepRuns | tools/mcp_server.py:100-119 | the loop's step is `execute_tool` on every call and state |
| ToolRegistry.KeyedStep | tools/mcp_server.py:52-53 | registration keeps the keys distinct, and each key names its own tool |
| ToolRegistry.Toolbox.constructor | tools/mcp_server.py:24-39 | a new toolbox holds the five tools, and its run_command tool has a fresh counter |
| ToolRegistry.Toolbox.RegisterTools | tools/mcp_server.py:41-53 | the loop builds the registry and order of the given tools |
| ToolRegistry.Toolbox.Definitions | tools/mcp_server.py:121-128 | the tool definitions are keyed by the registered names in registration order, each holding its tool's `to_dict` |
| ToolRegistry.Toolbox.ExecuteTool | tools/mcp_server.py:100-119 | an unknown name gives "Tool not found" and changes nothing; browser_preview and view_file give their tool's reply and change nothing; write_to_file's reply and new disk are the host's `writeFile`; run_command's reply, counter and table are `RunCommand.RunResult`'s; edit_file's reply and files are `EditFile.EditResult`'s; reply and new state together are `ToolResult` of the old state |
| ToolRegistry.Toolbox.AnswerCalls | tools/mcp_server.py:80-94 | the replies, each call's outcome and the new tool state are `ToolLoop.AnswerAll` of `execute_tool` from the old state: each call runs on the state the calls before it left; an exception stops the loop after the call that raised; an unregistered name is answered "Tool not found" |
| McpServer.MCPServer.constructor | tools/mcp_server.py:24-53 | a new server holds the five registered tools |
| McpServer.MCPServer.ProcessMessage | tools/mcp_server.py:70-98 | the message's tool calls are answered as `ToolLoop.AnswerAll` of `execute_tool` from the old tool state, in order, each on the state its predecessors left; a message without calls gets no reply and changes nothing |
| McpServer.MCPServer.ToolDefinitions | tools/mcp_server.py:121-128 | definitions are keyed by the registered tool names in order, each holding its tool's `to_dict` |
| MultiAgentServer.AgentDefinitions | tools/multi_agent_mcp_server.py:188-195 | one entry per agent, in registration order, each the agent's dict form |
| MultiAgentServer.WorkflowDefinitions | tools/multi_agent_mcp_server.py:197-204 | one entry per workflow template, in registration order |
| MultiAgentServer.MultiAgentMCPServer.constructor | tools/multi_agent_mcp_server.py:26-58 | a new server has the five tools and an orchestrator with no active workflow |
| MultiAgentServer.MultiAgentMCPServer.ToolDefinitions | tools/multi_agent_mcp_server.py:179-186 | definitions are keyed by the registered tool names in order, each holding its tool's `to_dict` |
| MultiAgentServer.MultiAgentMCPServer.ProcessMessage | tools/multi_agent_mcp_server.py:75-156 | tool calls are answered as `ToolLoop.AnswerAll` of `execute_tool` from the old tool state and leave the agents alone; otherwise exactly one reply is sent; undecodable text gets "Invalid message format" and changes nothing; decoded JSON gets `RouteResult`'s reply, workflows and memory |
| MultiAgentServer.MultiAgentMCPServer.Route | tools/multi_agent_mcp_server.py:102-156 | answers as `RouteAnswers` says, with reply and new state equal to `RouteResult`'s: the refusals, the orchestrator's reply for every action, a pure agent's answer, and the memory bank's reply and new memory; only the orchestrator target changes workflows |
| MultiAgentServer.MultiAgentMCPServer.AskOrchestrator | tools/multi_agent_mcp_server.py:110-115 | the orchestrator's reply is dumped: status, listings, a start (`StartResult`), a direct call (`DirectResult`) or the unknown-action reply; reply and new state are `Respond`'s |
| MultiAgentServer.MultiAgentMCPServer.AskAgent | tools/multi_agent_mcp_server.py:116-123 | the agent answers the whole message with the time as context (`AgentAnswer`); the memory bank's reply and new memory are `ProcessResult`'s; any other agent leaves memory unchanged |
| MultiAgentServer.RouteRefusals | tools/multi_agent_mcp_server.py:102-156 | no target, a non-dict, an unhashable or unknown target each give their error reply and change nothing |
| MultiAgentServer.RouteDelivers | tools/multi_agent_mcp_server.py:110-123 | the orchestrator target gets `Respond`'s answer; an agent target gets that agent's answer to the whole message |
| MultiAgentServer.RouteKeepsWorkflows | tools/multi_agent_mcp_server.py:102-156 | only a message for the orchestrator can change the workflows |
| MultiAgentServer.RouteResultAnswers | tools/multi_agent_mcp_server.py:102-156 | `RouteResult` answers every message as `RouteAnswers` says |
| Orchestration.AgentOf | tools/orchestrator.py:35-42 | the agents are built without tools |
| Orchestration.TemplateOf | tools/orchestrator.py:46-90 | a template exists exactly for the four registered workflow names |
| Orchestration.TemplatesRunnable | tools/orchestrator.py:46-90 | every template has steps, and each step names a registered agent and an action it handles |
| Orchestration.Definitions | tools/orchestrator.py:46-90 | the workflow table is keyed by the template names in order |
| Orchestration.Advance | tools/orchestrator.py:304-317 | a step appends its record, moves to the next step, and completes the workflow after the last step |
| Orchestration.FreshOk | tools/orchestrator.py:142-154 | a started workflow satisfies the workflow invariant |
| Orchestration.AdvanceOk | tools/orchestrator.py:304-317 | a running workflow has a next step, and running it preserves the invariant |
| Orchestration.AdvanceAllAppends | tools/orchestrator.py:304-312 | running several steps appends one record per step, in order, and keeps earlier records |
| Orchestration.AdvanceAllOk | tools/orchestrator.py:304-317 | the invariant holds after any number of steps; the status is "completed" with an end time exactly after the last step |
| Orchestration.RunsToCompletion | tools/orchestrator.py:255-324 | running all remaining steps completes the workflow with one record per template step |
| Orchestration.WorkflowIdCollides | tools/orchestrator.py:142 | two workflow ids are equal exactly when both the second and the name are equal |
| Orchestration.StepMessage | tools/orchestrator.py:287-290 | building the step message raises exactly when the parameters are not a dict |
| Orchestration.StepMessageAction | tools/orchestrator.py:287-290 | the message's action is the caller's `action` parameter when there is one, and the step's action otherwise |
| Orchestration.StatusJson | tools/orchestrator.py:179-191 | the status reply has eight fields, the seventh describing the current step |
| Orchestration.WorkflowStatus | tools/orchestrator.py:167-191 | missing id, unhashable id, unknown id and the success reply with the workflow's status |
| Orchestration.StatusDescribesNextStep | tools/orchestrator.py:186-188 | the current-step description is null exactly when the workflow is completed, and is otherwise the next step's description |
| Orchestration.ListWorkflows | tools/orchestrator.py:193-205 | one entry per template with its name, description and number of steps |
| Orchestration.ListAgents | tools/orchestrator.py:207-219 | one entry per agent with its name, description and (empty) tools |
| Orchestration.AgentAnswer | tools/orchestrator.py:241-247 | the memory bank answers from its memory and leaves it coherent; every other agent answers by its model and leaves the memory as it was; a non-dict message raises |
| Orchestration.RespondCases | tools/orchestrator.py:94-124 | `process_message` by action: a start gives `StartResult`, a direct call `DirectResult`, status and listings their replies, an unknown action the list of actions; only a start changes workflows, only a direct call the memory |
| Orchestration.Orchestrator.constructor | tools/orchestrator.py:22-33 | no workflow is active at first |
| Orchestration.Orchestrator.CallAgent | tools/orchestrator.py:241-247 | the reply and the memory bank's new state are `AgentAnswer`'s: the memory bank processes the message against its memory, a pure agent is answered by its model and leaves memory alone; a non-dict message raises |
| Orchestration.Orchestrator.ProcessMessage | tools/orchestrator.py:94-124 | dispatches on the action; start_workflow answers and changes workflows as `StartResult`, direct_agent_call answers and changes memory as `DirectResult`; only these change state; unknown actions get the list of available ones; the whole answer is `Respond`'s |
| Orchestration.Orchestrator.StartWorkflow | tools/orchestrator.py:126-165 | missing, unhashable or unknown names change nothing; a known name stores a fresh workflow under its id; reply and workflows are `StartResult`'s |
| Orchestration.Orchestrator.DirectAgentCall | tools/orchestrator.py:221-253 | each error case leaves memory unchanged; a pure agent's answer is wrapped in the success reply; for memory_bank, the memory bank's reply is wrapped and its memory becomes the new one; the whole answer is `DirectResult`'s |
| Orchestration.Orchestrator.ExecuteStep | tools/orchestrator.py:255-324 | an unknown or finished workflow is an error and changes nothing; a running one runs its current step as `StepRan` says, the memory bank's step included, and advances |
| Orchestration.Orchestrator.RunStep | tools/orchestrator.py:284-324 | the current step's agent answers the step message with the step context (`AgentAnswer`, so a memory_bank step stores into the memory); the answer is recorded and the workflow advances; an error changes no workflow |
| MemoryBank.Hits | tools/memory_bank_agent.py:125-141 | the keys a query selects are stored keys, at most as many as there are |
| MemoryBank.HitsExactly | tools/memory_bank_agent.py:125-141 | a key is a hit exactly when it is stored and matches the query and tags |
| MemoryBank.HitsRaised | tools/memory_bank_agent.py:129-136 | the first exception in index order ends the search |
| MemoryBank.TagHitNested | tools/memory_bank_agent.py:131 | the tag `[1]` is among an entry's tags `[[True]]`, as Python's `==` has it |
| MemoryBank.TaggedExactly | tools/memory_bank_agent.py:211-216 | list with tags selects exactly the keys whose tags overlap |
| MemoryBank.QueryIgnoresCase | tools/memory_bank_agent.py:134-136 | the query matches content without regard to case |
| MemoryBank.ByKey | tools/memory_bank_agent.py:113-123 | retrieval by key gives the stored content and metadata, "Memory not found" for an absent key, and raises for an unhashable one |
| MemoryBank.StoreThenRetrieve | tools/memory_bank_agent.py:77-123 | what was stored under a key is what retrieval by that key returns |
| MemoryBank.DeleteThenRetrieve | tools/memory_bank_agent.py:185-205 | after a delete, retrieval by that key reports it not found |
| MemoryBank.Without | tools/memory_bank_agent.py:196-197 | deleting a key removes exactly that key from the index order |
| MemoryBank.WithoutDistinct | tools/memory_bank_agent.py:196-197 | deletion keeps the keys distinct |
| MemoryBank.Counted | tools/memory_bank_agent.py:221-225 | the list reply counts exactly the items it lists |
| MemoryBank.MemoryBankAgent.constructor | tools/memory_bank_agent.py:20-45 | an agent starts with an empty memory |
| MemoryBank.MemoryBankAgent.Process | tools/memory_bank_agent.py:47-75 | a non-dict message raises; each action's reply and new memory are those of `StoreResult`, `RetrieveResult`, `UpdateResult`, `DeleteResult` or `ListResult` on the old memory, together `ProcessResult`; an unknown action is refused and changes nothing |
| MemoryBank.MemoryBankAgent.Store | tools/memory_bank_agent.py:77-105 | missing key or content changes nothing; otherwise the content and metadata are set and a new key is appended; the reply and new memory are `StoreResult`'s and the memory stays coherent |
| MemoryBank.MemoryBankAgent.Update | tools/memory_bank_agent.py:153-183 | an unknown key changes nothing; otherwise the given content and tags replace the old ones and the timestamp is renewed; the key order is kept, and the reply and new memory are `UpdateResult`'s |
| MemoryBank.MemoryBankAgent.Delete | tools/memory_bank_agent.py:185-205 | an unknown key changes nothing; otherwise the key leaves the index, the contents and the key order; the reply and new memory are `DeleteResult`'s |
| MemoryBank.MemoryBankAgent.Retrieve | tools/memory_bank_agent.py:107-151 | by key, else by query and tags, else the "Must provide" error; the reply is `RetrieveResult` of the memory |
| MemoryBank.ScanHits | tools/memory_bank_agent.py:125-141 | the loop over the index returns exactly the specified hits, or the first exception |
| MemoryBank.MemoryBankAgent.Search | tools/memory_bank_agent.py:125-141 | the search over the agent's own index gives exactly the specified hits |
| MemoryBank.MemoryBankAgent.List | tools/memory_bank_agent.py:207-225 | without tags all keys are listed; with tags, exactly the tagged ones; the reply is `ListResult` of the memory |
| MemoryBank.ProcessCoherent | tools/memory_bank_agent.py:47-75 | every action keeps the memory coherent: both dicts hold the same keys, each once in the key order, all hashable |
| MemoryBank.RetrieveByKeyMessage | tools/memory_bank_agent.py:47-123 | `process` of `{"action": "retrieve", "key": k}` answers what retrieval by key k finds |
| MemoryBank.StoreMessage | tools/memory_bank_agent.py:47-105 | `process` of a store message with a key and content stores the content with empty tags and the context's timestamp |
| MemoryBank.ProcessStoreThenRetrieve | tools/memory_bank_agent.py:47-123 | through `process`: after a store, retrieving the key gives the stored content, empty tags and the store's timestamp |
| MemoryBank.ProcessDeleteThenRetrieve | tools/memory_bank_agent.py:47-205 | through `process`: after a delete, retrieving the key reports "Memory not found", and the memory stays coherent |
| CoderAgent.Process | tools/coder_agent.py:33-59 | raises exactly when the message is not a dict |
| CoderAgent.ProcessUnknown | tools/coder_agent.py:54-59 | an unknown action is answered with the four available actions |
| CoderAgent.CreatePlan | tools/coder_agent.py:61-108 | a missing task is an error; otherwise the plan for the task |
| CoderAgent.PlanShape | tools/coder_agent.py:72-103 | a plan has five pending steps for its task |
| CoderAgent.Implement | tools/coder_agent.py:110-134 | missing plan, step_id (None only) or file_path are errors, checked in that order |
| CoderAgent.ImplementAcceptsStepZero | tools/coder_agent.py:119-121 | step 0 counts as given, since only None is rejected |
| CoderAgent.Review | tools/coder_agent.py:136-151 | a missing file_path is the only error |
| CoderAgent.Refactor | tools/coder_agent.py:153-173 | missing file_path, then missing refactoring_type, are errors; otherwise success names the file |
| DebuggerAgent.ErrorType | tools/debugger_agent.py:244-252 | the error type is "Unknown Error", "Exception", or a prefix of the message followed by a colon |
| DebuggerAgent.ErrorTypeNamed | tools/debugger_agent.py:249 | `<word>Error:` at the start gives `<word>Error` |
| DebuggerAgent.ErrorTypeNeedsPrefix | tools/debugger_agent.py:249 | a bare `Error:` is not recognised |
| DebuggerAgent.FrameAtFrame | tools/debugger_agent.py:255 | a frame `File "f", line N` is read back as f and N |
| DebuggerAgent.FramesOfTrace | tools/debugger_agent.py:254-260 | a trace printed from frames is parsed back into exactly those frames |
| DebuggerAgent.FramesNone | tools/debugger_agent.py:255-256 | a trace without an F has no frames |
| DebuggerAgent.Details | tools/debugger_agent.py:254-260 | the details are empty exactly when no frame is found, and otherwise list one entry per frame |
| DebuggerAgent.ParseError | tools/debugger_agent.py:230-262 | raises exactly when a truthy input is not a string; empty inputs give the defaults |
| DebuggerAgent.Process | tools/debugger_agent.py:34-65 | a non-dict message raises |
| DebuggerAgent.ProcessUnknown | tools/debugger_agent.py:58-63 | an unknown action is answered with the available actions |
| DebuggerAgent.AnalyzeError | tools/debugger_agent.py:67-94 | the error is reported exactly when both inputs are missing; success carries the parsed type and details |
| DebuggerAgent.TraceExecution | tools/debugger_agent.py:96-133 | success exactly when file_path and function_name are both given; otherwise the first one missing is named |
| DebuggerAgent.AddLogging | tools/debugger_agent.py:135-167 | success exactly when file_path and line_numbers are given; the log level defaults to debug |
| DebuggerAgent.SuggestFix | tools/debugger_agent.py:169-202 | success exactly when file_path and error_type are given |
| DebuggerAgent.VerifyFix | tools/debugger_agent.py:204-228 | success exactly when file_path and applied_fixes are given |
| DeeperSearcherAgent.LanguageOf | tools/deeper_searcher_agent.py:228-245 | a listed extension gives its language; an unlisted one gives "unknown" |
| DeeperSearcherAgent.DetectLanguageUnknown | tools/deeper_searcher_agent.py:223-245 | the language is unknown exactly when the lower-cased extension is not in the table |
| DeeperSearcherAgent.DetectSuffix | tools/deeper_searcher_agent.py:225-245 | a name with a stem and one dotted suffix is looked up by that suffix, lower-cased |
| DeeperSearcherAgent.DetectPython | tools/deeper_searcher_agent.py:225-245 | `.py` files are python, in either case |
| DeeperSearcherAgent.DetectDotFile | tools/deeper_searcher_agent.py:225 | the file `.py` itself has no extension, so its language is unknown |
| DeeperSearcherAgent.DetectNoDot | tools/deeper_searcher_agent.py:225 | a path without a dot has an unknown language |
| DeeperSearcherAgent.Process | tools/deeper_searcher_agent.py:34-65 | a non-dict message raises |
| DeeperSearcherAgent.ProcessUnknown | tools/deeper_searcher_agent.py:57-63 | an unknown action is answered with the available actions |
| DeeperSearcherAgent.FileAnalysis | tools/deeper_searcher_agent.py:80-92 | the analysis reports the detected language first |
| DeeperSearcherAgent.AnalyzeFile | tools/deeper_searcher_agent.py:67-92 | missing path, then file not found, are errors; otherwise the analysis of that file |
| DeeperSearcherAgent.AnalyzeFolder | tools/deeper_searcher_agent.py:94-121 | missing path, then folder not found, are errors; otherwise a success reply with the folder path and the sample analysis `FolderAnalysis`, whose summary names the folder |
| DeeperSearcherAgent.Scoped | tools/deeper_searcher_agent.py:123-221 | find_patterns, identify_issues and suggest_improvements need their kind, then a scope; success echoes both |
| Permissions.SomeIncluded | lib/permissions.ts:12 | true exactly when some role to check is among the user's roles |
| Permissions.HasRole | lib/permissions.ts:4-13 | no session, user or roles means false; otherwise true exactly when a required role is held |
| Permissions.SingleRoleAsList | lib/permissions.ts:10 | a single role is checked as the list holding it alone |
| Permissions.NoRequiredRoles | lib/permissions.ts:12 | an empty requirement is never met |
| Permissions.MoreRequiredRoles | lib/permissions.ts:10-12 | requiring either of two lists is met exactly when one of them is |
| EmployeeUtils.EmployeeRoleType | lib/utils/employee-utils.ts:8-40 | ADMIN wins; then HR_ADMIN, HR or DEPT_MANAGER give dept_manager; MANAGER gives manager; otherwise the reporting structure decides |
| EmployeeUtils.MissingRolesAsEmpty | lib/utils/employee-utils.ts:10 | missing roles count as none |
| EmployeeUtils.RoleLabelsDistinct | lib/utils/employee-utils.ts:47-77 | each role type has its own badge variant and its own label |
| EmployeeUtils.DepartmentBadge | lib/utils/employee-utils.ts:132-138 | a missing, empty or unlisted department gets the default badge; a listed one gets its own |
| EmployeeUtils.ListedBadgesDiffer | lib/utils/employee-utils.ts:83-125 | different listed departments get different badges |
| SeedSql.EscapeSqlString | prisma/seed.ts:19-25 | null gives NULL; a string is quoted, with its quotes doubled inside |
| SeedSql.UndoubleDoubleQuotes | prisma/seed.ts:24 | undoubling the quotes gives the string back, and the escaped text has no lone quote |
| SeedSql.EscapeInjective | prisma/seed.ts:19-25 | distinct values give distinct SQL literals |
| SeedSql.FormatSqlValue | prisma/seed.ts:27-54 | null and undefined give NULL; booleans give 1 or 0; strings, enums and unknown types are quoted |
| SeedSql.FormatStringRoundTrip | prisma/seed.ts:34-37 | under standard SQL quoting (a quote inside the literal is written twice) undoubling the literal's interior gives the string back |
| SeedSql.NullTextQuoted | prisma/seed.ts:19-37 | the text "NULL" is quoted, unlike a null value |
| EmployeesRoute.ParseInt | app/api/rh/employees/route.ts:31-32 | `parseInt` skips leading JavaScript white space (`JsSpace`) and a sign, reads hex after 0x, and gives NaN without a digit; it never gives Infinity |
| EmployeesRoute.TrimLeadingSpace | app/api/rh/employees/route.ts:31-32 | exactly the leading JavaScript white space is dropped: what is left is a suffix that does not start with it |
| EmployeesRoute.ParseIntSkipsSpace | app/api/rh/employees/route.ts:31-32 | a leading white space character does not change what `parseInt` reads |
| EmployeesRoute.ParseIntDigit | app/api/rh/employees/route.ts:31-32 | a lone decimal digit reads as its value |
| EmployeesRoute.ParseIntSkipsByteOrderMark | app/api/rh/employees/route.ts:31-32 | `parseInt("\uFEFF5")` is 5: the byte order mark is white space |
| EmployeesRoute.ParseIntStopsAtNextLine | app/api/rh/employees/route.ts:31-32 | `parseInt("\u00855")` is NaN: NEXT LINE is not white space to JavaScript |
| EmployeesRoute.ParseIntStopsAtSeparator | app/api/rh/employees/route.ts:31-32 | `parseInt("\u001C5")` is NaN: the information separators are not white space to JavaScript |
| EmployeesRoute.ParseUnsigned | app/api/rh/employees/route.ts:31-32 | text that starts with a digit and not with `0x` is read in base 10 from its first character |
| EmployeesRoute.ParseNat | app/api/rh/employees/route.ts:31-32 | the decimal text of a natural number parses back to it |
| EmployeesRoute.QueryInt | app/api/rh/employees/route.ts:31-32 | a missing or empty parameter reads the fallback |
| EmployeesRoute.PagingOf | app/api/rh/employees/route.ts:31-33 | skip is `(page - 1) * limit`, or NaN when either is NaN |
| EmployeesRoute.PagingDefaults | app/api/rh/employees/route.ts:31-33 | without parameters the first ten rows are asked for |
| EmployeesRoute.SkipOfTexts | app/api/rh/employees/route.ts:31-33 | page and limit written in decimal skip the rows before the page |
| EmployeesRoute.TotalPages | app/api/rh/employees/route.ts:139 | `Math.ceil(total / limit)`, with NaN or Infinity for a zero limit |
| EmployeesRoute.TotalPagesCover | app/api/rh/employees/route.ts:139 | the pages hold every row, the last page is not empty, and no rows means no pages |
| EmployeesRoute.PagesWithinTotal | app/api/rh/employees/route.ts:33-139 | each page up to totalPages starts at a row that exists |
| EmployeesRoute.SplitName | app/api/rh/employees/route.ts:87-89 | a missing name gives two empty parts |
| EmployeesRoute.SplitNameParts | app/api/rh/employees/route.ts:87-89 | a name is cut at its first space, and a name without a space is all first name |
| EmployeesRoute.PositionId | app/api/rh/employees/route.ts:92-95 | a `pos_` job title is its own id, otherwise `pos_default` |
| EmployeesRoute.DefaultRoles | app/api/rh/employees/route.ts:101-112 | no manager gives MANAGER and DEPT_MANAGER; then a manager title; then an admin email; otherwise EMPLOYEE |
| EmployeesRoute.ToEmployee | app/api/rh/employees/route.ts:85-130 | every field of the employee as derived from the row, including the hire date, which is the entry date or else the current time; the roles are never empty |
| EmployeesRoute.Employees | app/api/rh/employees/route.ts:85 | one employee per row, in order |
| EmployeesRoute.FirstMissing | app/api/rh/employees/route.ts:178-185 | the first missing or falsy required field; all earlier ones are present |
| EmployeesRoute.CheckRequired | app/api/rh/employees/route.ts:177-185 | the 400 message names the first missing field; none exactly when all are present; a null body throws |
| AuthRedirect.RedirectPath | app/auth/redirecting/page.tsx:23-61 | waits while loading; no session goes to /login; ADMIN goes to /admin; otherwise to the department's route, or / |
| AuthRedirect.CaseInsensitive | app/auth/redirecting/page.tsx:35 | department names match without regard to case |
| AuthRedirect.SignedInNeverToLogin | app/auth/redirecting/page.tsx:46-59 | a signed-in user goes to one of the listed areas, never to /login |
| WelcomeRedirect.WelcomeTarget | app/page.tsx:15-38 | only a signed-in user is redirected, and an ADMIN goes to /admin |
| WelcomeRedirect.PagesAgree | app/page.tsx:15-38 | the welcome page agrees with the redirecting page wherever that page finds a route; otherwise it tries the English names, then /dashboard |
| DepartmentRequests.DepartmentName | components/rh/DepartmentRequestsTable.tsx:100 | the related department's name, unless absent or empty, then the copied name |
| DepartmentRequests.ByStatus | components/rh/DepartmentRequestsTable.tsx:90-92 | keeps exactly the requests with the status, each as many times as it occurs |
| DepartmentRequests.BySearch | components/rh/DepartmentRequestsTable.tsx:95-106 | keeps exactly the requests whose name, email or department contains the lower-cased term, each as many times as it occurs |
| DepartmentRequests.Filtered | components/rh/DepartmentRequestsTable.tsx:85-110 | a request is shown exactly when it passes both the status filter and the search, and as many times as it occurs in the data |
| DepartmentRequests.FilteredOrdered | components/rh/DepartmentRequestsTable.tsx:85-110 | the shown requests keep the order they were given in |
| DepartmentRequests.NoFilterKeepsAll | components/rh/DepartmentRequestsTable.tsx:87-92 | with no search and status "all" or none, every request is shown |

## Left out

- The websocket transport and connection handling are not modelled: `handle_client`, `start`, `main`, the `clients` set and concurrent clients. Each server's `process_message` takes the text and returns the replies it would send.
- Subprocesses are not modelled. run_command receives the outcome of launching a command (`RunCommand.Launch`) as a parameter, so output, exit codes and timing are whatever that parameter says.
- The memory bank's pickle load and save (memory_bank_agent.py:227-258) are not modelled. The agent starts empty and keeps its memory in fields.
- write_to_file (tools/write_to_file.py) is not part of this model. The registry holds it by name. Its reply and the disk it leaves (the file it creates and the parent directories `os.makedirs` adds) are the host's `writeFile` parameter, which the model threads into the state later calls see; what that parameter returns is not constrained.
- Decoding with `errors='replace'` is not modelled. Files hold text, not bytes, so no byte can fail to decode. Newline translation in text mode is modelled by `FileSystem.ReadText`.
- EditFile.Execute: the "Failed to edit file: …" reply for an I/O error while reading or writing (edit_file.py:125-126) is not modelled, because reading and writing in the model cannot fail. The model gives that reply only when `CodeEdit` is not a string.
- EditFile.Execute: files are written POSIX-style, so each `\n` of the new text is stored as it is. Python's text-mode `open(..., 'w')` (edit_file.py:113) writes the platform's line separator for each `\n`, which is `\r\n` on the Windows host that run_command.py:48 describes.
- The five tools' `Info()` texts are abbreviated: `BrowserPreview.Info`, `RunCommand.Info`, `ViewFile.Info`, `EditFile.Info` and write_to_file's entry in `ToolRegistry.InfoOf`. Each description is cut to its first sentence, and each schema leaves out `$schema` and every property's `description` (run_command.py:16-57 has the full texts). The tools read only the schema's `required` list (base_tool.py:65-70), so no reply of `execute` depends on the cut.
- ToolRegistry.Toolbox.Definitions: it returns those abbreviated descriptions and schemas, so its text differs from that of `get_tool_definitions` (mcp_server.py:121-128). The keys, their order and the names agree.
- McpServer.MCPServer.ToolDefinitions: the same abbreviated texts, against mcp_server.py:121-128.
- MultiAgentServer.MultiAgentMCPServer.ToolDefinitions: the same abbreviated texts, against multi_agent_mcp_server.py:179-186.
- view_file's "Failed to read file" reply (view_file.py:131-132) is not modelled, because reading a file in the model cannot fail.
- ViewFile.Execute: with a non-numeric StartLine or EndLine the model raises at the comparison `end_line < start_line` (view_file.py:84). Python raises there only for pairs it cannot order, such as a string and a number or None. It orders two strings or two lists: when the end comes before the start it returns the "EndLine must be greater than or equal to StartLine" reply, and otherwise it raises a TypeError at the subtraction on line 87.
- The Unicode digits that `\d` also matches are not modelled: the debugger's frame pattern and `int()` read ASCII digits only.
- Lower-casing covers ASCII and Latin-1 letters only.
- `True == 1` as a dict key is not modelled: booleans and integers are distinct keys.
- The mock payloads the agents return are opaque constants (`Values.Canned`).
- Values.Repr never escapes: it always quotes a string with `'` and copies its characters. Python writes `"it's"` with double quotes and escapes `\n`, `\\` and other control characters.
- `Values.Json` has no float case. A JSON number such as `1.5` or `1e3` is outside the model, for example as a `wait_ms` or `step_id` parameter.
- EmployeesRoute.ParseInt: JavaScript numbers are modelled as unbounded integers. Rounding above 2^53 is not modelled, and neither is `parseInt` overflowing to Infinity on a very long run of digits.
- FileSystem.IsFile: an integer is taken as "no file". `os.path.isfile` accepts an open file descriptor and answers for the file it refers to, which the model does not represent.
- EmployeeUtils.DepartmentBadge: a department name that is a key inherited from `Object.prototype`, such as "constructor", "toString" or "__proto__", finds a truthy inherited value in JavaScript (a function or the prototype object), and that value is returned instead of the default badge. The model treats such a name as unlisted and gives the default badge.
- AuthRedirect.RedirectPath: a lower-cased department that is a key inherited from `Object.prototype`, "constructor" or "__proto__" (the only inherited keys already in lower case), finds a truthy inherited value in JavaScript, and `router.replace` is handed that value instead of "/". The model treats such a department as unlisted and redirects to "/".
- The orchestrator's clock is one reading per operation, in whole seconds: the parameter `now: nat`. orchestrator.py reads `time.time()` separately for the workflow id (:142), its start time (:149), each step's context and memory timestamps (:241, :294) and its end time (:317), and keeps all but the id's reading as floats. The model stamps one operation's id, times and timestamps with the same whole number, so it cannot tell those readings apart or represent fractions of a second.
- Orchestration.Orchestrator.RunStep: the "no more steps" and "unknown agent" errors (orchestrator.py:273-282) cannot occur under the orchestrator's invariant, so the model proves them unreachable instead of producing them.
- SeedSql.FormatStringRoundTrip: the round trip holds under standard SQL quoting, where only a doubled quote is special inside a literal. The seed script targets MySQL (prisma/seed.ts:41, 63, 453-456), whose default mode also treats a backslash as an escape character. A string holding a backslash therefore reads back differently there: `\n` becomes a newline, and a trailing backslash escapes the closing quote.
- The float, number, decimal and date branches of `formatSqlValue` (prisma/seed.ts:38-50) are not modelled, because they need JavaScript floating point and dates.
- The rest of prisma/seed.ts is not modelled: data generation, file output and database access.
- The database queries of the employees route are not modelled: the search, department and status filters, and the create path after validation. The rows and their count are inputs.
- React rendering, toasts and the request actions of the department-request table are not modelled, and neither is the CLI (`cli.py`, `multi_agent_cli.py`).
