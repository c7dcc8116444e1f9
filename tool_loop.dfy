/**
 * The tool-call loop shared by tools/mcp_server.py and
 * tools/multi_agent_mcp_server.py, over any state the tools keep: the calls
 * found in a message run one after another, each on the state the calls
 * before it left, and each is answered by its formatted response until one
 * raises, which is answered with `{"error": str(e)}` and ends the loop.
 */
module ToolLoop {
  import opened Values
  import opened ToolUtils

  /** A tool's outcome on a call and the state it leaves. */
  datatype Executed<S> = Executed(reply: Outcome<Json>, state: S)

  /** The replies to a message's calls, what each call's execution gave, and the state afterwards. */
  datatype Session<S> = Session(replies: seq<string>, outcomes: seq<Outcome<Json>>, state: S)

  /** The reply `process_message` sends for a call named `name` whose execution had outcome `o`. */
  function Reply(name: string, o: Outcome<Json>, dumps: Dumper): string {
    match o
    case Ok(v) => FormatToolResponse(name, v, dumps)
    case Raise(e) => dumps(ErrorOnly(e))
  }

  /**
   * The shape of the replies to a message's tool calls: one per executed
   * call in order, formatted while calls succeed; the first call that raises
   * is answered with `{"error": ...}` and the calls after it are not executed.
   */
  ghost predicate Answered(calls: seq<ToolCall>, replies: seq<string>, outcomes: seq<Outcome<Json>>, dumps: Dumper) {
    && |outcomes| == |replies| <= |calls|
    && (forall i :: 0 <= i < |replies| ==> replies[i] == Reply(calls[i].name, outcomes[i], dumps))
    && (forall i :: 0 <= i < |replies| - 1 ==> outcomes[i].Ok?)
    && (|replies| < |calls| ==> |replies| > 0 && outcomes[|replies| - 1].Raise?)
  }

  /**
   * The loop from the state `st`, with `step` running one call: each call
   * runs on the state the calls before it left and its outcome is formatted;
   * the first call that raises is answered and ends the loop.
   */
  function AnswerAll<S>(step: (ToolCall, S) -> Executed<S>, calls: seq<ToolCall>, dumps: Dumper, st: S): (s: Session<S>)
    ensures |s.replies| == |s.outcomes| <= |calls|
    decreases |calls|
  {
    if calls == [] then Session([], [], st)
    else
      var x := step(calls[0], st);
      var reply := Reply(calls[0].name, x.reply, dumps);
      if x.reply.Raise? then Session([reply], [x.reply], x.state)
      else
        var rest := AnswerAll(step, calls[1..], dumps, x.state);
        Session([reply] + rest.replies, [x.reply] + rest.outcomes, rest.state)
  }

  /** The loop from the i-th call on: that call runs first, and the loop goes on after it only if it did not raise. */
  lemma AnswerAllFrom<S>(step: (ToolCall, S) -> Executed<S>, calls: seq<ToolCall>, i: nat, dumps: Dumper, st: S)
    requires i < |calls|
    ensures var x := step(calls[i], st);
      AnswerAll(step, calls[i..], dumps, st) ==
        if x.reply.Raise? then Session([Reply(calls[i].name, x.reply, dumps)], [x.reply], x.state)
        else
          var rest := AnswerAll(step, calls[i + 1..], dumps, x.state);
          Session([Reply(calls[i].name, x.reply, dumps)] + rest.replies, [x.reply] + rest.outcomes, rest.state)
  {
    assert calls[i..][0] == calls[i] && calls[i..][1..] == calls[i + 1..];
  }

  /**
   * One turn of a loop that has answered the calls before the i-th: once the
   * i-th call has run, the loop has either ended, answered, or goes on from
   * the next call and the state that call left.
   */
  lemma AnswerAllAdvance<S>(step: (ToolCall, S) -> Executed<S>, calls: seq<ToolCall>, i: nat, dumps: Dumper,
                            before: S, after: S, response: Outcome<Json>,
                            replies: seq<string>, outcomes: seq<Outcome<Json>>, whole: Session<S>)
    requires i < |calls| && step(calls[i], before) == Executed(response, after)
    requires var here := AnswerAll(step, calls[i..], dumps, before);
      whole == Session(replies + here.replies, outcomes + here.outcomes, here.state)
    ensures var replies' := replies + [Reply(calls[i].name, response, dumps)];
      var outcomes' := outcomes + [response];
      && (response.Raise? ==> whole == Session(replies', outcomes', after))
      && (response.Ok? ==>
            var next := AnswerAll(step, calls[i + 1..], dumps, after);
            whole == Session(replies' + next.replies, outcomes' + next.outcomes, next.state))
  {
    AnswerAllFrom(step, calls, i, dumps, before);
    if response.Ok? {
      var next := AnswerAll(step, calls[i + 1..], dumps, after);
      var reply := Reply(calls[i].name, response, dumps);
      assert replies + ([reply] + next.replies) == (replies + [reply]) + next.replies;
      assert outcomes + ([response] + next.outcomes) == (outcomes + [response]) + next.outcomes;
    }
  }

  /** The loop answers in the shape `Answered` describes. */
  lemma {:induction false} AnswerAllAnswered<S>(step: (ToolCall, S) -> Executed<S>, calls: seq<ToolCall>, dumps: Dumper, st: S)
    ensures var s := AnswerAll(step, calls, dumps, st); Answered(calls, s.replies, s.outcomes, dumps)
    decreases |calls|
  {
    if calls != [] {
      var x := step(calls[0], st);
      if x.reply.Ok? {
        var rest := AnswerAll(step, calls[1..], dumps, x.state);
        AnswerAllAnswered(step, calls[1..], dumps, x.state);
        var s := AnswerAll(step, calls, dumps, st);
        forall i | 1 <= i < |s.replies|
          ensures s.replies[i] == Reply(calls[i].name, s.outcomes[i], dumps)
        {
          assert s.replies[i] == rest.replies[i - 1] && s.outcomes[i] == rest.outcomes[i - 1];
          assert calls[i] == calls[1..][i - 1];
        }
        forall i | 0 <= i < |s.replies| - 1 ensures s.outcomes[i].Ok? {
          if i > 0 {
            assert s.outcomes[i] == rest.outcomes[i - 1];
          }
        }
      }
    }
  }

  /** When no call raises, every call is answered by its formatted response, in order. */
  lemma AnsweredAll(calls: seq<ToolCall>, replies: seq<string>, outcomes: seq<Outcome<Json>>, dumps: Dumper)
    requires Answered(calls, replies, outcomes, dumps)
    requires forall i :: 0 <= i < |outcomes| ==> outcomes[i].Ok?
    ensures |replies| == |calls|
    ensures forall i :: 0 <= i < |calls| ==> replies[i] == FormatToolResponse(calls[i].name, outcomes[i].value, dumps)
  {
  }

  /** A call whose name is not among `names` is answered `outcome(name)`, whatever the state. */
  lemma {:induction false} AnswerAllUnknown<S>(step: (ToolCall, S) -> Executed<S>, calls: seq<ToolCall>, dumps: Dumper, st: S,
                                                names: set<string>, refusal: string -> Json)
    requires forall i, t: S :: 0 <= i < |calls| && calls[i].name !in names ==> step(calls[i], t).reply == Ok(refusal(calls[i].name))
    ensures var s := AnswerAll(step, calls, dumps, st);
      forall i :: 0 <= i < |s.outcomes| && calls[i].name !in names ==> s.outcomes[i] == Ok(refusal(calls[i].name))
    decreases |calls|
  {
    if calls != [] {
      var x := step(calls[0], st);
      if x.reply.Ok? {
        var rest := AnswerAll(step, calls[1..], dumps, x.state);
        forall i, t: S | 0 <= i < |calls[1..]| && calls[1..][i].name !in names
          ensures step(calls[1..][i], t).reply == Ok(refusal(calls[1..][i].name))
        {
          assert calls[1..][i] == calls[i + 1];
        }
        AnswerAllUnknown(step, calls[1..], dumps, x.state, names, refusal);
        var s := AnswerAll(step, calls, dumps, st);
        forall i | 1 <= i < |s.outcomes| && calls[i].name !in names
          ensures s.outcomes[i] == Ok(refusal(calls[i].name))
        {
          assert s.outcomes[i] == rest.outcomes[i - 1];
          assert calls[i] == calls[1..][i - 1];
        }
      }
    }
  }

  /**
   * When no call changes the state, every outcome is the call's outcome on
   * the starting state, whatever the calls before it did, and the state
   * ends as it began.
   */
  lemma {:induction false} AnswerAllFixed<S>(step: (ToolCall, S) -> Executed<S>, calls: seq<ToolCall>, dumps: Dumper, st: S)
    requires forall i :: 0 <= i < |calls| ==> step(calls[i], st).state == st
    ensures var s := AnswerAll(step, calls, dumps, st);
      && s.state == st
      && forall i :: 0 <= i < |s.outcomes| ==> s.outcomes[i] == step(calls[i], st).reply
    decreases |calls|
  {
    if calls != [] {
      var x := step(calls[0], st);
      if x.reply.Ok? {
        forall i | 0 <= i < |calls[1..]| ensures step(calls[1..][i], st).state == st {
          assert calls[1..][i] == calls[i + 1];
        }
        AnswerAllFixed(step, calls[1..], dumps, st);
        var rest := AnswerAll(step, calls[1..], dumps, st);
        var s := AnswerAll(step, calls, dumps, st);
        forall i | 1 <= i < |s.outcomes| ensures s.outcomes[i] == step(calls[i], st).reply {
          assert s.outcomes[i] == rest.outcomes[i - 1];
          assert calls[i] == calls[1..][i - 1];
        }
      }
    }
  }
}
