/**
 * tools/debugger_agent.py: the Debugger agent. Five handlers with their
 * field checks, and `_parse_error`, which reads the exception type from the
 * head of an error message and the `File "…", line N` frames from a stack
 * trace. Both regular expressions are written out as scanners.
 */
module DebuggerAgent {
  import opened Text
  import opened Values
  import opened ToolUtils
  import opened AgentBase

  const Actions := ["analyze_error", "trace_execution", "add_logging", "suggest_fix", "verify_fix"]

  const Description :=
    "You are the Debugger agent, responsible for identifying and fixing errors in the code. "
    + "Your job is to analyze error messages, trace code execution, and suggest fixes for bugs. "
    + "You should be methodical in your approach, testing hypotheses and verifying fixes. "
    + "When you encounter complex issues, you can ask for help from other agents through the Orchestrator."

  function Info(): AgentInfo {
    MakeAgent("Debugger", Description, None)
  }

  // ---- the error type: ^([A-Za-z0-9_]+Error|Exception): ----

  /**
   * The first alternative can only end where the run of word characters at
   * the head ends (the `:` after it is not a word character), so it matches
   * exactly when that run is longer than "Error" and ends with it.
   */
  function ErrorType(s: string): (r: string)
    ensures r == "Unknown Error" || r == "Exception" || (r <= s && |r| < |s| && s[|r|] == ':')
  {
    var n := IdentLen(s, 0);
    if n >= 6 && s[n - 5..n] == "Error" && n < |s| && s[n] == ':' then s[..n]
    else if "Exception:" <= s then "Exception"
    else "Unknown Error"
  }

  /** A word ending in "Error" before a colon is the type. */
  lemma ErrorTypeNamed(w: string, rest: string)
    requires w != [] && forall i :: 0 <= i < |w| ==> IsIdentChar(w[i])
    ensures ErrorType(w + "Error:" + rest) == w + "Error"
  {
    var s := w + "Error:" + rest;
    var n := |w| + 5;
    assert s[..n] == w + "Error";
    forall k | 0 <= k < n ensures IsIdentChar(s[k]) {
      if k < |w| { assert s[k] == w[k]; } else { assert s[k] == "Error"[k - |w|]; }
    }
    IdentLenExact(s, 0, n);
    assert s[n - 5..n] == "Error";
  }

  /** "Error" alone is not a type: at least one character must come before it. */
  lemma ErrorTypeNeedsPrefix(rest: string)
    ensures ErrorType("Error:" + rest) == "Unknown Error"
  {
    var s := "Error:" + rest;
    assert !IsIdentChar(s[5]);
    IdentLenExact(s, 0, 5);
    assert !("Exception:" <= s) by { assert s[1] != "Exception:"[1]; }
  }

  /** A message starting with "Exception:" has type "Exception". */
  lemma ErrorTypeException(rest: string)
    ensures ErrorType("Exception:" + rest) == "Exception"
  {
    var s := "Exception:" + rest;
    assert !IsIdentChar(s[9]);
    IdentLenExact(s, 0, 9);
    assert "Exception:" <= s;
  }

  // ---- the frames: File "([^"]+)", line (\d+) ----

  function NonQuoteLen(s: string, i: nat): (n: nat)
    requires i <= |s|
    ensures i + n <= |s| && (i + n == |s| || s[i + n] == '"')
    ensures forall k :: i <= k < i + n ==> s[k] != '"'
    decreases |s| - i
  {
    if i < |s| && s[i] != '"' then 1 + NonQuoteLen(s, i + 1) else 0
  }

  function DigitLen(s: string, i: nat): (n: nat)
    requires i <= |s|
    ensures i + n <= |s| && (i + n == |s| || !IsDigit(s[i + n]))
    ensures AllDigits(s[i..i + n])
    decreases |s| - i
  {
    if i < |s| && IsDigit(s[i]) then
      var n := DigitLen(s, i + 1);
      assert s[i..i + 1 + n] == [s[i]] + s[i + 1..i + 1 + n];
      1 + n
    else 0
  }

  const FileOpen := "File \""
  const LineSep := "\", line "

  /** The frame that starts at the head of s, if any, with the length it covers. */
  function FrameAt(s: string): (r: Option<(string, nat, nat)>)
    ensures r.Some? ==> 0 < r.value.2 <= |s|
  {
    if FileOpen <= s then
      var q := NonQuoteLen(s, 6);
      var d := 6 + q + 8;
      if q >= 1 && d <= |s| && s[6 + q..d] == LineSep then
        var n := DigitLen(s, d);
        if n >= 1 then Some((s[6..6 + q], DigitsValue(s[d..d + n]), d + n)) else None
      else None
    else None
  }

  /** `re.findall`: every frame, left to right, each search resuming after the previous frame. */
  function Frames(s: string): (r: seq<(string, nat)>)
    decreases |s|
  {
    if s == [] then []
    else match FrameAt(s)
      case Some(m) => [(m.0, m.1)] + Frames(s[m.2..])
      case None => Frames(s[1..])
  }

  /** One frame as a stack trace prints it. */
  function Frame(file: string, line: nat): string {
    FileOpen + file + LineSep + NatToString(line)
  }

  /** A frame laid out at the head of s: a file name of q characters, then n digits. */
  predicate FrameLaid(s: string, q: nat, n: nat) {
    FileOpen <= s && q >= 1 && n >= 1 && 6 + q + 8 + n <= |s|
    && (forall k :: 6 <= k < 6 + q ==> s[k] != '"')
    && s[6 + q..6 + q + 8] == LineSep
    && (forall k :: 6 + q + 8 <= k < 6 + q + 8 + n ==> IsDigit(s[k]))
    && (6 + q + 8 + n == |s| || !IsDigit(s[6 + q + 8 + n]))
  }

  /** The scanner's reading of a frame laid out at the head of s. */
  lemma FrameAtParts(s: string, q: nat, n: nat)
    requires FrameLaid(s, q, n)
    ensures FrameAt(s) == Some((s[6..6 + q], DigitsValue(s[6 + q + 8..6 + q + 8 + n]), 6 + q + 8 + n))
  {
    assert s[6 + q] == LineSep[0];
    NonQuoteExact(s, 6, q);
    DigitLenExact(s, 6 + q + 8, n);
  }

  /** How a printed frame followed by other text is laid out. */
  lemma FrameLayout(file: string, line: nat, rest: string)
    requires file != [] && '"' !in file
    requires rest == [] || !IsDigit(rest[0])
    ensures |Frame(file, line)| == 6 + |file| + 8 + |NatToString(line)|
    ensures FrameLaid(Frame(file, line) + rest, |file|, |NatToString(line)|)
    ensures (Frame(file, line) + rest)[6..6 + |file|] == file
    ensures (Frame(file, line) + rest)[6 + |file| + 8..6 + |file| + 8 + |NatToString(line)|] == NatToString(line)
  {
    var digits := NatToString(line);
    var s := FileOpen + file + LineSep + digits + rest;
    assert Frame(file, line) + rest == s;
    var q, d := |file|, 6 + |file| + 8;
    assert s[..6] == FileOpen;
    assert s[6..6 + q] == file;
    assert s[6 + q..d] == LineSep;
    assert s[d..d + |digits|] == digits;
    assert s[d + |digits|..] == rest;
    forall k | 6 <= k < 6 + q ensures s[k] != '"' {
      assert s[k] == s[6..6 + q][k - 6];
    }
    forall k | d <= k < d + |digits| ensures IsDigit(s[k]) {
      assert s[k] == s[d..d + |digits|][k - d];
    }
    assert d + |digits| == |s| || s[d + |digits|] == s[d + |digits|..][0];
  }

  /** A frame at the head of a trace is found, with its file and its line number read back. */
  lemma FrameAtFrame(file: string, line: nat, rest: string)
    requires file != [] && '"' !in file
    requires rest == [] || !IsDigit(rest[0])
    ensures FrameAt(Frame(file, line) + rest) == Some((file, line, |Frame(file, line)|))
  {
    FrameLayout(file, line, rest);
    FrameAtRead(Frame(file, line) + rest, file, line);
  }

  /** A laid-out frame reads back as its file and line. */
  lemma FrameAtRead(s: string, file: string, line: nat)
    requires FrameLaid(s, |file|, |NatToString(line)|)
    requires s[6..6 + |file|] == file
    requires s[6 + |file| + 8..6 + |file| + 8 + |NatToString(line)|] == NatToString(line)
    ensures FrameAt(s) == Some((file, line, 6 + |file| + 8 + |NatToString(line)|))
  {
    FrameAtParts(s, |file|, |NatToString(line)|);
    DigitsValueOfNatToString(line);
  }

  lemma NonQuoteExact(s: string, i: nat, n: nat)
    requires i + n < |s| && s[i + n] == '"'
    requires forall k :: i <= k < i + n ==> s[k] != '"'
    ensures NonQuoteLen(s, i) == n
    decreases n
  {
    if n > 0 {
      NonQuoteExact(s, i + 1, n - 1);
    }
  }

  lemma DigitLenExact(s: string, i: nat, n: nat)
    requires i + n <= |s| && (i + n == |s| || !IsDigit(s[i + n]))
    requires forall k :: i <= k < i + n ==> IsDigit(s[k])
    ensures DigitLen(s, i) == n
    decreases n
  {
    if n > 0 {
      DigitLenExact(s, i + 1, n - 1);
    }
  }

  /** Scanning resumes right after a frame. */
  lemma FramesFrame(file: string, line: nat, rest: string)
    requires file != [] && '"' !in file
    requires rest == [] || !IsDigit(rest[0])
    ensures Frames(Frame(file, line) + rest) == [(file, line)] + Frames(rest)
  {
    FrameAtFrame(file, line, rest);
    var s := Frame(file, line) + rest;
    assert s[|Frame(file, line)|..] == rest;
  }

  /** Text with no `F` holds no frame. */
  lemma {:induction false} FramesNone(s: string)
    requires 'F' !in s
    ensures Frames(s) == []
    decreases |s|
  {
    if s != [] {
      assert !(FileOpen <= s) by { assert s[0] != 'F'; }
      FramesNone(s[1..]);
    }
  }

  /** A trace printed one frame per line. */
  function Trace(frames: seq<(string, nat)>): string {
    if frames == [] then "" else Frame(frames[0].0, frames[0].1) + "\n" + Trace(frames[1..])
  }

  predicate PrintableFile(f: string) {
    f != [] && '"' !in f
  }

  /** Every frame of a printed trace is found, in order, with its line number. */
  lemma {:induction false} FramesOfTrace(frames: seq<(string, nat)>)
    requires forall i :: 0 <= i < |frames| ==> PrintableFile(frames[i].0)
    ensures Frames(Trace(frames)) == frames
  {
    if frames != [] {
      var rest := "\n" + Trace(frames[1..]);
      assert Trace(frames) == Frame(frames[0].0, frames[0].1) + rest;
      FramesFrame(frames[0].0, frames[0].1, rest);
      FramesOfTrace(frames[1..]);
      FramesNewline(Trace(frames[1..]));
      assert frames == [(frames[0].0, frames[0].1)] + frames[1..];
    }
  }

  lemma FramesNewline(s: string)
    ensures Frames("\n" + s) == Frames(s)
  {
    var t := "\n" + s;
    assert !(FileOpen <= t) by { assert t[0] != 'F'; }
    assert t[1..] == s;
  }

  function FileJson(m: (string, nat)): Json {
    JObj([("file", JStr(m.0)), ("line", JInt(m.1))])
  }

  /** `error_details`: a `files` list when the trace holds frames, else empty. */
  function Details(trace: string): (r: Json)
    ensures Frames(trace) == [] <==> r == JObj([])
    ensures Frames(trace) != [] ==>
      r.JObj? && |r.fields| == 1 && r.fields[0].0 == "files"
      && r.fields[0].1.JArr? && |r.fields[0].1.items| == |Frames(trace)|
  {
    var ms := Frames(trace);
    if ms == [] then JObj([])
    else JObj([("files", JArr(seq(|ms|, i requires 0 <= i < |ms| => FileJson(ms[i]))))])
  }

  /** `_parse_error`; a truthy message or trace that is not a string makes the regex raise. */
  function ParseError(message: Json, trace: Json): (r: Outcome<(string, Json)>)
    ensures r.Raise? <==> (Truthy(message) && !message.JStr?) || (Truthy(trace) && !trace.JStr?)
    ensures r.Ok? && !Truthy(message) ==> r.value.0 == "Unknown Error"
    ensures r.Ok? && !Truthy(trace) ==> r.value.1 == JObj([])
  {
    if Truthy(message) && !message.JStr? then Raise(NotString(message))
    else if Truthy(trace) && !trace.JStr? then Raise(NotString(trace))
    else
      var errorType := if Truthy(message) then ErrorType(message.s) else "Unknown Error";
      var details := if Truthy(trace) then Details(trace.s) else JObj([]);
      Ok((errorType, details))
  }

  // ---- process and the handlers ----

  function Process(message: Json): (r: Outcome<Json>)
    ensures !message.JObj? ==> r.Raise?
  {
    match ActionOf(message)
    case Raise(e) => Raise(e)
    case Ok(action) =>
      var f := message.fields;
      if action == JStr("analyze_error") then AnalyzeError(f)
      else if action == JStr("trace_execution") then Ok(TraceExecution(f))
      else if action == JStr("add_logging") then Ok(AddLogging(f))
      else if action == JStr("suggest_fix") then Ok(SuggestFix(f))
      else if action == JStr("verify_fix") then Ok(VerifyFix(f))
      else Ok(UnknownAction(action, Actions))
  }

  /** Any other action gets the error listing the five handled ones. */
  lemma ProcessUnknown(fields: seq<(string, Json)>)
    requires forall a :: a in Actions ==> Field(fields, "action", JStr("")) != JStr(a)
    ensures Process(JObj(fields)) == Ok(UnknownAction(Field(fields, "action", JStr("")), Actions))
  {
  }

  /** `_analyze_error`: refused only when both the message and the trace are empty. */
  function AnalyzeError(f: seq<(string, Json)>): (r: Outcome<Json>)
    ensures var m := Field(f, "error_message", JStr("")); var t := Field(f, "stack_trace", JStr(""));
      && (r == Ok(ErrorReply("Missing error_message or stack_trace")) <==> !Truthy(m) && !Truthy(t))
      && (r.Ok? && IsSuccess(r.value) ==>
            ParseError(m, t).Ok? && |r.value.fields| == 4
            && r.value.fields[1] == ("error_type", JStr(ParseError(m, t).value.0))
            && r.value.fields[2] == ("error_details", ParseError(m, t).value.1))
  {
    var m := Field(f, "error_message", JStr(""));
    var t := Field(f, "stack_trace", JStr(""));
    if !Truthy(m) && !Truthy(t) then Ok(ErrorReply("Missing error_message or stack_trace"))
    else match ParseError(m, t)
      case Raise(e) => Raise(e)
      case Ok(p) => Ok(Success([("error_type", JStr(p.0)), ("error_details", p.1), ("analysis", Canned("analysis"))]))
  }

  /** `_trace_execution`: file_path, then function_name. */
  function TraceExecution(f: seq<(string, Json)>): (r: Json)
    ensures var p := Field(f, "file_path", JStr("")); var fn := Field(f, "function_name", JStr(""));
      && (!Truthy(p) <==> r == ErrorReply("Missing file_path"))
      && (Truthy(p) ==> (!Truthy(fn) <==> r == ErrorReply("Missing function_name")))
      && (IsSuccess(r) <==> Truthy(p) && Truthy(fn))
  {
    var p := Field(f, "file_path", JStr(""));
    var fn := Field(f, "function_name", JStr(""));
    if !Truthy(p) then ErrorReply("Missing file_path")
    else if !Truthy(fn) then ErrorReply("Missing function_name")
    else Success([("file_path", p), ("function_name", fn), ("trace", Canned("trace"))])
  }

  /** `_add_logging`: file_path, then a non-empty line_numbers; the level defaults to "debug". */
  function AddLogging(f: seq<(string, Json)>): (r: Json)
    ensures var p := Field(f, "file_path", JStr("")); var ls := Field(f, "line_numbers", JArr([]));
      && (!Truthy(p) <==> r == ErrorReply("Missing file_path"))
      && (Truthy(p) ==> (!Truthy(ls) <==> r == ErrorReply("Missing line_numbers")))
      && (IsSuccess(r) <==> Truthy(p) && Truthy(ls))
      && (IsSuccess(r) && "log_level" !in Keys(f) ==> |r.fields| == 5 && r.fields[3] == ("log_level", JStr("debug")))
  {
    var p := Field(f, "file_path", JStr(""));
    var ls := Field(f, "line_numbers", JArr([]));
    var level := Field(f, "log_level", JStr("debug"));
    if !Truthy(p) then ErrorReply("Missing file_path")
    else if !Truthy(ls) then ErrorReply("Missing line_numbers")
    else Success([("file_path", p), ("line_numbers", ls), ("log_level", level), ("changes", Canned("changes"))])
  }

  /** `_suggest_fix`: file_path, then error_type. */
  function SuggestFix(f: seq<(string, Json)>): (r: Json)
    ensures var p := Field(f, "file_path", JStr("")); var t := Field(f, "error_type", JStr(""));
      && (!Truthy(p) <==> r == ErrorReply("Missing file_path"))
      && (Truthy(p) ==> (!Truthy(t) <==> r == ErrorReply("Missing error_type")))
      && (IsSuccess(r) <==> Truthy(p) && Truthy(t))
  {
    var p := Field(f, "file_path", JStr(""));
    var t := Field(f, "error_type", JStr(""));
    if !Truthy(p) then ErrorReply("Missing file_path")
    else if !Truthy(t) then ErrorReply("Missing error_type")
    else Success([("file_path", p), ("error_type", t), ("suggested_fixes", Canned("suggested fixes"))])
  }

  /** `_verify_fix`: file_path, then applied_fixes. */
  function VerifyFix(f: seq<(string, Json)>): (r: Json)
    ensures var p := Field(f, "file_path", JStr("")); var a := Field(f, "applied_fixes", JArr([]));
      && (!Truthy(p) <==> r == ErrorReply("Missing file_path"))
      && (Truthy(p) ==> (!Truthy(a) <==> r == ErrorReply("Missing applied_fixes")))
      && (IsSuccess(r) <==> Truthy(p) && Truthy(a))
  {
    var p := Field(f, "file_path", JStr(""));
    var a := Field(f, "applied_fixes", JArr([]));
    if !Truthy(p) then ErrorReply("Missing file_path")
    else if !Truthy(a) then ErrorReply("Missing applied_fixes")
    else Success([("file_path", p), ("verification_result", Canned("verification result"))])
  }
}
