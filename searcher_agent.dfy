/**
 * tools/deeper_searcher_agent.py: the DeeperSearcher agent. Five handlers;
 * the two that name a path check it against the file system, and
 * `_detect_language` maps a file's extension to a language name.
 */
module DeeperSearcherAgent {
  import opened Text
  import opened Values
  import opened FileSystem
  import opened AgentBase

  const Actions := ["analyze_file", "analyze_folder", "find_patterns", "identify_issues", "suggest_improvements"]

  const Description :=
    "You are the DeeperSearcher agent, responsible for deep analysis of the codebase. "
    + "Your job is to understand the structure, patterns, and relationships within the code. "
    + "You should identify potential issues, suggest improvements, and provide detailed context "
    + "about specific parts of the codebase when requested. You work closely with the MemoryBank "
    + "agent to store and retrieve information about the codebase."

  function Info(): AgentInfo {
    MakeAgent("DeeperSearcher", Description, None)
  }

  /** The extension table, keyed by lower-case extension with its dot. */
  const Languages: seq<(string, string)> := [
    (".py", "python"), (".js", "javascript"), (".ts", "typescript"), (".html", "html"),
    (".css", "css"), (".java", "java"), (".c", "c"), (".cpp", "c++"), (".cs", "c#"),
    (".go", "go"), (".rb", "ruby"), (".php", "php"), (".swift", "swift"), (".kt", "kotlin"),
    (".rs", "rust")
  ]

  function LanguageOf(ext: string, table: seq<(string, string)>): (r: string)
    ensures (exists i :: 0 <= i < |table| && table[i].0 == ext) ==> exists i :: 0 <= i < |table| && table[i] == (ext, r)
    ensures (forall i :: 0 <= i < |table| ==> table[i].0 != ext) ==> r == "unknown"
  {
    if table == [] then "unknown"
    else if table[0].0 == ext then table[0].1
    else
      var r := LanguageOf(ext, table[1..]);
      assert forall i :: 1 <= i < |table| ==> table[i] == table[1..][i - 1];
      r
  }

  /** `_detect_language`: the lower-cased extension looked up in the table. */
  function DetectLanguage(path: string): string {
    LanguageOf(Lower(Ext(path)), Languages)
  }

  /** No language in the table is called "unknown", and every key is a dot and at least one letter. */
  lemma LanguagesWellFormed()
    ensures forall i :: 0 <= i < |Languages| ==> Languages[i].1 != "unknown" && |Languages[i].0| >= 2
  {
  }

  /** The answer is "unknown" exactly when the lower-cased extension is not a key of the table. */
  lemma DetectLanguageUnknown(path: string)
    ensures DetectLanguage(path) == "unknown" <==> forall i :: 0 <= i < |Languages| ==> Languages[i].0 != Lower(Ext(path))
  {
    LanguagesWellFormed();
    LanguageOfUnknown(Lower(Ext(path)), Languages);
  }

  lemma LanguageOfUnknown(ext: string, table: seq<(string, string)>)
    requires forall i :: 0 <= i < |table| ==> table[i].1 != "unknown"
    ensures LanguageOf(ext, table) == "unknown" <==> forall i :: 0 <= i < |table| ==> table[i].0 != ext
  {
  }

  /** The lookup ignores case: `main.PY` is Python. */
  lemma DetectPython(dir: string, stem: string)
    requires dir == [] || dir[|dir| - 1] == '/'
    requires stem != [] && stem[0] != '.' && '/' !in stem
    ensures DetectLanguage(dir + stem + ".py") == "python"
    ensures DetectLanguage(dir + stem + ".PY") == "python"
  {
    DetectSuffix(dir, stem, "py");
    DetectSuffix(dir, stem, "PY");
    PythonSuffix();
  }

  /** A name with a stem and one dotted suffix is looked up by that suffix, lower-cased. */
  lemma DetectSuffix(dir: string, stem: string, suffix: string)
    requires dir == [] || dir[|dir| - 1] == '/'
    requires stem != [] && stem[0] != '.' && '/' !in stem
    requires '.' !in suffix && '/' !in suffix
    ensures DetectLanguage(dir + stem + ("." + suffix)) == LanguageOf(Lower("." + suffix), Languages)
  {
    ExtOfName(dir, stem, suffix);
    assert dir + stem + ("." + suffix) == dir + stem + "." + suffix;
  }

  lemma PythonSuffix()
    ensures "." + "py" == ".py" && "." + "PY" == ".PY"
    ensures LanguageOf(Lower(".py"), Languages) == "python"
    ensures LanguageOf(Lower(".PY"), Languages) == "python"
  {
    assert Lower(".PY") == ".py";
    assert Lower(".py") == ".py";
  }

  /** A dot-file such as `.py` has no extension, so its language is unknown. */
  lemma DetectDotFile()
    ensures DetectLanguage(".py") == "unknown"
  {
    ExtOfDotFile("py");
    PythonSuffix();
    UnknownEmpty();
  }

  lemma UnknownEmpty()
    ensures LanguageOf(Lower(""), Languages) == "unknown"
  {
    assert Lower("") == "";
  }

  /** A path with no dot has no extension, so its language is unknown. */
  lemma {:induction false} DetectNoDot(path: string)
    requires '.' !in path
    ensures DetectLanguage(path) == "unknown"
  {
    LastIndexNone(path, '.');
  }

  function Process(message: Json, fs: Fs): (r: Outcome<Json>)
    ensures !message.JObj? ==> r.Raise?
  {
    match ActionOf(message)
    case Raise(e) => Raise(e)
    case Ok(action) =>
      var f := message.fields;
      if action == JStr("analyze_file") then AnalyzeFile(f, fs)
      else if action == JStr("analyze_folder") then AnalyzeFolder(f, fs)
      else if action == JStr("find_patterns") then Ok(Scoped(f, "pattern_type", "patterns"))
      else if action == JStr("identify_issues") then Ok(Scoped(f, "issue_type", "issues"))
      else if action == JStr("suggest_improvements") then Ok(Scoped(f, "improvement_type", "suggestions"))
      else Ok(UnknownAction(action, Actions))
  }

  /** Any other action gets the error listing the five handled ones. */
  lemma ProcessUnknown(fields: seq<(string, Json)>, fs: Fs)
    requires forall a :: a in Actions ==> Field(fields, "action", JStr("")) != JStr(a)
    ensures Process(JObj(fields), fs) == Ok(UnknownAction(Field(fields, "action", JStr("")), Actions))
  {
  }

  /** The analysis of an existing file: its language first, then the sample figures. */
  function FileAnalysis(path: string): (r: Json)
    ensures r.JObj? && |r.fields| == 7 && r.fields[0] == ("language", JStr(DetectLanguage(path)))
  {
    JObj([
      ("language", JStr(DetectLanguage(path))),
      ("loc", JInt(100)), ("functions", JInt(5)), ("classes", JInt(2)), ("imports", JInt(10)),
      ("complexity", JStr("medium")),
      ("summary", JStr("This file contains code for handling " + Basename(path) + " functionality."))])
  }

  /** `_analyze_file`: the path must be given, then be a file; the analysis names its language. */
  function AnalyzeFile(f: seq<(string, Json)>, fs: Fs): (r: Outcome<Json>)
    ensures var p := Field(f, "file_path", JStr(""));
      && (!Truthy(p) <==> r == Ok(ErrorReply("Missing file_path")))
      && (Truthy(p) && p.JStr? ==>
            && (p.s !in fs.files <==> r == Ok(ErrorReply("File not found: " + p.s)))
            && (p.s in fs.files ==>
                  r == Ok(Success([("file_path", p), ("analysis", FileAnalysis(p.s))]))))
  {
    var p := Field(f, "file_path", JStr(""));
    if !Truthy(p) then Ok(ErrorReply("Missing file_path"))
    else match IsFile(fs, p)
      case Raise(e) => Raise(e)
      case Ok(false) =>
        assert ("File not found: " + Str(p))[0] != "Missing file_path"[0];
        Ok(ErrorReply("File not found: " + Str(p)))
      case Ok(true) =>
        Ok(Success([("file_path", p), ("analysis", FileAnalysis(if p.JStr? then p.s else ""))]))
  }

  /** `_analyze_folder`: the path must be given, then be a directory. */
  function AnalyzeFolder(f: seq<(string, Json)>, fs: Fs): (r: Outcome<Json>)
    ensures var p := Field(f, "folder_path", JStr(""));
      && (!Truthy(p) <==> r == Ok(ErrorReply("Missing folder_path")))
      && (Truthy(p) && p.JStr? ==>
            (p.s !in fs.dirs <==> r == Ok(ErrorReply("Folder not found: " + p.s)))
            && (p.s in fs.dirs ==>
                  && r.Ok? && IsSuccess(r.value) && |r.value.fields| == 3 && r.value.fields[1] == ("folder_path", p)
                  && r.value.fields[2] == ("analysis", FolderAnalysis(p.s))))
  {
    var p := Field(f, "folder_path", JStr(""));
    if !Truthy(p) then Ok(ErrorReply("Missing folder_path"))
    else match IsDir(fs, p)
      case Raise(e) => Raise(e)
      case Ok(false) =>
        assert ("Folder not found: " + Str(p))[0] != "Missing folder_path"[0];
        Ok(ErrorReply("Folder not found: " + Str(p)))
      case Ok(true) =>
        Ok(Success([("folder_path", p), ("analysis", FolderAnalysis(if p.JStr? then p.s else ""))]))
  }

  /** The sample analysis of an existing folder, which names the folder in its summary. */
  function FolderAnalysis(path: string): (r: Json)
    ensures r.JObj? && |r.fields| == 5
    ensures r.fields[4] == ("summary", JStr("This folder contains a " + Basename(path) + " module with various components."))
  {
    JObj([
      ("files", JInt(20)),
      ("languages", Strings(["python", "javascript", "html", "css"])),
      ("total_loc", JInt(5000)),
      ("structure", JObj([("src", JStr("Source code")), ("tests", JStr("Test files")), ("docs", JStr("Documentation"))])),
      ("summary", JStr("This folder contains a " + Basename(path) + " module with various components."))])
  }

  /**
   * `_find_patterns`, `_identify_issues` and `_suggest_improvements`: the
   * kind field, then `scope`, both echoed back with the sample findings.
   */
  function Scoped(f: seq<(string, Json)>, kind: string, findings: string): (r: Json)
    requires kind != "scope"
    ensures var k := Field(f, kind, JStr("")); var s := Field(f, "scope", JStr(""));
      && (!Truthy(k) <==> r == ErrorReply("Missing " + kind))
      && (Truthy(k) ==> (!Truthy(s) <==> r == ErrorReply("Missing scope")))
      && (IsSuccess(r) <==> Truthy(k) && Truthy(s))
      && (IsSuccess(r) ==> |r.fields| == 4 && r.fields[1] == (kind, k) && r.fields[2] == ("scope", s))
  {
    var k := Field(f, kind, JStr(""));
    var s := Field(f, "scope", JStr(""));
    if !Truthy(k) then ErrorReply("Missing " + kind)
    else if !Truthy(s) then
      assert ("Missing " + kind)[8..] == kind;
      ErrorReply("Missing scope")
    else Success([(kind, k), ("scope", s), (findings, Canned(findings))])
  }
}
