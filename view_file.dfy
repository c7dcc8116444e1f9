/**
 * tools/view_file.py: the view_file tool. The path is passed through
 * `safe_path` and must name a file; the requested range must be ordered and
 * at most 200 lines apart; the range is then clamped to the file's lines and
 * the lines in it returned, with an optional note of the lines left out.
 */
module ViewFile {
  import opened Text
  import opened Values
  import opened ToolUtils
  import opened BaseTool
  import opened FileSystem
  import opened AgentBase

  const Schema :=
    "{\"properties\": {\"AbsolutePath\": {\"type\": \"string\"}, \"StartLine\": {\"type\": \"integer\"}, "
    + "\"EndLine\": {\"type\": \"integer\"}, \"IncludeSummaryOfOtherLines\": {\"type\": \"boolean\"}}, "
    + "\"additionalProperties\": false, \"type\": \"object\", "
    + "\"required\": [\"AbsolutePath\", \"StartLine\", \"EndLine\", \"IncludeSummaryOfOtherLines\"]}"

  const Required := ["AbsolutePath", "StartLine", "EndLine", "IncludeSummaryOfOtherLines"]

  function Info(): ToolInfo {
    ToolInfo("view_file", "View the contents of a file.", Schema)
  }

  // ---- the file's lines ----

  /** The length of the line at the head of s, its newline included. */
  function LineLen(s: string): (n: nat)
    requires s != []
    ensures 1 <= n <= |s|
    ensures forall k :: 0 <= k < n - 1 ==> s[k] != '\n'
    ensures n < |s| ==> s[n - 1] == '\n'
  {
    if s[0] == '\n' || |s| == 1 then 1 else 1 + LineLen(s[1..])
  }

  /** `f.readlines()`: the lines of the text, each keeping its newline; the last may lack one. */
  function Readlines(s: string): (r: seq<string>)
    ensures forall i :: 0 <= i < |r| ==> r[i] != []
    ensures forall i :: 0 <= i < |r| - 1 ==> r[i][|r[i]| - 1] == '\n'
    decreases |s|
  {
    if s == [] then [] else [s[..LineLen(s)]] + Readlines(s[LineLen(s)..])
  }

  /** `"".join(lines)` */
  function Concat(lines: seq<string>): string {
    if lines == [] then "" else lines[0] + Concat(lines[1..])
  }

  /** Joining the lines gives the text back. */
  lemma {:induction false} ConcatReadlines(s: string)
    ensures Concat(Readlines(s)) == s
    decreases |s|
  {
    if s != [] {
      var n := LineLen(s);
      ConcatReadlines(s[n..]);
      assert Readlines(s)[1..] == Readlines(s[n..]);
      assert s == s[..n] + s[n..];
    }
  }

  lemma {:induction false} ConcatAppend(a: seq<string>, b: seq<string>)
    ensures Concat(a + b) == Concat(a) + Concat(b)
  {
    if a != [] {
      ConcatAppend(a[1..], b);
      assert (a + b)[0] == a[0];
      assert (a + b)[1..] == a[1..] + b;
      calc {
        Concat(a + b);
        a[0] + Concat(a[1..] + b);
        a[0] + (Concat(a[1..]) + Concat(b));
        (a[0] + Concat(a[1..])) + Concat(b);
      }
    } else {
      assert a + b == b;
    }
  }

  /** The lines before the range, the range and the lines after it make up the whole text. */
  lemma ThreeParts(lines: seq<string>, i: nat, j: nat)
    requires i <= j <= |lines|
    ensures Concat(lines[..i]) + Concat(lines[i..j]) + Concat(lines[j..]) == Concat(lines)
  {
    var before, range, after := lines[..i], lines[i..j], lines[j..];
    assert lines[..j] == before + range;
    assert lines == (before + range) + after;
    ConcatAppend(before + range, after);
    ConcatAppend(before, range);
  }

  // ---- the range ----

  /** `max(0, min(x, total - 1))`: x moved into the file's line numbers. */
  function Clamp(x: int, total: nat): (r: nat)
    ensures r <= if total == 0 then 0 else total - 1
    ensures 0 <= x < total ==> r == x
    ensures x < 0 ==> r == 0
    ensures x >= total ==> r == if total == 0 then 0 else total - 1
  {
    if x <= 0 then 0 else if x < total then x else if total == 0 then 0 else total - 1
  }

  /** Clamping keeps an ordered range ordered and does not widen it. */
  lemma ClampRange(a: int, b: int, total: nat)
    requires a <= b
    ensures Clamp(a, total) <= Clamp(b, total)
    ensures Clamp(b, total) - Clamp(a, total) <= b - a
  {
  }

  function BeforeNote(s: nat): string {
    "Lines 0-" + IntToString(s - 1) + " (not shown): " + NatToString(s) + " lines"
  }

  function AfterNote(e: nat, total: nat): string {
    "Lines " + NatToString(e + 1) + "-" + IntToString(total - 1) + " (not shown): " + IntToString(total - e - 1) + " lines"
  }

  /** The summary lines: one for the lines before the range, one for those after it, when there are any. */
  function Notes(s: nat, e: nat, total: nat): (r: seq<string>)
    ensures |r| <= 2
    ensures (r == []) <==> (s == 0 && e >= total - 1)
  {
    (if s > 0 then [BeforeNote(s)] else []) + (if e < total - 1 then [AfterNote(e, total)] else [])
  }

  /**
   * `max(0, min(x, total - 1))` on the value itself. Both built-ins return
   * their first argument on a tie, so x comes back as it was when it already
   * lies in 1..total-1, and a plain int comes back otherwise: `True` stays
   * `True` in a file of two or more lines.
   */
  function ClampValue(x: Json, total: nat): (r: Json)
    requires NumberOf(x).Some?
    ensures NumberOf(r) == Some(Clamp(NumberOf(x).value, total))
    ensures x.JInt? ==> r == JInt(Clamp(x.i, total))
    ensures x == JBool(true) ==> r == if total >= 2 then JBool(true) else JInt(0)
    ensures x == JBool(false) ==> r == JInt(0)
  {
    var n := NumberOf(x).value;
    if 0 < n < total then x else JInt(Clamp(n, total))
  }

  /**
   * The reply for an ordered range in an existing file: the clamped bounds,
   * the line count and the lines in the range; then the summary, present
   * only when asked for and when the range leaves some line out.
   */
  function ViewRange(path: string, lines: seq<string>, startLine: Json, endLine: Json, wantSummary: bool): (r: Json)
    requires NumberOf(startLine).Some? && NumberOf(endLine).Some?
    requires NumberOf(startLine).value <= NumberOf(endLine).value
    ensures var total := |lines|;
      var s := Clamp(NumberOf(startLine).value, total); var e := Clamp(NumberOf(endLine).value, total);
      && s <= e
      && r.JObj? && 5 <= |r.fields| <= 6
      && r.fields[..5] == [("file_path", JStr(path)), ("start_line", ClampValue(startLine, total)),
                           ("end_line", ClampValue(endLine, total)), ("total_lines", JInt(total)),
                           ("content", JStr(Concat(lines[s..if total == 0 then 0 else e + 1])))]
      && (|r.fields| == 6 <==> wantSummary && (s > 0 || e < total - 1))
      && (|r.fields| == 6 ==> r.fields[5] == ("summary", JStr(JoinWith(Notes(s, e, total), "\n"))))
  {
    var total := |lines|;
    var s := Clamp(NumberOf(startLine).value, total);
    var e := Clamp(NumberOf(endLine).value, total);
    ClampRange(NumberOf(startLine).value, NumberOf(endLine).value, total);
    var shown := lines[s..if total == 0 then 0 else e + 1];
    var result := [("file_path", JStr(path)), ("start_line", ClampValue(startLine, total)),
                   ("end_line", ClampValue(endLine, total)), ("total_lines", JInt(total)),
                   ("content", JStr(Concat(shown)))];
    if wantSummary && (s > 0 || e < total - 1) then
      JObj(result + [("summary", JStr(JoinWith(Notes(s, e, total), "\n")))])
    else JObj(result)
  }

  /** A boolean `True` range in a file of two or more lines is reported as `true`, not as 1. */
  lemma BoolRangeKept(path: string, lines: seq<string>)
    requires |lines| >= 2
    ensures var r := ViewRange(path, lines, JBool(true), JBool(true), false);
      r.fields[1] == ("start_line", JBool(true)) && r.fields[2] == ("end_line", JBool(true))
  {
    var r := ViewRange(path, lines, JBool(true), JBool(true), false);
    assert r.fields[1] == r.fields[..5][1];
    assert r.fields[2] == r.fields[..5][2];
  }

  /** At most 201 lines are shown when the request spans at most 200. */
  lemma ViewRangeBound(lines: seq<string>, startLine: int, endLine: int)
    requires startLine <= endLine && endLine - startLine <= 200
    ensures var total := |lines|;
      (if total == 0 then 0 else Clamp(endLine, total) + 1) - Clamp(startLine, total) <= 201
  {
    ClampRange(startLine, endLine, |lines|);
  }

  /** The summary counts the lines before and after the range, and with the content they are the whole file. */
  lemma ViewRangeCovers(text: string, startLine: int, endLine: int)
    requires startLine <= endLine && text != []
    ensures var lines := Readlines(text); var total := |lines|;
      var s := Clamp(startLine, total); var e := Clamp(endLine, total);
      && total > 0 && s <= e < total
      && |lines[..s]| == s && |lines[e + 1..]| == total - e - 1
      && Concat(lines[..s]) + Concat(lines[s..e + 1]) + Concat(lines[e + 1..]) == text
  {
    var lines := Readlines(text);
    ClampRange(startLine, endLine, |lines|);
    ThreeParts(lines, Clamp(startLine, |lines|), Clamp(endLine, |lines|) + 1);
    ConcatReadlines(text);
  }

  /** Python's `a < b` on two values that are not both numbers. */
  function CompareError(a: Json, b: Json): string {
    "'<' not supported between instances of '" + TypeName(a) + "' and '" + TypeName(b) + "'"
  }

  /** `f.readlines()` on a file opened in text mode: the lines of its text with universal newlines. */
  function FileLines(text: string): seq<string> {
    Readlines(ReadText(text))
  }

  /**
   * `execute`. The checks come in the source's order: parameters, the path
   * (after `safe_path`) naming a file, then the range, all before the file
   * is read.
   */
  function Execute(params: Json, parse: Parser, fs: Fs): (r: Outcome<Json>)
    ensures ValidationReply(Schema, params, parse).Ok? && ValidationReply(Schema, params, parse).value.Some? ==>
      r == Ok(ValidationReply(Schema, params, parse).value.value)
    ensures ValidateParams(Schema, params, parse) == Ok(None) && params.JObj? ==>
      var f := params.fields;
      var path := Field(f, "AbsolutePath", JStr(""));
      var startLine := Field(f, "StartLine", JInt(0));
      var endLine := Field(f, "EndLine", JInt(0));
      && (!path.JStr? ==> r == Raise(NotString(path)))
      && (path.JStr? && SafePath(path.s) !in fs.files ==> r == Ok(ErrorOnly("File not found: " + SafePath(path.s))))
      && (path.JStr? && SafePath(path.s) in fs.files && NumberOf(startLine).Some? && NumberOf(endLine).Some? ==>
            var s := NumberOf(startLine).value; var e := NumberOf(endLine).value;
            && (e < s ==> r == Ok(ErrorOnly("EndLine must be greater than or equal to StartLine")))
            && (s <= e && e - s > 200 ==> r == Ok(ErrorOnly("Cannot view more than 200 lines at once")))
            && (s <= e <= s + 200 ==>
                  r == Ok(ViewRange(SafePath(path.s), FileLines(fs.files[SafePath(path.s)]), startLine, endLine,
                                    Truthy(Field(f, "IncludeSummaryOfOtherLines", JBool(false)))))))
  {
    match ValidationReply(Schema, params, parse)
    case Raise(e) => Raise(e)
    case Ok(Some(reply)) => Ok(reply)
    case Ok(None) =>
      if !params.JObj? then Raise(NoAttribute(params, "get"))
      else
        var f := params.fields;
        var path := Field(f, "AbsolutePath", JStr(""));
        var startLine := Field(f, "StartLine", JInt(0));
        var endLine := Field(f, "EndLine", JInt(0));
        var wantSummary := Field(f, "IncludeSummaryOfOtherLines", JBool(false));
        if !path.JStr? then Raise(NotString(path))
        else
          var p := SafePath(path.s);
          if p !in fs.files then Ok(ErrorOnly("File not found: " + p))
          else if NumberOf(startLine).None? || NumberOf(endLine).None? then Raise(CompareError(endLine, startLine))
          else
            var s := NumberOf(startLine).value;
            var e := NumberOf(endLine).value;
            if e < s then Ok(ErrorOnly("EndLine must be greater than or equal to StartLine"))
            else if e - s > 200 then Ok(ErrorOnly("Cannot view more than 200 lines at once"))
            else Ok(ViewRange(p, FileLines(fs.files[p]), startLine, endLine, Truthy(wantSummary)))
  }

  /** A range given backwards is refused before the file is read. */
  lemma BackwardsRangeRefused(fields: seq<(string, Json)>, parse: Parser, fs: Fs, path: string, s: int, e: int)
    requires ValidateParams(Schema, JObj(fields), parse) == Ok(None)
    requires Values.Lookup(fields, "AbsolutePath") == Some(JStr(path)) && SafePath(path) in fs.files
    requires Values.Lookup(fields, "StartLine") == Some(JInt(s)) && Values.Lookup(fields, "EndLine") == Some(JInt(e))
    requires e < s
    ensures Execute(JObj(fields), parse, fs) == Ok(ErrorOnly("EndLine must be greater than or equal to StartLine"))
  {
    assert Field(fields, "AbsolutePath", JStr("")) == JStr(path);
    assert Field(fields, "StartLine", JInt(0)) == JInt(s);
    assert Field(fields, "EndLine", JInt(0)) == JInt(e);
    assert ValidationReply(Schema, JObj(fields), parse) == Ok(None);
    assert NumberOf(JInt(s)) == Some(s) && NumberOf(JInt(e)) == Some(e);
  }

  /** ... so the reply is the same whatever the file holds. */
  lemma BackwardsRangeIgnoresText(fields: seq<(string, Json)>, parse: Parser, fs: Fs, path: string, s: int, e: int, text: string)
    requires ValidateParams(Schema, JObj(fields), parse) == Ok(None)
    requires Values.Lookup(fields, "AbsolutePath") == Some(JStr(path)) && SafePath(path) in fs.files
    requires Values.Lookup(fields, "StartLine") == Some(JInt(s)) && Values.Lookup(fields, "EndLine") == Some(JInt(e))
    requires e < s
    ensures Execute(JObj(fields), parse, fs.(files := fs.files[SafePath(path) := text])) == Execute(JObj(fields), parse, fs)
  {
    BackwardsRangeRefused(fields, parse, fs, path, s, e);
    BackwardsRangeRefused(fields, parse, fs.(files := fs.files[SafePath(path) := text]), path, s, e);
  }
}
