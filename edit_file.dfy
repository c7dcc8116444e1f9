/**
 * tools/edit_file.py: the edit_file tool. The edit text is cut at its
 * `{{ ... }}` placeholders; an edit without one replaces the whole file,
 * otherwise each non-blank section is looked for after the previous one and
 * appended on a line of its own when it is not there. The file is then
 * written back.
 */
module EditFile {
  import opened Text
  import opened Values
  import opened ToolUtils
  import opened BaseTool
  import opened AgentBase
  import opened FileSystem

  /** The tool's schema text, without its descriptions; only its `required` list is read. */
  const Schema :=
    "{\"properties\": {\"CodeMarkdownLanguage\": {\"type\": \"string\"}, \"TargetFile\": {\"type\": \"string\"}, "
    + "\"Instruction\": {\"type\": \"string\"}, \"TargetLintErrorIds\": {\"items\": {\"type\": \"string\"}, \"type\": \"array\"}, "
    + "\"CodeEdit\": {\"type\": \"string\"}}, \"additionalProperties\": false, \"type\": \"object\", "
    + "\"required\": [\"CodeMarkdownLanguage\", \"TargetFile\", \"Instruction\", \"TargetLintErrorIds\", \"CodeEdit\"]}"

  const Required := ["CodeMarkdownLanguage", "TargetFile", "Instruction", "TargetLintErrorIds", "CodeEdit"]

  function Info(): ToolInfo {
    ToolInfo("edit_file", "Use this tool to edit an existing file.", Schema)
  }

  /** The placeholder as the tool's description writes it. */
  const Placeholder := "{{ ... }}"

  // ---- re.split(r'{{ *\.\.\. *}}', code_edit) ----

  /** The number of spaces from index i on. */
  function Spaces(s: string, i: nat): (n: nat)
    requires i <= |s|
    ensures i + n <= |s|
    ensures forall k :: i <= k < i + n ==> s[k] == ' '
    ensures i + n < |s| ==> s[i + n] != ' '
    decreases |s| - i
  {
    if i < |s| && s[i] == ' ' then 1 + Spaces(s, i + 1) else 0
  }

  /**
   * The length of the placeholder starting at index i, if one does: two
   * braces, spaces, three dots, spaces, two braces. The spaces are taken
   * greedily, which loses nothing since a space is never a dot or a brace.
   */
  function PlaceholderAt(s: string, i: nat): (r: Option<nat>)
    requires i <= |s|
    ensures r.Some? ==> 7 <= r.value && i + r.value <= |s| && s[i] == '{'
  {
    if !(i + 2 <= |s| && s[i] == '{' && s[i + 1] == '{') then None
    else
      var j := i + 2 + Spaces(s, i + 2);
      if !(j + 3 <= |s| && s[j] == '.' && s[j + 1] == '.' && s[j + 2] == '.') then None
      else
        var k := j + 3 + Spaces(s, j + 3);
        if !(k + 2 <= |s| && s[k] == '}' && s[k + 1] == '}') then None
        else Some(k + 2 - i)
  }

  /** The leftmost placeholder at or after index i: its index and its length. */
  function FirstPlaceholder(s: string, i: nat): (r: Option<(nat, nat)>)
    requires i <= |s|
    ensures r.Some? ==>
      i <= r.value.0 && r.value.0 + r.value.1 <= |s| && 7 <= r.value.1 && PlaceholderAt(s, r.value.0) == Some(r.value.1)
    decreases |s| - i
  {
    if i == |s| then None
    else match PlaceholderAt(s, i)
      case Some(n) => Some((i, n))
      case None => FirstPlaceholder(s, i + 1)
  }

  /** The placeholder found is the leftmost one: none starts earlier, and when none is found there is none at all. */
  lemma {:induction false} FirstPlaceholderLeftmost(s: string, i: nat)
    requires i <= |s|
    ensures FirstPlaceholder(s, i).Some? ==> forall k :: i <= k < FirstPlaceholder(s, i).value.0 ==> PlaceholderAt(s, k).None?
    ensures FirstPlaceholder(s, i).None? ==> forall k :: i <= k <= |s| ==> PlaceholderAt(s, k).None?
    decreases |s| - i
  {
    if i == |s| {
      assert PlaceholderAt(s, i).None?;
    } else if PlaceholderAt(s, i).None? {
      FirstPlaceholderLeftmost(s, i + 1);
    }
  }

  /** The sections between placeholders, in order; one section when there is no placeholder. */
  function Sections(s: string): (r: seq<string>)
    ensures |r| >= 1
    decreases |s|
  {
    var f := FirstPlaceholder(s, 0);
    if f.None? then [s]
    else [s[..f.value.0]] + Sections(s[f.value.0 + f.value.1..])
  }

  /** Text with no brace has no placeholder, so it is one section. */
  lemma SectionsNoBrace(s: string)
    requires '{' !in s
    ensures Sections(s) == [s]
  {
    forall k | 0 <= k < |s|
      ensures PlaceholderAt(s, k).None?
    {
      assert s[k] != '{';
    }
  }

  /** Cutting sections joined by the placeholder gives the sections back, when none holds a brace. */
  lemma {:induction false} SectionsOfJoin(parts: seq<string>)
    requires parts != []
    requires forall i :: 0 <= i < |parts| ==> '{' !in parts[i]
    ensures Sections(JoinWith(parts, Placeholder)) == parts
    decreases |parts|
  {
    if |parts| == 1 {
      SectionsNoBrace(parts[0]);
    } else {
      var rest := JoinWith(parts[1..], Placeholder);
      var s := parts[0] + Placeholder + rest;
      assert JoinWith(parts, Placeholder) == s;
      PlaceholderFirst(parts[0], rest);
      SectionsAfterFirst(s, |parts[0]|, 9);
      ConcatParts(parts[0], Placeholder, rest);
      SectionsOfJoin(parts[1..]);
      var r := Sections(s);
      forall i | 0 <= i < |parts| ensures r[i] == parts[i] {
        if i > 0 {
          assert parts[i] == parts[1..][i - 1];
        }
      }
    }
  }

  /** Once the first placeholder is known, the sections are the text before it and the sections after it. */
  lemma SectionsAfterFirst(s: string, p: nat, n: nat)
    requires FirstPlaceholder(s, 0) == Some((p, n))
    ensures p + n <= |s| && |Sections(s)| == 1 + |Sections(s[p + n..])| && Sections(s)[0] == s[..p]
    ensures forall i :: 1 <= i < |Sections(s)| ==> Sections(s)[i] == Sections(s[p + n..])[i - 1]
  {
    var f := FirstPlaceholder(s, 0);
    assert f.value.0 == p && f.value.1 == n;
    var r := Sections(s);
    var t := Sections(s[p + n..]);
    assert r == [s[..p]] + t;
    forall i | 1 <= i < |r| ensures r[i] == t[i - 1] { }
  }

  lemma ConcatParts(a: string, m: string, b: string)
    ensures (a + m + b)[..|a|] == a && (a + m + b)[|a| + |m|..] == b
  {
  }

  /** In a brace-free text followed by the placeholder, the first placeholder is that one. */
  lemma PlaceholderFirst(a: string, rest: string)
    requires '{' !in a
    ensures FirstPlaceholder(a + Placeholder + rest, 0) == Some((|a|, 9))
  {
    var s := a + Placeholder + rest;
    var p := |a|;
    PlaceholderAtPlaceholder(a, rest);
    forall k | 0 <= k < p
      ensures PlaceholderAt(s, k).None?
    {
      assert s[k] == a[k];
    }
    FirstPlaceholderFrom(s, 0, p, 9);
  }

  lemma PlaceholderAtPlaceholder(a: string, rest: string)
    ensures |a| <= |a + Placeholder + rest| && PlaceholderAt(a + Placeholder + rest, |a|) == Some(9)
  {
    var s := a + Placeholder + rest;
    var p := |a|;
    forall k | 0 <= k < 9 ensures s[p + k] == Placeholder[k] {
      assert s[p + k] == (a + Placeholder)[p + k];
    }
    assert Spaces(s, p + 2) == 1 by {
      assert s[p + 2] == ' ' && s[p + 3] == '.';
    }
    assert Spaces(s, p + 6) == 1 by {
      assert s[p + 6] == ' ' && s[p + 7] == '}';
    }
  }

  lemma {:induction false} FirstPlaceholderFrom(s: string, i: nat, p: nat, n: nat)
    requires i <= p <= |s| && PlaceholderAt(s, p) == Some(n)
    requires forall k :: i <= k < p ==> PlaceholderAt(s, k).None?
    ensures FirstPlaceholder(s, i) == Some((p, n))
    decreases p - i
  {
    if i < p {
      FirstPlaceholderFrom(s, i + 1, p, n);
    }
  }

  // ---- _apply_edits ----

  /**
   * One turn of the loop of `_apply_edits`: a blank section (one that
   * `strip` empties, that is one of whitespace only) is skipped; a
   * section found at or after `pos` moves `pos` past it; one not found is
   * appended after a newline.
   */
  function Step(result: string, pos: nat, section: string): (string, nat) {
    if AllSpace(section) then (result, pos)
    else
      var at := Find(result, section, pos);
      if at == -1 then (result + "\n" + section, pos) else (result, at + |section|)
  }

  /** The loop of `_apply_edits` from a given state on. */
  function Applied(result: string, pos: nat, sections: seq<string>): string
    decreases |sections|
  {
    if sections == [] then result
    else
      var (next, nextPos) := Step(result, pos, sections[0]);
      Applied(next, nextPos, sections[1..])
  }

  /** `_apply_edits(original, code_edit)` */
  function Edited(original: string, codeEdit: string): string {
    var sections := Sections(codeEdit);
    if |sections| == 1 && !Contains(codeEdit, Placeholder) then sections[0]
    else Applied(original, 0, sections)
  }

  /** `_apply_edits`: the whole edit when it has no placeholder, else the loop over its sections. */
  method ApplyEdits(original: string, codeEdit: string) returns (result: string)
    ensures result == Edited(original, codeEdit)
  {
    var sections := Sections(codeEdit);
    if |sections| == 1 && !Contains(codeEdit, Placeholder) {
      return sections[0];
    }
    result := ApplySections(original, sections);
  }

  /** The loop of `_apply_edits`, from the original text and position 0. */
  method ApplySections(original: string, sections: seq<string>) returns (result: string)
    ensures result == Applied(original, 0, sections)
  {
    result := original;
    var pos: nat := 0;
    var i := 0;
    while i < |sections|
      invariant 0 <= i <= |sections|
      invariant Applied(result, pos, sections[i..]) == Applied(original, 0, sections)
    {
      var section := sections[i];
      assert sections[i..][1..] == sections[i + 1..];
      if !AllSpace(section) {
        var at := Find(result, section, pos);
        if at == -1 {
          result := result + "\n" + section;
        } else {
          pos := at + |section|;
        }
      }
      i := i + 1;
    }
  }

  /** An edit with no brace at all is the file's new text. */
  lemma EditedWhole(original: string, codeEdit: string)
    requires '{' !in codeEdit
    ensures Edited(original, codeEdit) == codeEdit
  {
    SectionsNoBrace(codeEdit);
    NoBraceNoPlaceholder(codeEdit);
  }

  lemma {:induction false} NoBraceNoPlaceholder(s: string)
    requires '{' !in s
    ensures !Contains(s, Placeholder)
    decreases |s|
  {
    if s != [] {
      assert s[0] != Placeholder[0];
      NoBraceNoPlaceholder(s[1..]);
    }
  }

  /** The loop only ever appends: the text it starts from is a prefix of what it returns. */
  lemma {:induction false} AppliedExtends(result: string, pos: nat, sections: seq<string>)
    ensures result <= Applied(result, pos, sections)
    decreases |sections|
  {
    if sections != [] {
      var (next, nextPos) := Step(result, pos, sections[0]);
      StepExtends(result, pos, sections[0]);
      AppliedExtends(next, nextPos, sections[1..]);
      PrefixTrans(result, next, Applied(next, nextPos, sections[1..]));
    }
  }

  /** One turn of the loop extends the text, and a non-blank section is in the text after it. */
  lemma StepExtends(result: string, pos: nat, section: string)
    ensures result <= Step(result, pos, section).0
    ensures !AllSpace(section) ==> Contains(Step(result, pos, section).0, section)
  {
    if !AllSpace(section) {
      var at := Find(result, section, pos);
      if at == -1 {
        ContainsMiddle(result + "\n", section, "");
        assert result + "\n" + section + "" == result + "\n" + section;
      } else {
        ContainsAt(result, section, at);
      }
    }
  }

  lemma PrefixTrans(a: string, b: string, c: string)
    requires a <= b && b <= c
    ensures a <= c
  {
    assert c[..|a|] == b[..|a|];
  }

  /** Every non-blank section is in the result: found where it was, or appended. */
  lemma {:induction false} AppliedContainsSections(result: string, pos: nat, sections: seq<string>)
    ensures forall i :: 0 <= i < |sections| && !AllSpace(sections[i]) ==> Contains(Applied(result, pos, sections), sections[i])
    decreases |sections|
  {
    if sections != [] {
      var rest := sections[1..];
      var (next, nextPos) := Step(result, pos, sections[0]);
      StepExtends(result, pos, sections[0]);
      var out := Applied(next, nextPos, rest);
      if !AllSpace(sections[0]) {
        AppliedExtends(next, nextPos, rest);
        ContainsExtends(next, out, sections[0]);
      }
      AppliedContainsSections(next, nextPos, rest);
      forall i | 1 <= i < |sections| && !AllSpace(sections[i])
        ensures Contains(out, sections[i])
      {
        assert sections[i] == rest[i - 1];
      }
    }
  }

  /**
   * With a placeholder in the edit the file is never cut: the old text is a
   * prefix of the new one, and every non-blank section appears in it.
   */
  lemma EditedKeeps(original: string, codeEdit: string)
    requires |Sections(codeEdit)| > 1
    ensures original <= Edited(original, codeEdit)
    ensures forall i :: 0 <= i < |Sections(codeEdit)| && !AllSpace(Sections(codeEdit)[i]) ==>
      Contains(Edited(original, codeEdit), Sections(codeEdit)[i])
  {
    assert Edited(original, codeEdit) == Applied(original, 0, Sections(codeEdit));
    AppliedExtends(original, 0, Sections(codeEdit));
    AppliedContainsSections(original, 0, Sections(codeEdit));
  }

  // ---- execute ----

  /** `s.endswith(suffix)` */
  predicate EndsWith(s: string, suffix: string) {
    |suffix| <= |s| && s[|s| - |suffix|..] == suffix
  }

  function EditedReply(path: string, instruction: Json, language: Json, lintIds: Json): Json {
    JObj([("success", JBool(true)), ("message", JStr("File edited: " + path)), ("file_path", JStr(path)),
          ("instruction", instruction), ("language", language), ("lint_error_ids", lintIds)])
  }

  /** The reply of `execute` and the files on disk after it. */
  datatype Written = Written(reply: Outcome<Json>, files: map<string, string>)

  /**
   * `execute` on the files `files`, as a value: every refusal leaves the
   * files as they were; an edit of an existing file that is not a notebook
   * replaces that file's text with the edited text-mode read, and no other.
   */
  function EditResult(files: map<string, string>, params: Json, parse: Parser): (w: Written)
    ensures w.files.Keys == files.Keys
  {
    match ValidationReply(Schema, params, parse)
    case Raise(e) => Written(Raise(e), files)
    case Ok(Some(reply)) => Written(Ok(reply), files)
    case Ok(None) =>
      if !params.JObj? then Written(Raise(NoAttribute(params, "get")), files)
      else
        var f := params.fields;
        var target := Field(f, "TargetFile", JStr(""));
        var edit := Field(f, "CodeEdit", JStr(""));
        if !target.JStr? then Written(Raise(NotString(target)), files)
        else
          var p := SafePath(target.s);
          if p !in files then Written(Ok(ErrorOnly("File not found: " + p)), files)
          else if EndsWith(p, ".ipynb") then Written(Ok(ErrorOnly("Editing .ipynb files is not supported")), files)
          else if !edit.JStr? then Written(Ok(ErrorOnly("Failed to edit file: " + NotString(edit))), files)
          else
            Written(Ok(EditedReply(p, Field(f, "Instruction", JStr("")), Field(f, "CodeMarkdownLanguage", JStr("")),
                                   Field(f, "TargetLintErrorIds", JArr([])))),
                    files[p := Edited(ReadText(files[p]), edit.s)])
  }

  /** What `execute` answers and writes in each case. */
  lemma EditResultCases(files: map<string, string>, params: Json, parse: Parser)
    ensures var x := EditResult(files, params, parse);
      ValidationReply(Schema, params, parse).Raise? ==>
      x == Written(Raise(ValidationReply(Schema, params, parse).error), files)
    ensures var x := EditResult(files, params, parse);
      ValidationReply(Schema, params, parse).Ok? && ValidationReply(Schema, params, parse).value.Some? ==>
      x == Written(Ok(ValidationReply(Schema, params, parse).value.value), files)
    ensures var x := EditResult(files, params, parse);
      ValidateParams(Schema, params, parse) == Ok(None) && !params.JObj? ==> x.reply.Raise? && x.files == files
    ensures var x := EditResult(files, params, parse);
      ValidateParams(Schema, params, parse) == Ok(None) && params.JObj? ==>
      var f := params.fields;
      var target := Field(f, "TargetFile", JStr(""));
      var edit := Field(f, "CodeEdit", JStr(""));
      && (!target.JStr? ==> x == Written(Raise(NotString(target)), files))
      && (target.JStr? ==>
            var p := SafePath(target.s);
            && (p !in files ==> x == Written(Ok(ErrorOnly("File not found: " + p)), files))
            && (p in files && EndsWith(p, ".ipynb") ==>
                  x == Written(Ok(ErrorOnly("Editing .ipynb files is not supported")), files))
            && (p in files && !EndsWith(p, ".ipynb") && !edit.JStr? ==>
                  x == Written(Ok(ErrorOnly("Failed to edit file: " + NotString(edit))), files))
            && (p in files && !EndsWith(p, ".ipynb") && edit.JStr? ==>
                  && x.files == files[p := Edited(ReadText(files[p]), edit.s)]
                  && x.reply == Ok(EditedReply(p, Field(f, "Instruction", JStr("")), Field(f, "CodeMarkdownLanguage", JStr("")),
                                               Field(f, "TargetLintErrorIds", JArr([]))))))
  {
  }

  /**
   * `execute`. Nothing is written unless the path (after `safe_path`) names
   * a file that is not a notebook and the edit is text; then the file's
   * text becomes the edited text and nothing else on disk changes.
   */
  method Execute(disk: Disk, params: Json, parse: Parser) returns (r: Outcome<Json>)
    modifies disk
    ensures disk.dirs == old(disk.dirs)
    ensures Written(r, disk.files) == EditResult(old(disk.files), params, parse)
    ensures ValidationReply(Schema, params, parse).Raise? ==>
      r == Raise(ValidationReply(Schema, params, parse).error) && unchanged(disk)
    ensures ValidationReply(Schema, params, parse).Ok? && ValidationReply(Schema, params, parse).value.Some? ==>
      r == Ok(ValidationReply(Schema, params, parse).value.value) && unchanged(disk)
    ensures ValidateParams(Schema, params, parse) == Ok(None) && !params.JObj? ==> r.Raise? && unchanged(disk)
    ensures ValidateParams(Schema, params, parse) == Ok(None) && params.JObj? ==>
      var f := params.fields;
      var target := Field(f, "TargetFile", JStr(""));
      var edit := Field(f, "CodeEdit", JStr(""));
      && (!target.JStr? ==> r == Raise(NotString(target)) && unchanged(disk))
      && (target.JStr? ==>
            var p := SafePath(target.s);
            && (p !in old(disk.files) ==> r == Ok(ErrorOnly("File not found: " + p)) && unchanged(disk))
            && (p in old(disk.files) && EndsWith(p, ".ipynb") ==>
                  r == Ok(ErrorOnly("Editing .ipynb files is not supported")) && unchanged(disk))
            && (p in old(disk.files) && !EndsWith(p, ".ipynb") && !edit.JStr? ==>
                  r == Ok(ErrorOnly("Failed to edit file: " + NotString(edit))) && unchanged(disk))
            && (p in old(disk.files) && !EndsWith(p, ".ipynb") && edit.JStr? ==>
                  && disk.files == old(disk.files)[p := Edited(ReadText(old(disk.files)[p]), edit.s)]
                  && r == Ok(EditedReply(p, Field(f, "Instruction", JStr("")), Field(f, "CodeMarkdownLanguage", JStr("")),
                                         Field(f, "TargetLintErrorIds", JArr([]))))))
  {
    var check := ValidationReply(Schema, params, parse);
    if check.Raise? {
      return Raise(check.error);
    }
    if check.value.Some? {
      return Ok(check.value.value);
    }
    if !params.JObj? {
      return Raise(NoAttribute(params, "get"));
    }
    var f := params.fields;
    var target := Field(f, "TargetFile", JStr(""));
    var edit := Field(f, "CodeEdit", JStr(""));
    if !target.JStr? {
      return Raise(NotString(target));
    }
    var p := SafePath(target.s);
    if p !in disk.files {
      return Ok(ErrorOnly("File not found: " + p));
    }
    if EndsWith(p, ".ipynb") {
      return Ok(ErrorOnly("Editing .ipynb files is not supported"));
    }
    if !edit.JStr? {
      return Ok(ErrorOnly("Failed to edit file: " + NotString(edit)));
    }
    var text := ApplyEdits(ReadText(disk.files[p]), edit.s);
    disk.files := disk.files[p := text];
    r := Ok(EditedReply(p, Field(f, "Instruction", JStr("")), Field(f, "CodeMarkdownLanguage", JStr("")),
                        Field(f, "TargetLintErrorIds", JArr([]))));
  }
}
