/**
 * The helpers of tools/utils.py: the inline tool-call scanner, the reply
 * wrapper, the URL check and the path sanitiser. The three regular
 * expressions are written out as scanners over the string.
 */
module ToolUtils {
  import opened Text
  import opened Values

  /** A JSON decoder: `Some(v)` when the text decodes, `None` for a decoding error. */
  type Parser = string -> Option<Json>

  /** A JSON encoder (`json.dumps`). */
  type Dumper = Json -> string

  datatype ToolCall = ToolCall(name: string, parameters: Json)

  // ---- the tag scanner ----

  predicate IsIdentStart(c: char) {
    ('a' <= c <= 'z') || ('A' <= c <= 'Z') || c == '_'
  }

  predicate IsIdentChar(c: char) {
    IsIdentStart(c) || ('0' <= c <= '9')
  }

  /** `[a-zA-Z_][a-zA-Z0-9_]*` matches the whole string. */
  predicate IsIdentifier(s: string) {
    s != [] && IsIdentStart(s[0]) && forall i :: 0 <= i < |s| ==> IsIdentChar(s[i])
  }

  /** Length of the longest run of identifier characters starting at i. */
  function IdentLen(s: string, i: nat): (n: nat)
    requires i <= |s|
    ensures i + n <= |s|
    ensures forall k :: i <= k < i + n ==> IsIdentChar(s[k])
    ensures i + n == |s| || !IsIdentChar(s[i + n])
    decreases |s| - i
  {
    if i < |s| && IsIdentChar(s[i]) then 1 + IdentLen(s, i + 1) else 0
  }

  /** One match of `<(name)>\s*(.*?)\s*</name>`: where it starts and ends, and the segment between the tags. */
  datatype Tag = Tag(start: nat, name: string, bodyStart: nat, closeAt: nat, end: nat)

  function CloseTag(name: string): string {
    "</" + name + ">"
  }

  /**
   * The match of the tag pattern that starts at i, if any. The name is the
   * whole identifier after `<` (a shorter one could not be followed by `>`),
   * and the closing tag is its first occurrence after the opening tag: no
   * earlier one can sit inside the whitespace the pattern skips.
   */
  function TagAt(s: string, i: nat): (r: Option<Tag>)
    ensures r.Some? ==> var t := r.value;
      && t.start == i && IsIdentifier(t.name)
      && i + |t.name| + 2 == t.bodyStart <= t.closeAt
      && t.end == t.closeAt + |t.name| + 3 <= |s|
  {
    if i + 1 < |s| && s[i] == '<' && IsIdentStart(s[i + 1]) then
      var e := i + 1 + IdentLen(s, i + 1);
      if e < |s| && s[e] == '>' then
        var name := s[i + 1..e];
        var p := Find(s, CloseTag(name), e + 1);
        if p == -1 then None
        else Some(Tag(i, name, e + 1, p, p + |CloseTag(name)|))
      else None
    else None
  }

  /** A match found at i is delimited by `<name>` in front and `</name>` behind. */
  lemma TagAtDelimits(s: string, i: nat)
    requires TagAt(s, i).Some?
    ensures var t := TagAt(s, i).value;
      && s[i..t.bodyStart] == "<" + t.name + ">"
      && s[t.closeAt..t.end] == CloseTag(t.name)
  {
    var e := i + 1 + IdentLen(s, i + 1);
    assert s[i..e + 1] == "<" + s[i + 1..e] + ">";
  }

  /** `re.finditer` over the tag pattern from position i: leftmost matches, each search resuming where the last match ended. */
  function Matches(s: string, i: nat): (r: seq<Tag>)
    ensures forall k :: 0 <= k < |r| ==> i <= r[k].start && IsIdentifier(r[k].name) && Matched(s, r[k])
    ensures forall a, b :: 0 <= a < b < |r| ==> r[a].end <= r[b].start
    decreases |s| - i
  {
    if i >= |s| then []
    else match TagAt(s, i)
      case None => Matches(s, i + 1)
      case Some(t) =>
        var rest := Matches(s, t.end);
        MatchesCons(s, t, rest);
        [t] + rest
  }

  /** A match followed by the matches found from its end keeps the facts `Matches` promises. */
  lemma MatchesCons(s: string, t: Tag, rest: seq<Tag>)
    requires t.start <= t.end && IsIdentifier(t.name) && Matched(s, t)
    requires forall k :: 0 <= k < |rest| ==> t.end <= rest[k].start && IsIdentifier(rest[k].name) && Matched(s, rest[k])
    requires forall a, b :: 0 <= a < b < |rest| ==> rest[a].end <= rest[b].start
    ensures var r := [t] + rest;
      && (forall k :: 0 <= k < |r| ==> t.start <= r[k].start && IsIdentifier(r[k].name) && Matched(s, r[k]))
      && (forall a, b :: 0 <= a < b < |r| ==> r[a].end <= r[b].start)
  {
    var r := [t] + rest;
    forall k | 1 <= k < |r| ensures r[k] == rest[k - 1] { }
  }

  /** Every element of `Matches(s, i)` is the match the pattern finds at its own start. */
  lemma {:induction false} MatchesFound(s: string, i: nat, k: nat)
    requires k < |Matches(s, i)|
    ensures TagAt(s, Matches(s, i)[k].start) == Some(Matches(s, i)[k])
    decreases |s| - i
  {
    match TagAt(s, i)
    case None => MatchesFound(s, i + 1, k);
    case Some(t) =>
      if k > 0 {
        MatchesFound(s, t.end, k - 1);
      }
  }

  /** Group 2 of a match: the segment between the tags without surrounding whitespace. */
  function Body(s: string, t: Tag): string
    requires t.bodyStart <= t.closeAt <= |s|
  {
    Strip(s[t.bodyStart..t.closeAt])
  }

  predicate Matched(s: string, t: Tag) {
    t.bodyStart <= t.closeAt <= |s|
  }

  /** The call a match yields, or nothing when its body is not JSON. */
  function CallOf(s: string, t: Tag, parse: Parser): (r: seq<ToolCall>)
    requires Matched(s, t)
    ensures |r| <= 1 && forall j :: 0 <= j < |r| ==> r[j].name == t.name
  {
    match parse(Body(s, t))
    case Some(params) => [ToolCall(t.name, params)]
    case None => []
  }

  /** The calls of the matches ms, in order: each match whose body decodes gives one. */
  function CallsOf(s: string, ms: seq<Tag>, parse: Parser): (r: seq<ToolCall>)
    requires forall k :: 0 <= k < |ms| ==> Matched(s, ms[k])
    ensures |r| <= |ms|
  {
    if ms == [] then []
    else CallsOf(s, ms[..|ms| - 1], parse) + CallOf(s, ms[|ms| - 1], parse)
  }

  /** Every call found carries the tag name of one of the matches. */
  lemma {:induction false} CallsOfNames(s: string, ms: seq<Tag>, parse: Parser)
    requires forall k :: 0 <= k < |ms| ==> Matched(s, ms[k])
    ensures forall j :: 0 <= j < |CallsOf(s, ms, parse)| ==>
      exists k :: 0 <= k < |ms| && CallsOf(s, ms, parse)[j].name == ms[k].name
  {
    if ms != [] {
      var init := ms[..|ms| - 1];
      var front, back := CallsOf(s, init, parse), CallOf(s, ms[|ms| - 1], parse);
      CallsOfNames(s, init, parse);
      forall j | 0 <= j < |CallsOf(s, ms, parse)|
        ensures exists k :: 0 <= k < |ms| && CallsOf(s, ms, parse)[j].name == ms[k].name
      {
        var r := CallsOf(s, ms, parse);
        assert r == front + back;
        var k;
        if j < |front| {
          k :| 0 <= k < |init| && front[j].name == init[k].name;
          assert r[j] == front[j] && ms[k] == init[k];
        } else {
          k := |ms| - 1;
          assert r[j] == back[j - |front|];
        }
        assert 0 <= k < |ms| && r[j].name == ms[k].name;
      }
    } else {
      assert |CallsOf(s, ms, parse)| == 0;
    }
  }

  lemma CallsOfSnoc(s: string, ms: seq<Tag>, k: nat, parse: Parser)
    requires k < |ms| && forall j :: 0 <= j < |ms| ==> Matched(s, ms[j])
    ensures CallsOf(s, ms[..k + 1], parse) == CallsOf(s, ms[..k], parse) + CallOf(s, ms[k], parse)
  {
    assert ms[..k + 1][..k] == ms[..k];
  }

  /** What `extract_tool_calls(text)` returns. */
  function ToolCalls(text: string, parse: Parser): seq<ToolCall> {
    var ms := Matches(text, 0);
    CallsOf(text, ms, parse)
  }

  /** `extract_tool_calls`: walks the matches in order and keeps those whose body decodes. */
  method ExtractToolCalls(text: string, parse: Parser) returns (calls: seq<ToolCall>)
    ensures calls == ToolCalls(text, parse)
  {
    var matches := Matches(text, 0);
    calls := [];
    var k := 0;
    while k < |matches|
      invariant 0 <= k <= |matches|
      invariant calls == CallsOf(text, matches[..k], parse)
    {
      var m := matches[k];
      var params := parse(Body(text, m));
      if params.Some? {
        calls := calls + [ToolCall(m.name, params.value)];
      }
      CallsOfSnoc(text, matches, k, parse);
      k := k + 1;
    }
    assert matches[..k] == matches;
  }

  /** Every extracted call is named by an identifier, and there are no more calls than tag pairs. */
  lemma ToolCallsShape(text: string, parse: Parser)
    ensures |ToolCalls(text, parse)| <= |Matches(text, 0)|
    ensures forall c :: c in ToolCalls(text, parse) ==> IsIdentifier(c.name)
  {
    var ms := Matches(text, 0);
    var r := ToolCalls(text, parse);
    CallsOfNames(text, ms, parse);
    forall c | c in r ensures IsIdentifier(c.name) {
      var j :| 0 <= j < |r| && r[j] == c;
      var k :| 0 <= k < |ms| && r[j].name == ms[k].name;
    }
  }

  /** With no `<` in s[lo..hi] and t starting with `<`, the first occurrence of t at or after lo is at hi when t occurs there. */
  lemma FindAt(s: string, t: string, lo: nat, hi: nat)
    requires lo <= hi && OccursAt(s, t, hi) && t != [] && t[0] == '<'
    requires forall k :: lo <= k < hi ==> s[k] != '<'
    ensures Find(s, t, lo) == hi
  {
    forall k | lo <= k < hi && k + |t| <= |s| ensures !OccursAt(s, t, k) {
      assert s[k..k + |t|][0] == s[k];
    }
  }

  lemma IdentLenExact(s: string, i: nat, n: nat)
    requires i + n <= |s|
    requires forall k :: i <= k < i + n ==> IsIdentChar(s[k])
    requires i + n == |s| || !IsIdentChar(s[i + n])
    ensures IdentLen(s, i) == n
  {
  }

  lemma TagAtStart(s: string, name: string, p: int)
    requires |name| + 1 < |s| && s[0] == '<' && IsIdentStart(s[1])
    requires IdentLen(s, 1) == |name| && s[|name| + 1] == '>' && s[1..|name| + 1] == name
    requires p != -1 && Find(s, CloseTag(name), |name| + 2) == p
    ensures TagAt(s, 0) == Some(Tag(0, name, |name| + 2, p, p + |name| + 3))
  {
  }

  lemma MatchesSingle(s: string, t: Tag)
    requires TagAt(s, 0) == Some(t) && t.end == |s|
    ensures Matches(s, 0) == [t]
  {
    assert Matches(s, 0) == [t] + Matches(s, |s|);
    assert [t] + [] == [t];
  }

  /** s is `<name>`, then a segment without `<` up to p, then `</name>`. */
  predicate Framed(s: string, name: string, p: nat) {
    && |name| + 2 <= p && p + |name| + 3 == |s|
    && s[..|name| + 2] == "<" + name + ">"
    && (forall k :: |name| + 2 <= k < p ==> s[k] != '<')
    && s[p..] == CloseTag(name)
  }

  /** What the scanner sees in `<name>segment</name>`: the opening tag, a segment without `<`, then the closing tag. */
  lemma WrappedScan(s: string, name: string, segment: string)
    requires '<' !in segment
    requires s == "<" + name + ">" + segment + CloseTag(name)
    ensures Framed(s, name, |name| + 2 + |segment|)
  {
    var e := |name| + 2;
    forall k | e <= k < e + |segment| ensures s[k] != '<' {
      assert s[k] == segment[k - e];
    }
  }

  /** A text that opens with `<name>` and whose first `</name>` ends the text is one match. */
  lemma MatchesOfOne(s: string, name: string, p: nat)
    requires IsIdentifier(name) && Framed(s, name, p)
    ensures Matches(s, 0) == [Tag(0, name, |name| + 2, p, |s|)]
  {
    TagOfOne(s, name, p);
    MatchesSingle(s, Tag(0, name, |name| + 2, p, |s|));
  }

  lemma TagOfOne(s: string, name: string, p: nat)
    requires IsIdentifier(name) && Framed(s, name, p)
    ensures TagAt(s, 0) == Some(Tag(0, name, |name| + 2, p, |s|))
  {
    OpenTag(s, name, p);
    TagAtStart(s, name, p);
  }

  lemma OpenTag(s: string, name: string, p: nat)
    requires IsIdentifier(name) && Framed(s, name, p)
    ensures |name| + 1 < |s| && s[0] == '<' && IsIdentStart(s[1])
    ensures IdentLen(s, 1) == |name| && s[|name| + 1] == '>' && s[1..|name| + 1] == name
    ensures Find(s, CloseTag(name), |name| + 2) == p
  {
    var e := |name| + 1;
    assert s[0] == s[..e + 1][0] == '<';
    assert s[e] == s[..e + 1][e] == '>';
    assert s[1..e] == s[..e + 1][1..e] == name;
    forall k | 1 <= k < e ensures IsIdentChar(s[k]) {
      assert s[k] == s[1..e][k - 1];
    }
    IdentLenExact(s, 1, |name|);
    assert s[p..p + |CloseTag(name)|] == CloseTag(name);
    FindAt(s, CloseTag(name), e + 1, p);
  }

  /** A lone `<name>segment</name>` with no `<` inside is one match covering the text. */
  lemma MatchesWrapped(s: string, name: string, segment: string)
    requires IsIdentifier(name) && '<' !in segment
    requires s == "<" + name + ">" + segment + CloseTag(name)
    ensures Matches(s, 0) == [Tag(0, name, |name| + 2, |name| + 2 + |segment|, |s|)]
  {
    WrappedScan(s, name, segment);
    MatchesOfOne(s, name, |name| + 2 + |segment|);
  }

  /** The calls of a text that is exactly one match. */
  lemma ToolCallsOfOne(s: string, t: Tag, parse: Parser)
    requires Matches(s, 0) == [t] && Matched(s, t)
    ensures ToolCalls(s, parse) == CallOf(s, t, parse)
  {
    assert [t][..0] == [];
  }

  /** The body of the one match of a wrapped text is the wrapped text, when it has no whitespace at either end. */
  lemma WrappedBody(name: string, body: string)
    requires body == [] || (!IsSpace(body[0]) && !IsSpace(body[|body| - 1]))
    ensures var s := "<" + name + ">" + body + CloseTag(name);
      Body(s, Tag(0, name, |name| + 2, |name| + 2 + |body|, |s|)) == body
  {
    var s := "<" + name + ">" + body + CloseTag(name);
    assert s[|name| + 2..|name| + 2 + |body|] == body;
    StripUnpadded(body);
  }

  /** Wrapping a JSON text in `<name>…</name>` and scanning it gives back the one call. */
  lemma ExtractWrapped(name: string, body: string, parse: Parser)
    requires IsIdentifier(name) && '<' !in body
    requires body == [] || (!IsSpace(body[0]) && !IsSpace(body[|body| - 1]))
    requires parse(body).Some?
    ensures ToolCalls("<" + name + ">" + body + CloseTag(name), parse) == [ToolCall(name, parse(body).value)]
  {
    var s := "<" + name + ">" + body + CloseTag(name);
    MatchesWrapped(s, name, body);
    var t := Tag(0, name, |name| + 2, |name| + 2 + |body|, |s|);
    WrappedBody(name, body);
    ToolCallsOfOne(s, t, parse);
  }

  // ---- replies ----

  /** `format_tool_response`: the JSON text of the response between `<name_response>` tags, each on its own line. */
  function FormatToolResponse(name: string, response: Json, dumps: Dumper): (r: string)
    ensures r == "<" + name + "_response>" + ("\n" + dumps(response) + "\n") + CloseTag(name + "_response")
  {
    "<" + name + "_response>\n" + dumps(response) + "\n</" + name + "_response>"
  }

  /**
   * A formatted reply scans back as one call named `name_response` carrying
   * the response, when the encoder's text decodes to what it encoded and has
   * no `<` and no surrounding whitespace.
   */
  lemma FormatThenExtract(name: string, response: Json, dumps: Dumper, parse: Parser)
    requires IsIdentifier(name)
    requires var d := dumps(response);
      '<' !in d && (d == [] || (!IsSpace(d[0]) && !IsSpace(d[|d| - 1]))) && parse(d) == Some(response)
    ensures ToolCalls(FormatToolResponse(name, response, dumps), parse) == [ToolCall(name + "_response", response)]
  {
    var d := dumps(response);
    var n := name + "_response";
    assert IsIdentifier(n) by {
      assert forall i :: |name| <= i < |n| ==> n[i] == "_response"[i - |name|];
    }
    var segment := "\n" + d + "\n";
    assert '<' !in segment;
    var s := FormatToolResponse(name, response, dumps);
    assert s == "<" + n + ">" + segment + CloseTag(n);
    MatchesWrapped(s, n, segment);
    var t := Tag(0, n, |n| + 2, |n| + 2 + |segment|, |s|);
    assert s[t.bodyStart..t.closeAt] == segment;
    StripPadded("\n", d, "\n");
    assert Body(s, t) == d;
    ToolCallsOfOne(s, t, parse);
  }

  // ---- validate_url ----

  /** `re.match(r'^https?://[^\s/$.?#].[^\s]*$', url)` succeeds. */
  predicate ValidateUrl(url: string) {
    var rest := if "https://" <= url then url[8..] else if "http://" <= url then url[7..] else [];
    ("http://" <= url || "https://" <= url)
    && |rest| >= 2
    && !IsSpace(rest[0]) && rest[0] !in "/$.?#"
    && rest[1] != '\n'
    && (NoSpace(rest[2..]) || (rest[|rest| - 1] == '\n' && NoSpace(rest[2..|rest| - 1])))
  }

  /** A URL passes only with an http or https scheme followed by a non-whitespace character. */
  lemma ValidateUrlNeedsScheme(url: string)
    ensures ValidateUrl(url) ==> "http://" <= url || "https://" <= url
    ensures ValidateUrl(url) && "https://" <= url ==> |url| > 8 && !IsSpace(url[8])
    ensures ValidateUrl(url) && !("https://" <= url) ==> |url| > 7 && !IsSpace(url[7])
  {
  }

  /** Any scheme followed by a host of two or more non-whitespace characters, not starting with `/$.?#`, passes. */
  lemma ValidateUrlAccepts(scheme: string, host: string)
    requires scheme == "http://" || scheme == "https://"
    requires |host| >= 2 && NoSpace(host) && host[0] !in "/$.?#"
    ensures ValidateUrl(scheme + host)
  {
    var url := scheme + host;
    if scheme == "http://" {
      assert !("https://" <= url) by { assert url[4] == ':'; }
      assert url[7..] == host;
    } else {
      assert url[8..] == host;
    }
    assert host[2..] == host[2..];
  }

  /** A space right after the scheme is always rejected. */
  lemma ValidateUrlRejectsSpace(scheme: string, rest: string)
    requires scheme == "http://" || scheme == "https://"
    ensures !ValidateUrl(scheme + " " + rest)
  {
    var url := scheme + " " + rest;
    if scheme == "http://" {
      assert !("https://" <= url) by { assert url[4] == ':'; }
      assert url[7] == ' ';
    } else {
      assert url[8] == ' ';
    }
  }

  // ---- safe_path ----

  /** `re.sub(r'\.\./', '', path)`: one left-to-right pass deleting non-overlapping `../`. */
  function SafePath(path: string): (r: string)
    ensures |r| <= |path|
    decreases |path|
  {
    if |path| >= 3 && path[..3] == "../" then SafePath(path[3..])
    else if path == [] then []
    else [path[0]] + SafePath(path[1..])
  }

  /** The pass changes the path exactly when `../` occurs in it. */
  lemma {:induction false} SafePathUnchanged(path: string)
    ensures SafePath(path) == path <==> !Contains(path, "../")
    decreases |path|
  {
    if path == [] {
    } else if |path| >= 3 && path[..3] == "../" {
      assert "../" <= path;
      assert |SafePath(path)| < |path|;
    } else {
      SafePathUnchanged(path[1..]);
      assert !("../" <= path);
      assert path == [path[0]] + path[1..];
    }
  }

  /** A path whose only dots are those of `....//` comes out as `../`: one pass does not remove every traversal. */
  lemma SafePathNotIdempotent()
    ensures SafePath("....//") == "../"
    ensures SafePath(SafePath("....//")) == ""
  {
    assert SafePath("") == "";
    assert SafePath("/") == "/";
    assert "..//"[..3] == "../" && "..//"[3..] == "/";
    assert SafePath("..//") == "/";
    assert "...//"[2] == '.' && "...//"[1..] == "..//";
    assert SafePath("...//") == "./";
    assert "....//"[2] == '.' && "....//"[1..] == "...//";
    assert SafePath("....//") == "../";
    assert "../"[..3] == "../" && "../"[3..] == "";
  }
}
