/**
 * tools/browser_preview.py: the browser_preview tool. After the parameter
 * check, the URL must pass `validate_url`; the reply then echoes the URL and
 * the name. No browser is started.
 */
module BrowserPreview {
  import opened Text
  import opened Values
  import opened ToolUtils
  import opened BaseTool
  import opened AgentBase

  /** The tool's schema text, without its descriptions; only its `required` list is read. */
  const Schema :=
    "{\"properties\": {\"Url\": {\"type\": \"string\"}, \"Name\": {\"type\": \"string\"}}, "
    + "\"additionalProperties\": false, \"type\": \"object\", \"required\": [\"Url\", \"Name\"]}"

  const Required := ["Url", "Name"]

  function Info(): ToolInfo {
    ToolInfo("browser_preview", "Spin up a browser preview for a web server.", Schema)
  }

  function PreviewReply(url: string, name: Json): Json {
    JObj([("success", JBool(true)), ("message", JStr("Browser preview created for " + Str(name) + " at " + url)),
          ("preview_url", JStr(url)), ("preview_name", name)])
  }

  /**
   * `execute`: a failed check is the reply; a URL that is not a string makes
   * the regular expression raise; an ill-formed one is refused; otherwise
   * the preview is reported with the URL and name as given.
   */
  function Execute(params: Json, parse: Parser): (r: Outcome<Json>)
    ensures ValidationReply(Schema, params, parse).Raise? ==> r == Raise(ValidationReply(Schema, params, parse).error)
    ensures ValidationReply(Schema, params, parse).Ok? && ValidationReply(Schema, params, parse).value.Some? ==>
      r == Ok(ValidationReply(Schema, params, parse).value.value)
    ensures ValidateParams(Schema, params, parse) == Ok(None) && params.JObj? ==>
      var url := Field(params.fields, "Url", JStr(""));
      var name := Field(params.fields, "Name", JStr(""));
      && (!url.JStr? ==> r == Raise(NotString(url)))
      && (url.JStr? ==>
            && (r == Ok(ErrorOnly("Invalid URL format")) <==> !ValidateUrl(url.s))
            && (ValidateUrl(url.s) ==> r == Ok(PreviewReply(url.s, name))))
  {
    match ValidationReply(Schema, params, parse)
    case Raise(e) => Raise(e)
    case Ok(Some(reply)) => Ok(reply)
    case Ok(None) =>
      if !params.JObj? then Raise(NoAttribute(params, "get"))
      else
        var url := Field(params.fields, "Url", JStr(""));
        var name := Field(params.fields, "Name", JStr(""));
        if !url.JStr? then Raise(NotString(url))
        else if !ValidateUrl(url.s) then Ok(ErrorOnly("Invalid URL format"))
        else Ok(PreviewReply(url.s, name))
  }

  /** A well-formed http or https URL with both fields present is previewed, its name echoed. */
  lemma PreviewAccepted(scheme: string, host: string, name: string, parse: Parser)
    requires scheme == "http://" || scheme == "https://"
    requires |host| >= 2 && NoSpace(host) && host[0] !in "/$.?#"
    requires RequiresExactly(Schema, parse, Required)
    ensures var params := JObj([("Url", JStr(scheme + host)), ("Name", JStr(name))]);
      Execute(params, parse) == Ok(PreviewReply(scheme + host, JStr(name)))
  {
    var fields := [("Url", JStr(scheme + host)), ("Name", JStr(name))];
    assert Keys(fields) == ["Url", "Name"];
    ValidateParamsPasses(Schema, fields, parse, Required);
    ValidateUrlAccepts(scheme, host);
  }
}
