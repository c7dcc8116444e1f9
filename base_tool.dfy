/**
 * tools/base_tool.py: what every tool shares — its name, description and
 * JSON-schema text, the dictionary form of those three, and the simplified
 * parameter check that only looks for the schema's required names.
 */
module BaseTool {
  import opened Values
  import opened ToolUtils

  /** The three fields a tool is constructed with. */
  datatype ToolInfo = ToolInfo(name: string, description: string, schema: string)

  /** `to_dict`: name, description and schema, unchanged. */
  function ToDict(t: ToolInfo): (r: Json)
    ensures r.JObj? && Keys(r.fields) == ["name", "description", "schema"]
    ensures Lookup(r.fields, "name") == Some(JStr(t.name))
    ensures Lookup(r.fields, "description") == Some(JStr(t.description))
    ensures Lookup(r.fields, "schema") == Some(JStr(t.schema))
  {
    JObj([("name", JStr(t.name)), ("description", JStr(t.description)), ("schema", JStr(t.schema))])
  }

  function MissingMessage(param: Json): string {
    "Missing required parameter: " + Str(param)
  }

  /**
   * The loop over the required names: the first one that is not `in` the
   * parameters gives the message; an `in` that raises propagates.
   */
  function FirstMissing(names: seq<Json>, params: Json): (r: Outcome<Option<string>>)
    ensures r.Ok? && r.value.Some? ==> exists i :: 0 <= i < |names| && r.value.value == MissingMessage(names[i])
  {
    if names == [] then Ok(None)
    else match In(names[0], params)
      case Raise(e) => Raise(e)
      case Ok(true) =>
        var r := FirstMissing(names[1..], params);
        assert forall i :: 0 <= i < |names| - 1 ==> names[1..][i] == names[i + 1];
        r
      case Ok(false) => Ok(Some(MissingMessage(names[0])))
  }

  /**
   * `validate_params`: None when every required name is present, the
   * message for the first absent one otherwise, "Invalid schema format"
   * when the schema text does not decode. A decoded schema that is not a
   * dict, or a `required` that is not iterable, raises.
   */
  function ValidateParams(schema: string, params: Json, parse: Parser): Outcome<Option<string>> {
    match parse(schema)
    case None => Ok(Some("Invalid schema format"))
    case Some(obj) =>
      match Get(obj, "required", JArr([]))
      case Raise(e) => Raise(e)
      case Ok(required) =>
        match Iterate(required)
        case Raise(e) => Raise(e)
        case Ok(names) => FirstMissing(names, params)
  }

  /**
   * The opening of every tool's `execute`: a message from `validate_params`
   * is returned as `{"error": message}`; no message lets the call proceed.
   */
  function ValidationReply(schema: string, params: Json, parse: Parser): (r: Outcome<Option<Json>>)
    ensures r == Ok(None) <==> ValidateParams(schema, params, parse) == Ok(None)
    ensures r.Raise? <==> ValidateParams(schema, params, parse).Raise?
    ensures var v := ValidateParams(schema, params, parse);
      v.Ok? && v.value.Some? ==> r == Ok(Some(ErrorOnly(v.value.value)))
  {
    match ValidateParams(schema, params, parse)
    case Raise(e) => Raise(e)
    case Ok(None) => Ok(None)
    case Ok(Some(m)) => Ok(Some(ErrorOnly(m)))
  }

  /** A schema whose `required` list is `required`. */
  predicate RequiresExactly(schema: string, parse: Parser, required: seq<string>) {
    parse(schema).Some? && parse(schema).value.JObj?
    && Lookup(parse(schema).value.fields, "required") == Some(Strings(required))
  }

  /** With string names and dict parameters, no message comes back exactly when every name is a key. */
  lemma {:induction false} FirstMissingNone(names: seq<string>, fields: seq<(string, Json)>)
    ensures FirstMissing(StrItems(names), JObj(fields)) == Ok(None) <==> forall i :: 0 <= i < |names| ==> names[i] in Keys(fields)
    ensures FirstMissing(StrItems(names), JObj(fields)).Ok?
  {
    if names != [] {
      assert StrItems(names)[1..] == StrItems(names[1..]);
      FirstMissingNone(names[1..], fields);
      if names[0] in Keys(fields) {
        assert forall i :: 1 <= i < |names| ==> names[i] == names[1..][i - 1];
      }
    }
  }

  /** One step of the loop over string names and a dict: a present name moves on, an absent one is reported. */
  lemma FirstMissingStep(names: seq<string>, fields: seq<(string, Json)>)
    requires names != []
    ensures names[0] in Keys(fields) ==>
      FirstMissing(StrItems(names), JObj(fields)) == FirstMissing(StrItems(names[1..]), JObj(fields))
    ensures names[0] !in Keys(fields) ==>
      FirstMissing(StrItems(names), JObj(fields)) == Ok(Some(MissingMessage(JStr(names[0]))))
  {
    var items := StrItems(names);
    assert items[0] == JStr(names[0]);
    assert In(items[0], JObj(fields)) == Ok(names[0] in Keys(fields));
    assert items[1..] == StrItems(names[1..]);
  }

  /** The message names the first absent name: every earlier one is present. */
  lemma {:induction false} FirstMissingFirst(names: seq<string>, fields: seq<(string, Json)>) returns (i: nat)
    requires FirstMissing(StrItems(names), JObj(fields)).Ok? && FirstMissing(StrItems(names), JObj(fields)).value.Some?
    ensures i < |names| && names[i] !in Keys(fields)
    ensures FirstMissing(StrItems(names), JObj(fields)) == Ok(Some("Missing required parameter: " + names[i]))
    ensures forall j :: 0 <= j < i ==> names[j] in Keys(fields)
  {
    assert names != [];
    FirstMissingStep(names, fields);
    if names[0] in Keys(fields) {
      var k := FirstMissingFirst(names[1..], fields);
      i := k + 1;
      forall j | 1 <= j < i ensures names[j] in Keys(fields) {
        assert names[j] == names[1..][j - 1];
      }
    } else {
      i := 0;
    }
  }

  /** For a schema that decodes to a dict with a `required` list, the check is the loop over that list. */
  lemma ValidateParamsRequired(schema: string, params: Json, parse: Parser, required: seq<string>)
    requires RequiresExactly(schema, parse, required)
    ensures ValidateParams(schema, params, parse) == FirstMissing(StrItems(required), params)
  {
  }

  /** A parameter dict passes exactly when it has every required name as a key, whatever the values and extra keys. */
  lemma ValidateParamsPasses(schema: string, fields: seq<(string, Json)>, parse: Parser, required: seq<string>)
    requires RequiresExactly(schema, parse, required)
    ensures ValidateParams(schema, JObj(fields), parse) == Ok(None)
        <==> forall i :: 0 <= i < |required| ==> required[i] in Keys(fields)
    ensures ValidateParams(schema, JObj(fields), parse).Ok?
  {
    FirstMissingNone(required, fields);
  }

  /** An undecodable schema gives the schema-format message, whatever the parameters. */
  lemma ValidateParamsBadSchema(schema: string, params: Json, parse: Parser)
    requires parse(schema).None?
    ensures ValidateParams(schema, params, parse) == Ok(Some("Invalid schema format"))
  {
  }
}
