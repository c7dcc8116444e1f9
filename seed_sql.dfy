/**
 * prisma/seed.ts: how the seed script writes a value into a SQL statement.
 * A string is quoted with `'` and every `'` inside it doubled; null and
 * undefined become the bare keyword NULL.
 */
module SeedSql {
  import opened Text
  import opened Values

  /** `value.replace(/'/g, "''")` */
  function DoubleQuotes(s: string): (r: string)
    ensures |r| >= |s|
  {
    if s == [] then []
    else (if s[0] == '\'' then "''" else [s[0]]) + DoubleQuotes(s[1..])
  }

  /** `escapeSqlString`: `None` stands for null and undefined alike. */
  function EscapeSqlString(value: Option<string>): (r: string)
    ensures value.None? ==> r == "NULL"
    ensures value.Some? ==> |r| >= 2 && r[0] == '\'' && r[|r| - 1] == '\'' && r[1..|r| - 1] == DoubleQuotes(value.value)
  {
    match value
    case None => "NULL"
    case Some(s) => "'" + DoubleQuotes(s) + "'"
  }

  /**
   * Reading a quoted literal's interior back under standard SQL quoting: a
   * doubled quote stands for one quote, and a backslash is an ordinary
   * character (MySQL's default mode reads it as an escape instead).
   */
  function Undouble(t: string): string
    decreases |t|
  {
    if t == [] then []
    else if |t| >= 2 && t[0] == '\'' && t[1] == '\'' then "'" + Undouble(t[2..])
    else [t[0]] + Undouble(t[1..])
  }

  /** The interior holds quotes only in adjacent pairs: under standard SQL quoting, no quote can end the literal early. */
  predicate PairedQuotes(t: string)
    decreases |t|
  {
    if t == [] then true
    else if t[0] == '\'' then |t| >= 2 && t[1] == '\'' && PairedQuotes(t[2..])
    else PairedQuotes(t[1..])
  }

  /** Collapsing doubled quotes undoes the escaping, and the escaped text has no lone quote. */
  lemma {:induction false} UndoubleDoubleQuotes(s: string)
    ensures Undouble(DoubleQuotes(s)) == s
    ensures PairedQuotes(DoubleQuotes(s))
    decreases |s|
  {
    if s != [] {
      UndoubleDoubleQuotes(s[1..]);
      var t := DoubleQuotes(s);
      var rest := DoubleQuotes(s[1..]);
      if s[0] == '\'' {
        assert t == "''" + rest;
        assert t[2..] == rest;
      } else {
        assert t == [s[0]] + rest;
        assert t[1..] == rest;
      }
    }
  }

  /** Distinct strings give distinct literals, and no string gives the keyword NULL. */
  lemma EscapeInjective(a: Option<string>, b: Option<string>)
    ensures EscapeSqlString(a) == EscapeSqlString(b) <==> a == b
  {
    if a.Some? && b.Some? && EscapeSqlString(a) == EscapeSqlString(b) {
      UndoubleDoubleQuotes(a.value);
      UndoubleDoubleQuotes(b.value);
    }
  }

  /** JavaScript's `String(v)` for the decoded values a seed row holds. */
  function JsString(v: Json): string {
    if v == JNull then "null" else ElementString(v)
  }

  /** An array element as `Array.prototype.join` writes it: null becomes empty. */
  function ElementString(v: Json): string {
    match v
    case JNull => ""
    case JBool(b) => if b then "true" else "false"
    case JInt(i) => IntToString(i)
    case JStr(s) => s
    case JArr(items) => JoinWith(seq(|items|, i requires 0 <= i < |items| => ElementString(items[i])), ",")
    case JObj(_) => "[object Object]"
  }

  /**
   * The column types `formatSqlValue` switches on. `Other(name)` stands for
   * a type name that reaches the default branch: `name` is none of the
   * listed names, and none of "number", "float", "decimal" and "date",
   * whose own branches are not part of this model.
   */
  datatype SqlType = StringType | EnumType | BooleanType | Other(name: string)

  /** JavaScript truthiness of a decoded value: null, false, 0 and "" are false. */
  predicate JsTruthy(v: Json) {
    match v
    case JNull => false
    case JBool(b) => b
    case JInt(i) => i != 0
    case JStr(s) => s != ""
    case JArr(_) => true
    case JObj(_) => true
  }

  /** `formatSqlValue`: `None` is undefined; null and undefined give NULL whatever the type. */
  function FormatSqlValue(value: Option<Json>, t: SqlType): (r: string)
    ensures value.None? || value == Some(JNull) ==> r == "NULL"
    ensures value.Some? && value.value != JNull && t.BooleanType? ==> r == (if JsTruthy(value.value) then "1" else "0")
    ensures value.Some? && value.value != JNull && !t.BooleanType? ==> r == EscapeSqlString(Some(JsString(value.value)))
  {
    if value.None? || value.value == JNull then "NULL"
    else match t
      case StringType => EscapeSqlString(Some(JsString(value.value)))
      case EnumType => EscapeSqlString(Some(JsString(value.value)))
      case BooleanType => if JsTruthy(value.value) then "1" else "0"
      case Other(_) => EscapeSqlString(Some(JsString(value.value)))
  }

  /** A string written as a string column is quoted, and undoubling the literal's interior gives the string back. */
  lemma FormatStringRoundTrip(s: string, t: SqlType)
    requires !t.BooleanType?
    ensures var r := FormatSqlValue(Some(JStr(s)), t);
      |r| >= 2 && r[0] == '\'' && r[|r| - 1] == '\'' && Undouble(r[1..|r| - 1]) == s
  {
    UndoubleDoubleQuotes(s);
  }

  /** The text NULL in a string column is quoted, so it never reads as the SQL keyword. */
  lemma NullTextQuoted()
    ensures FormatSqlValue(Some(JStr("NULL")), StringType) == "'NULL'"
    ensures FormatSqlValue(Some(JNull), StringType) == "NULL"
  {
  }
}
