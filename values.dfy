/**
 * The dynamic values the tools and agents pass around: decoded JSON, which
 * in Python becomes None, bool, int, str, list or an insertion-ordered dict,
 * together with the handful of Python operations the source applies to them
 * (`.get`, `in`, iteration, `.lower()`, truthiness, `str()`, `{**d}`), each
 * with the exception Python raises when the value has the wrong type.
 */
module Values {
  import opened Text

  datatype Option<+T> = None | Some(value: T)

  /** A Python exception surfaces as `Raise(str(e))`. */
  datatype Outcome<+T> = Ok(value: T) | Raise(error: string)

  /** A JSON value as Python holds it; an object keeps its keys in insertion order. */
  datatype Json =
    | JNull
    | JBool(b: bool)
    | JInt(i: int)
    | JStr(s: string)
    | JArr(items: seq<Json>)
    | JObj(fields: seq<(string, Json)>)

  /** `type(v).__name__` */
  function TypeName(v: Json): string {
    match v
    case JNull => "NoneType"
    case JBool(_) => "bool"
    case JInt(_) => "int"
    case JStr(_) => "str"
    case JArr(_) => "list"
    case JObj(_) => "dict"
  }

  /** Python truthiness: None, False, 0, "", [] and {} are false. */
  predicate Truthy(v: Json) {
    match v
    case JNull => false
    case JBool(b) => b
    case JInt(i) => i != 0
    case JStr(s) => s != ""
    case JArr(items) => items != []
    case JObj(fields) => fields != []
  }

  /**
   * Python `==` on two values. True and False equal 1 and 0; lists are equal
   * when they have the same length and equal items in order; dicts are equal
   * when they have the same size and every key of the first is found in the
   * second with an equal value, whatever the order of the keys.
   */
  predicate PyEq(a: Json, b: Json)
    decreases a
  {
    match a
    case JArr(xs) => b.JArr? && |xs| == |b.items| && forall i :: 0 <= i < |xs| ==> PyEq(xs[i], b.items[i])
    case JObj(fs) =>
      && b.JObj? && |fs| == |b.fields|
      && forall i :: 0 <= i < |fs| ==>
           Lookup(b.fields, fs[i].0).Some? && PyEq(fs[i].1, Lookup(b.fields, fs[i].0).value)
    case _ => NumberOf(a) == NumberOf(b) && (NumberOf(a).Some? || a == b)
  }

  /** A value Python can hold: no dict in it repeats a key. */
  predicate PyValue(v: Json)
    decreases v
  {
    match v
    case JArr(xs) => forall i :: 0 <= i < |xs| ==> PyValue(xs[i])
    case JObj(fs) => DistinctKeys(fs) && forall i :: 0 <= i < |fs| ==> PyValue(fs[i].1)
    case _ => true
  }

  /** Every value Python can hold equals itself. */
  lemma {:induction false} PyEqRefl(v: Json)
    requires PyValue(v)
    ensures PyEq(v, v)
    decreases v
  {
    match v
    case JArr(xs) =>
      forall i | 0 <= i < |xs| ensures PyEq(xs[i], xs[i]) {
        PyEqRefl(xs[i]);
      }
    case JObj(fs) =>
      forall i | 0 <= i < |fs| ensures Lookup(fs, fs[i].0) == Some(fs[i].1) && PyEq(fs[i].1, fs[i].1) {
        LookupAt(fs, i);
        PyEqRefl(fs[i].1);
      }
    case _ =>
  }

  /** `[1] in [[True]]`: lists compare item by item, and 1 equals True. */
  lemma NestedListMember()
    ensures In(JArr([JInt(1)]), JArr([JArr([JBool(true)])])) == Ok(true)
  {
    var x, c := JArr([JInt(1)]), JArr([JArr([JBool(true)])]);
    assert PyEq(x.items[0], JBool(true));
    assert PyEq(JBool(true), x.items[0]);
    assert PyEq(c.items[0], x);
  }

  /** `{"a": 1, "b": 2} == {"b": 2, "a": 1}`: dict equality ignores key order. */
  lemma DictOrderIgnored()
    ensures PyEq(JObj([("a", JInt(1)), ("b", JInt(2))]), JObj([("b", JInt(2)), ("a", JInt(1))]))
  {
  }

  function NumberOf(v: Json): Option<int> {
    match v
    case JBool(b) => Some(if b then 1 else 0)
    case JInt(i) => Some(i)
    case _ => None
  }

  // ---- dicts ----

  function Keys(fields: seq<(string, Json)>): (r: seq<string>)
    ensures |r| == |fields|
    ensures forall i :: 0 <= i < |fields| ==> r[i] == fields[i].0
  {
    seq(|fields|, i requires 0 <= i < |fields| => fields[i].0)
  }

  /** `d.get(k)` on a dict: the value stored under the key, if any. */
  function Lookup(fields: seq<(string, Json)>, k: string): (r: Option<Json>)
    ensures r.None? <==> k !in Keys(fields)
    ensures r.Some? ==> exists i :: 0 <= i < |fields| && fields[i] == (k, r.value)
  {
    if fields == [] then None
    else if fields[0].0 == k then Some(fields[0].1)
    else Lookup(fields[1..], k)
  }

  /** `d[k] = v`: an existing key keeps its place, a new key goes last. */
  function Put(fields: seq<(string, Json)>, k: string, v: Json): (r: seq<(string, Json)>)
    ensures |r| > 0
    ensures fields != [] ==> r[0].0 == fields[0].0
  {
    if fields == [] then [(k, v)]
    else if fields[0].0 == k then [(k, v)] + fields[1..]
    else [fields[0]] + Put(fields[1..], k, v)
  }

  /** A Python dict never holds a key twice. */
  predicate DistinctKeys(fields: seq<(string, Json)>) {
    forall i, k :: 0 <= i < k < |fields| ==> fields[i].0 != fields[k].0
  }

  lemma KeysCons(fields: seq<(string, Json)>)
    requires fields != []
    ensures Keys(fields) == [fields[0].0] + Keys(fields[1..])
  {
  }

  /** The entry at position i is found under its key when no earlier entry has that key. */
  lemma {:induction false} LookupAt(fields: seq<(string, Json)>, i: nat)
    requires i < |fields| && forall j :: 0 <= j < i ==> fields[j].0 != fields[i].0
    ensures Lookup(fields, fields[i].0) == Some(fields[i].1)
  {
    if i > 0 {
      assert fields[1..][i - 1] == fields[i];
      LookupAt(fields[1..], i - 1);
    }
  }

  /** After `d[k] = v`, k maps to v and every other key keeps its value. */
  lemma {:induction false} LookupPut(fields: seq<(string, Json)>, k: string, v: Json, j: string)
    ensures Lookup(Put(fields, k, v), j) == if j == k then Some(v) else Lookup(fields, j)
  {
    if fields != [] && fields[0].0 != k {
      LookupPut(fields[1..], k, v, j);
      assert ([fields[0]] + Put(fields[1..], k, v))[1..] == Put(fields[1..], k, v);
    } else if fields != [] {
      assert ([(k, v)] + fields[1..])[1..] == fields[1..];
    }
  }

  /** `d[k] = v` keeps the key order and appends a new key. */
  lemma {:induction false} KeysPut(fields: seq<(string, Json)>, k: string, v: Json)
    ensures Keys(Put(fields, k, v)) == if k in Keys(fields) then Keys(fields) else Keys(fields) + [k]
  {
    if fields != [] {
      KeysCons(fields);
      KeysCons(Put(fields, k, v));
      if fields[0].0 != k {
        KeysPut(fields[1..], k, v);
        assert Put(fields, k, v)[1..] == Put(fields[1..], k, v);
      } else {
        assert Put(fields, k, v)[1..] == fields[1..];
      }
    }
  }

  /** `d.get(k, default)` on any value: a dict answers, anything else has no `get`. */
  function Get(v: Json, k: string, default: Json): (r: Outcome<Json>)
    ensures r.Raise? <==> !v.JObj?
    ensures v.JObj? && k !in Keys(v.fields) ==> r == Ok(default)
  {
    match v
    case JObj(fields) =>
      (match Lookup(fields, k) case Some(x) => Ok(x) case None => Ok(default))
    case _ => Raise(NoAttribute(v, "get"))
  }

  function NoAttribute(v: Json, attr: string): string {
    "'" + TypeName(v) + "' object has no attribute '" + attr + "'"
  }

  /** The TypeError of a `re` function handed something other than a string. */
  function NotString(v: Json): string {
    "expected string or bytes-like object, got '" + TypeName(v) + "'"
  }

  /** `{key: first, **p}` */
  function Spread(key: string, first: Json, p: Json): (r: Outcome<Json>)
    ensures r.Raise? <==> !p.JObj?
    ensures r.Ok? ==> r.value.JObj? && |r.value.fields| > 0 && r.value.fields[0].0 == key
  {
    match p
    case JObj(fields) => Ok(JObj(PutAll([(key, first)], fields)))
    case _ => Raise("'" + TypeName(p) + "' object is not a mapping")
  }

  /** The entries of `more` assigned one by one into `acc`. */
  function PutAll(acc: seq<(string, Json)>, more: seq<(string, Json)>): (r: seq<(string, Json)>)
    ensures |acc| > 0 ==> |r| > 0 && r[0].0 == acc[0].0
    decreases |more|
  {
    if more == [] then acc else PutAll(Put(acc, more[0].0, more[0].1), more[1..])
  }

  /** In `{**acc, **more}` a key of `more` takes its value from `more`, any other key from `acc`. */
  lemma {:induction false} LookupPutAll(acc: seq<(string, Json)>, more: seq<(string, Json)>, j: string)
    requires DistinctKeys(more)
    ensures Lookup(PutAll(acc, more), j) == if j in Keys(more) then Lookup(more, j) else Lookup(acc, j)
    decreases |more|
  {
    if more != [] {
      KeysCons(more);
      LookupPutAll(Put(acc, more[0].0, more[0].1), more[1..], j);
      LookupPut(acc, more[0].0, more[0].1, j);
      if j == more[0].0 {
        assert j !in Keys(more[1..]);
      }
    }
  }

  /** `{key: first, **p}` maps `key` to p's own value when p has one, and every other key as p does. */
  lemma SpreadLookup(key: string, first: Json, p: Json, j: string)
    requires p.JObj? && DistinctKeys(p.fields)
    ensures Spread(key, first, p).Ok?
    ensures Lookup(Spread(key, first, p).value.fields, j)
         == if j in Keys(p.fields) then Lookup(p.fields, j) else if j == key then Some(first) else None
  {
    LookupPutAll([(key, first)], p.fields, j);
  }

  // ---- containment and iteration ----

  /** A value that can be a dict key or a set member. */
  predicate Hashable(k: Json) {
    !k.JArr? && !k.JObj?
  }

  function Unhashable(k: Json): string {
    "unhashable type: '" + TypeName(k) + "'"
  }

  /** `x in d` for a dict `d` whose keys are `keys`: a list or dict raises before the lookup. */
  function InKeys(x: Json, keys: seq<string>): (r: Outcome<bool>)
    ensures r.Raise? <==> !Hashable(x)
    ensures r == Ok(true) <==> x.JStr? && x.s in keys
  {
    if !Hashable(x) then Raise(Unhashable(x)) else Ok(x.JStr? && x.s in keys)
  }

  /** Python `x in c`. */
  function In(x: Json, c: Json): (r: Outcome<bool>)
    ensures c.JArr? ==> r == Ok(exists i :: 0 <= i < |c.items| && PyEq(c.items[i], x))
    ensures c.JStr? && x.JStr? ==> r == Ok(Contains(c.s, x.s))
    ensures c.JObj? && x.JStr? ==> r == Ok(x.s in Keys(c.fields))
    ensures (c.JNull? || c.JBool? || c.JInt?) ==> r.Raise?
  {
    match c
    case JStr(s) =>
      if x.JStr? then Ok(Contains(s, x.s))
      else Raise("'in <string>' requires string as left operand, not " + TypeName(x))
    case JArr(items) => Ok(exists i :: 0 <= i < |items| && PyEq(items[i], x))
    case JObj(fields) =>
      InKeys(x, Keys(fields))
    case _ => Raise("argument of type '" + TypeName(c) + "' is not iterable")
  }

  /** `for x in v`: a str yields its characters, a list its items, a dict its keys. */
  function Iterate(v: Json): (r: Outcome<seq<Json>>)
    ensures v.JArr? ==> r == Ok(v.items)
    ensures r.Ok? ==> (v.JStr? && |r.value| == |v.s|) || v.JArr? || (v.JObj? && |r.value| == |v.fields|)
  {
    match v
    case JStr(s) => Ok(seq(|s|, i requires 0 <= i < |s| => JStr([s[i]])))
    case JArr(items) => Ok(items)
    case JObj(fields) => Ok(seq(|fields|, i requires 0 <= i < |fields| => JStr(fields[i].0)))
    case _ => Raise("'" + TypeName(v) + "' object is not iterable")
  }

  /** `any(x in c for x in xs)`, evaluated left to right and stopping at the first hit. */
  function AnyIn(xs: seq<Json>, c: Json): (r: Outcome<bool>)
    ensures r == Ok(true) ==> exists i :: 0 <= i < |xs| && In(xs[i], c) == Ok(true)
    ensures r == Ok(false) ==> forall i :: 0 <= i < |xs| ==> In(xs[i], c) == Ok(false)
  {
    if xs == [] then Ok(false)
    else match In(xs[0], c)
      case Raise(e) => Raise(e)
      case Ok(true) => Ok(true)
      case Ok(false) =>
        var r := AnyIn(xs[1..], c);
        assert forall i :: 1 <= i < |xs| ==> xs[i] == xs[1..][i - 1];
        r
  }

  /** `v.lower()` */
  function LowerOf(v: Json): (r: Outcome<string>)
    ensures v.JStr? ==> r == Ok(Lower(v.s))
    ensures !v.JStr? ==> r.Raise?
  {
    if v.JStr? then Ok(Lower(v.s)) else Raise(NoAttribute(v, "lower"))
  }

  // ---- str() ----

  /** Python `str(v)`, as used by f-strings. */
  function Str(v: Json): string {
    match v
    case JStr(s) => s
    case _ => Repr(v)
  }

  /** Python `repr(v)`; strings are quoted with `'` and not escaped. */
  function Repr(v: Json): string {
    match v
    case JNull => "None"
    case JBool(b) => if b then "True" else "False"
    case JInt(i) => IntToString(i)
    case JStr(s) => "'" + s + "'"
    case JArr(items) =>
      "[" + JoinWith(seq(|items|, i requires 0 <= i < |items| => Repr(items[i])), ", ") + "]"
    case JObj(fields) =>
      "{" + JoinWith(seq(|fields|, i requires 0 <= i < |fields| => "'" + fields[i].0 + "': " + Repr(fields[i].1)), ", ") + "}"
  }

  /** `sep.join(parts)` */
  function JoinWith(parts: seq<string>, sep: string): string {
    if parts == [] then ""
    else if |parts| == 1 then parts[0]
    else parts[0] + sep + JoinWith(parts[1..], sep)
  }

  // ---- replies ----

  function Str1(k: string, v: string): Json {
    JObj([(k, JStr(v))])
  }

  /** `{"status": "error", "message": m}` */
  function ErrorReply(m: string): (r: Json)
    ensures r.JObj? && Lookup(r.fields, "status") == Some(JStr("error"))
  {
    JObj([("status", JStr("error")), ("message", JStr(m))])
  }

  /** `{"status": "error", "message": m, extraKey: extra}` */
  function ErrorReplyWith(m: string, extraKey: string, extra: Json): (r: Json)
    requires extraKey != "status"
    ensures r.JObj? && Lookup(r.fields, "status") == Some(JStr("error"))
  {
    JObj([("status", JStr("error")), ("message", JStr(m)), (extraKey, extra)])
  }

  /** `{"error": m}` */
  function ErrorOnly(m: string): (r: Json)
    ensures r.JObj? && Keys(r.fields) == ["error"]
  {
    JObj([("error", JStr(m))])
  }

  /** Each string as a JSON string. */
  function StrItems(xs: seq<string>): (r: seq<Json>)
    ensures |r| == |xs|
    ensures forall i :: 0 <= i < |xs| ==> r[i] == JStr(xs[i])
  {
    seq(|xs|, i requires 0 <= i < |xs| => JStr(xs[i]))
  }

  /** A list of strings. */
  function Strings(xs: seq<string>): Json {
    JArr(StrItems(xs))
  }

  /** Stand-in for the hard-coded sample data some handlers return. */
  function Canned(what: string): Json {
    JStr("<" + what + ">")
  }
}
