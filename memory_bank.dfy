/**
 * tools/memory_bank_agent.py: the MemoryBank agent, a key/value store kept
 * in two dicts with the same keys — `memory_content` (key to content) and
 * `memory_index` (key to its tags and timestamp). Store, update and delete
 * change both in place; retrieve and list read them.
 *
 * Keys are whatever hashable value the message carries (None, a bool, an
 * int or a string); a list or dict key makes the dict operation raise.
 */
module MemoryBank {
  import opened Values
  import opened AgentBase

  const Actions := ["store", "retrieve", "update", "delete", "list"]

  const Description :=
    "You are the MemoryBank agent, responsible for storing and retrieving information "
    + "about the codebase. You act as a context engine that can be queried with natural language. "
    + "Your job is to maintain an index of code snippets, file structures, and other relevant "
    + "information that can be quickly retrieved when needed by other agents."

  function Info(): AgentInfo {
    MakeAgent("MemoryBank", Description, None)
  }

  /** An index entry: `{"tags": ..., "timestamp": ...}`. */
  datatype Meta = Meta(tags: Json, timestamp: Json)

  function MetaJson(m: Meta): Json {
    JObj([("tags", m.tags), ("timestamp", m.timestamp)])
  }

  /** `context.get("timestamp", 0)` */
  function Timestamp(context: seq<(string, Json)>): Json {
    Field(context, "timestamp", JInt(0))
  }

  // ---- the tag and query filters ----

  /** `any(tag in tags_of_entry for tag in tags)`; iterating `tags` or an `in` may raise. */
  function TagHit(tags: Json, entryTags: Json): Outcome<bool> {
    match Iterate(tags)
    case Raise(e) => Raise(e)
    case Ok(items) => AnyIn(items, entryTags)
  }

  /** Tags compare by Python `==`: the tag `[1]` is among an entry's tags `[[True]]`. */
  lemma TagHitNested()
    ensures TagHit(JArr([JArr([JInt(1)])]), JArr([JArr([JBool(true)])])) == Ok(true)
  {
    NestedListMember();
  }

  /**
   * The body of the retrieve loop for one entry: skipped when tags are
   * given and none of them is among the entry's tags, then skipped when a
   * query is given and its lower-case form is not in the lower-cased content.
   */
  function Selects(query: Json, tags: Json, m: Meta, content: Json): Outcome<bool> {
    var tagged := if Truthy(tags) then TagHit(tags, m.tags) else Ok(true);
    match tagged
    case Raise(e) => Raise(e)
    case Ok(false) => Ok(false)
    case Ok(true) =>
      if !Truthy(query) then Ok(true)
      else match LowerOf(query)
        case Raise(e) => Raise(e)
        case Ok(q) =>
          match LowerOf(content)
          case Raise(e) => Raise(e)
          case Ok(c) => Ok(Text.Contains(c, q))
  }

  /** The entry passes `list`'s filter. */
  function Listed(tags: Json, m: Meta): Outcome<bool> {
    TagHit(tags, m.tags)
  }

  predicate Stored(keys: seq<Json>, index: map<Json, Meta>, content: map<Json, Json>) {
    forall k :: k in keys ==> k in index && k in content
  }

  /** The keys retrieve selects, in index order; the first exception in that order ends the scan. */
  function Hits(keys: seq<Json>, index: map<Json, Meta>, content: map<Json, Json>, query: Json, tags: Json): (r: Outcome<seq<Json>>)
    requires Stored(keys, index, content)
    ensures r.Ok? ==> |r.value| <= |keys| && forall k :: k in r.value ==> k in keys
    decreases |keys|
  {
    if keys == [] then Ok([])
    else
      var k := keys[|keys| - 1];
      HitsStep(Hits(keys[..|keys| - 1], index, content, query, tags), k, index, content, query, tags)
  }

  /** The scan so far, extended by one stored key. */
  function HitsStep(sofar: Outcome<seq<Json>>, k: Json, index: map<Json, Meta>, content: map<Json, Json>, query: Json, tags: Json): (r: Outcome<seq<Json>>)
    requires k in index && k in content
    ensures sofar.Raise? ==> r == sofar
    ensures sofar.Ok? && r.Ok? ==> r.value == sofar.value || r.value == sofar.value + [k]
  {
    match sofar
    case Raise(e) => Raise(e)
    case Ok(acc) =>
      match Selects(query, tags, index[k], content[k])
      case Raise(e) => Raise(e)
      case Ok(b) => Ok(if b then acc + [k] else acc)
  }

  /** The keys list selects, in index order. */
  function Tagged(keys: seq<Json>, index: map<Json, Meta>, tags: Json): (r: Outcome<seq<Json>>)
    requires forall k :: k in keys ==> k in index
    ensures r.Ok? ==> |r.value| <= |keys| && forall k :: k in r.value ==> k in keys
    decreases |keys|
  {
    if keys == [] then Ok([])
    else
      var k := keys[|keys| - 1];
      match Tagged(keys[..|keys| - 1], index, tags)
      case Raise(e) => Raise(e)
      case Ok(acc) =>
        match Listed(tags, index[k])
        case Raise(e) => Raise(e)
        case Ok(b) => Ok(if b then acc + [k] else acc)
  }

  /** Retrieve by query or tags returns exactly the stored keys whose entry the filter selects. */
  lemma {:induction false} HitsExactly(keys: seq<Json>, index: map<Json, Meta>, content: map<Json, Json>, query: Json, tags: Json)
    requires Stored(keys, index, content)
    requires Hits(keys, index, content, query, tags).Ok?
    ensures forall k :: k in Hits(keys, index, content, query, tags).value <==>
      k in keys && Selects(query, tags, index[k], content[k]) == Ok(true)
    decreases |keys|
  {
    if keys != [] {
      var front := keys[..|keys| - 1];
      HitsExactly(front, index, content, query, tags);
      assert keys == front + [keys[|keys| - 1]];
    }
  }

  /** List with tags returns exactly the keys whose entry has one of the tags. */
  lemma {:induction false} TaggedExactly(keys: seq<Json>, index: map<Json, Meta>, tags: Json)
    requires forall k :: k in keys ==> k in index
    requires Tagged(keys, index, tags).Ok?
    ensures forall k :: k in Tagged(keys, index, tags).value <==> k in keys && Listed(tags, index[k]) == Ok(true)
    decreases |keys|
  {
    if keys != [] {
      var front := keys[..|keys| - 1];
      TaggedExactly(front, index, tags);
      assert keys == front + [keys[|keys| - 1]];
    }
  }

  /** The retrieve loop over the index, in order: the selected keys, or the first exception. */
  method ScanHits(keys: seq<Json>, index: map<Json, Meta>, content: map<Json, Json>, query: Json, tags: Json)
    returns (hits: Outcome<seq<Json>>)
    requires Stored(keys, index, content)
    ensures hits == Hits(keys, index, content, query, tags)
  {
    var found: seq<Json> := [];
    var i := 0;
    while i < |keys|
      invariant 0 <= i <= |keys|
      invariant Stored(keys[..i], index, content) && Hits(keys[..i], index, content, query, tags) == Ok(found)
    {
      HitsNext(keys, i, index, content, query, tags);
      var next := ScanStep(found, keys[i], index, content, query, tags);
      if next.Raise? {
        HitsRaised(keys, i + 1, index, content, query, tags);
        return next;
      }
      found := next.value;
      i := i + 1;
    }
    assert keys[..i] == keys;
    hits := Ok(found);
  }

  /** One turn of the retrieve loop: the entry's filter, then the key appended when it is selected. */
  method ScanStep(found: seq<Json>, k: Json, index: map<Json, Meta>, content: map<Json, Json>, query: Json, tags: Json)
    returns (next: Outcome<seq<Json>>)
    requires k in index && k in content
    ensures next == HitsStep(Ok(found), k, index, content, query, tags)
  {
    var b := Selects(query, tags, index[k], content[k]);
    HitsStepOf(found, k, index, content, query, tags, b);
    if b.Raise? {
      next := Raise(b.error);
    } else if b.value {
      next := Ok(found + [k]);
    } else {
      next := Ok(found);
    }
  }

  /** The step for a key whose filter gave b: the error, or the key appended when selected. */
  lemma HitsStepOf(found: seq<Json>, k: Json, index: map<Json, Meta>, content: map<Json, Json>, query: Json, tags: Json,
                   b: Outcome<bool>)
    requires k in index && k in content && b == Selects(query, tags, index[k], content[k])
    ensures HitsStep(Ok(found), k, index, content, query, tags) ==
      if b.Raise? then Raise(b.error) else Ok(if b.value then found + [k] else found)
  {
  }

  /** A prefix of stored keys is stored. */
  lemma StoredPrefix(keys: seq<Json>, n: nat, index: map<Json, Meta>, content: map<Json, Json>)
    requires n <= |keys| && Stored(keys, index, content)
    ensures Stored(keys[..n], index, content)
  {
    forall k | k in keys[..n] ensures k in index && k in content {
      var j :| 0 <= j < n && keys[..n][j] == k;
      assert keys[j] == k;
    }
  }

  /** One more key scanned: its selection is added to what the keys before it gave. */
  lemma HitsNext(keys: seq<Json>, i: nat, index: map<Json, Meta>, content: map<Json, Json>, query: Json, tags: Json)
    requires i < |keys| && Stored(keys, index, content)
    ensures Stored(keys[..i], index, content) && Stored(keys[..i + 1], index, content)
    ensures keys[i] in index && keys[i] in content
    ensures Hits(keys[..i + 1], index, content, query, tags) ==
      HitsStep(Hits(keys[..i], index, content, query, tags), keys[i], index, content, query, tags)
  {
    StoredPrefix(keys, i, index, content);
    StoredPrefix(keys, i + 1, index, content);
    assert keys[..i + 1][..i] == keys[..i] && keys[..i + 1][i] == keys[i];
  }

  /** Once the scan has raised, it stays raised with the same error. */
  lemma {:induction false} HitsRaised(keys: seq<Json>, n: nat, index: map<Json, Meta>, content: map<Json, Json>, query: Json, tags: Json)
    requires n <= |keys| && Stored(keys, index, content)
    requires Hits(keys[..n], index, content, query, tags).Raise?
    ensures Hits(keys, index, content, query, tags) == Hits(keys[..n], index, content, query, tags)
    decreases |keys| - n
  {
    if n < |keys| {
      assert keys[..n + 1][..n] == keys[..n];
      HitsRaised(keys, n + 1, index, content, query, tags);
    } else {
      assert keys[..n] == keys;
    }
  }

  lemma {:induction false} TaggedRaised(keys: seq<Json>, n: nat, index: map<Json, Meta>, tags: Json)
    requires n <= |keys| && forall k :: k in keys ==> k in index
    requires Tagged(keys[..n], index, tags).Raise?
    ensures Tagged(keys, index, tags) == Tagged(keys[..n], index, tags)
    decreases |keys| - n
  {
    if n < |keys| {
      assert keys[..n + 1][..n] == keys[..n];
      TaggedRaised(keys, n + 1, index, tags);
    } else {
      assert keys[..n] == keys;
    }
  }

  /** A query matches regardless of case: a stored "Hello World" is found by "WORLD". */
  lemma QueryIgnoresCase(m: Meta)
    ensures Selects(JStr("WORLD"), JArr([]), m, JStr("Hello World")) == Ok(true)
  {
    var c := Text.Lower("Hello World");
    var q := Text.Lower("WORLD");
    assert c[6..11] == q;
    Text.ContainsAt(c, q, 6);
  }

  // ---- replies ----

  /** One retrieve result: the key, its content and its index entry. */
  function Entry(k: Json, index: map<Json, Meta>, content: map<Json, Json>): Json
    requires k in index && k in content
  {
    JObj([("key", k), ("content", content[k]), ("metadata", MetaJson(index[k]))])
  }

  function Entries(ks: seq<Json>, index: map<Json, Meta>, content: map<Json, Json>): (r: seq<Json>)
    requires forall k :: k in ks ==> k in index && k in content
    ensures |r| == |ks| && forall i :: 0 <= i < |ks| ==> r[i] == Entry(ks[i], index, content)
  {
    seq(|ks|, i requires 0 <= i < |ks| => Entry(ks[i], index, content))
  }

  function Counted(what: string, items: seq<Json>): (r: Json)
    ensures IsSuccess(r) && |r.fields| == 3 && r.fields[1] == ("count", JInt(|items|)) && r.fields[2] == (what, JArr(items))
  {
    Success([("count", JInt(|items|)), (what, JArr(items))])
  }

  /** Retrieve by key: the stored content and index entry, or the not-found error. */
  function ByKey(key: Json, index: map<Json, Meta>, content: map<Json, Json>): (r: Outcome<Json>)
    requires key in content ==> key in index
    ensures !Hashable(key) <==> r.Raise?
    ensures Hashable(key) && key in content ==>
      r == Ok(Success([("key", key), ("content", content[key]), ("metadata", MetaJson(index[key]))]))
    ensures Hashable(key) && key !in content ==> r == Ok(ErrorReply("Memory not found with key: " + Str(key)))
  {
    if !Hashable(key) then Raise(Unhashable(key))
    else if key in content then Ok(Success([("key", key), ("content", content[key]), ("metadata", MetaJson(index[key]))]))
    else Ok(ErrorReply("Memory not found with key: " + Str(key)))
  }

  /** What is stored under a key is what retrieve by that key returns. */
  lemma StoreThenRetrieve(index: map<Json, Meta>, content: map<Json, Json>, key: Json, c: Json, m: Meta)
    requires Hashable(key)
    ensures ByKey(key, index[key := m], content[key := c]) ==
      Ok(Success([("key", key), ("content", c), ("metadata", MetaJson(m))]))
  {
  }

  /** After delete, retrieve by that key reports it missing. */
  lemma DeleteThenRetrieve(index: map<Json, Meta>, content: map<Json, Json>, key: Json)
    requires Hashable(key)
    ensures ByKey(key, index - {key}, content - {key}) == Ok(ErrorReply("Memory not found with key: " + Str(key)))
  {
  }

  /** `[x for x in keys if x != key]`; the index order after `del`. */
  function Without(keys: seq<Json>, key: Json): (r: seq<Json>)
    ensures forall k :: k in r <==> k in keys && k != key
    ensures |r| <= |keys|
  {
    if keys == [] then []
    else if keys[0] == key then Without(keys[1..], key)
    else [keys[0]] + Without(keys[1..], key)
  }

  predicate Distinct(keys: seq<Json>) {
    forall i, j :: 0 <= i < j < |keys| ==> keys[i] != keys[j]
  }

  lemma {:induction false} WithoutDistinct(keys: seq<Json>, key: Json)
    requires Distinct(keys)
    ensures Distinct(Without(keys, key))
  {
    if keys != [] {
      assert Distinct(keys[1..]);
      WithoutDistinct(keys[1..], key);
      assert keys[0] !in keys[1..];
    }
  }

  // ---- the agent's state as a value, and what each action does to it ----

  /** The two dicts and their insertion order. */
  datatype Memory = Memory(keys: seq<Json>, index: map<Json, Meta>, content: map<Json, Json>)

  /** A reply together with the memory it leaves behind. */
  datatype Handled = Handled(reply: Outcome<Json>, memory: Memory)

  /** The two dicts hold the same keys, each once, all hashable. */
  ghost predicate Coherent(m: Memory) {
    Distinct(m.keys)
    && (forall k :: k in m.index <==> k in m.keys)
    && (forall k :: k in m.content <==> k in m.keys)
    && (forall k :: k in m.keys ==> Hashable(k))
  }

  function StoreResult(m: Memory, f: seq<(string, Json)>, context: seq<(string, Json)>): Handled {
    var key := Field(f, "key", JStr(""));
    var c := Field(f, "content", JStr(""));
    if !Truthy(key) then Handled(Ok(ErrorReply("Missing key for memory")), m)
    else if !Truthy(c) then Handled(Ok(ErrorReply("Missing content for memory")), m)
    else if !Hashable(key) then Handled(Raise(Unhashable(key)), m)
    else Handled(Ok(Success([("message", JStr("Memory stored with key: " + Str(key))), ("key", key)])),
                 Memory(if key in m.keys then m.keys else m.keys + [key],
                        m.index[key := Meta(Field(f, "tags", JArr([])), Timestamp(context))],
                        m.content[key := c]))
  }

  function RetrieveResult(m: Memory, f: seq<(string, Json)>): Outcome<Json>
    requires Coherent(m)
  {
    var key := Field(f, "key", JStr(""));
    var q := Field(f, "query", JStr(""));
    var t := Field(f, "tags", JArr([]));
    if Truthy(key) then ByKey(key, m.index, m.content)
    else if !Truthy(q) && !Truthy(t) then Ok(ErrorReply("Must provide either key, query, or tags"))
    else match Hits(m.keys, m.index, m.content, q, t)
      case Raise(e) => Raise(e)
      case Ok(ks) => Ok(Counted("results", Entries(ks, m.index, m.content)))
  }

  function UpdateResult(m: Memory, f: seq<(string, Json)>, context: seq<(string, Json)>): Handled
    requires Coherent(m)
  {
    var key := Field(f, "key", JStr(""));
    var c := Field(f, "content", JNull);
    var t := Field(f, "tags", JNull);
    if !Truthy(key) then Handled(Ok(ErrorReply("Missing key for memory update")), m)
    else if !Hashable(key) then Handled(Raise(Unhashable(key)), m)
    else if key !in m.content then Handled(Ok(ErrorReply("Memory not found with key: " + Str(key))), m)
    else Handled(Ok(Success([("message", JStr("Memory updated with key: " + Str(key))), ("key", key)])),
                 Memory(m.keys,
                        m.index[key := Meta(if t != JNull then t else m.index[key].tags, Timestamp(context))],
                        if c != JNull then m.content[key := c] else m.content))
  }

  function DeleteResult(m: Memory, f: seq<(string, Json)>): Handled {
    var key := Field(f, "key", JStr(""));
    if !Truthy(key) then Handled(Ok(ErrorReply("Missing key for memory deletion")), m)
    else if !Hashable(key) then Handled(Raise(Unhashable(key)), m)
    else if key !in m.content then Handled(Ok(ErrorReply("Memory not found with key: " + Str(key))), m)
    else Handled(Ok(Success([("message", JStr("Memory deleted with key: " + Str(key)))])),
                 Memory(Without(m.keys, key), m.index - {key}, m.content - {key}))
  }

  function ListResult(m: Memory, f: seq<(string, Json)>): Outcome<Json>
    requires Coherent(m)
  {
    var t := Field(f, "tags", JArr([]));
    if !Truthy(t) then Ok(Counted("keys", m.keys))
    else match Tagged(m.keys, m.index, t)
      case Raise(e) => Raise(e)
      case Ok(ks) => Ok(Counted("keys", ks))
  }

  /** `process` on a memory: the action's handler, or the unknown-action error, which leaves it as it was. */
  function ProcessResult(m: Memory, message: Json, context: seq<(string, Json)>): Handled
    requires Coherent(m)
  {
    match ActionOf(message)
    case Raise(e) => Handled(Raise(e), m)
    case Ok(action) =>
      var f := message.fields;
      if action == JStr("store") then StoreResult(m, f, context)
      else if action == JStr("retrieve") then Handled(RetrieveResult(m, f), m)
      else if action == JStr("update") then UpdateResult(m, f, context)
      else if action == JStr("delete") then DeleteResult(m, f)
      else if action == JStr("list") then Handled(ListResult(m, f), m)
      else Handled(Ok(UnknownAction(action, Actions)), m)
  }

  /** Every action keeps the memory coherent. */
  lemma ProcessCoherent(m: Memory, message: Json, context: seq<(string, Json)>)
    requires Coherent(m)
    ensures Coherent(ProcessResult(m, message, context).memory)
  {
    var h := ProcessResult(m, message, context);
    if message.JObj? {
      var f := message.fields;
      var action := Field(f, "action", JStr(""));
      if action == JStr("store") {
        StoreCoherent(m, f, context);
        assert h == StoreResult(m, f, context);
      } else if action == JStr("update") {
        UpdateCoherent(m, f, context);
        assert h == UpdateResult(m, f, context);
      } else if action == JStr("delete") {
        DeleteCoherent(m, f);
        assert h == DeleteResult(m, f);
      } else {
        assert h.memory == m;
      }
    }
  }

  /** `process` on a dict hands a store message to `StoreResult` and a delete message to `DeleteResult`. */
  lemma ProcessDispatch(m: Memory, f: seq<(string, Json)>, context: seq<(string, Json)>)
    requires Coherent(m)
    ensures Field(f, "action", JStr("")) == JStr("store") ==> ProcessResult(m, JObj(f), context) == StoreResult(m, f, context)
    ensures Field(f, "action", JStr("")) == JStr("delete") ==> ProcessResult(m, JObj(f), context) == DeleteResult(m, f)
  {
  }

  /** A retrieve message naming a key answers what `ByKey` finds under it. */
  lemma RetrieveByKeyMessage(m: Memory, key: Json, context: seq<(string, Json)>)
    requires Coherent(m) && Truthy(key)
    ensures ProcessResult(m, JObj([("action", JStr("retrieve")), ("key", key)]), context).reply
            == ByKey(key, m.index, m.content)
  {
    var retrieve := JObj([("action", JStr("retrieve")), ("key", key)]);
    LookupAt(retrieve.fields, 0);
    LookupAt(retrieve.fields, 1);
  }

  /** A store message with a key and content and no tags stores the content with empty tags. */
  lemma StoreMessage(m: Memory, key: Json, c: Json, context: seq<(string, Json)>)
    requires Coherent(m) && Truthy(key) && Truthy(c) && Hashable(key)
    ensures var stored := ProcessResult(m, JObj([("action", JStr("store")), ("key", key), ("content", c)]), context);
      && stored.reply.Ok?
      && stored.memory.index == m.index[key := Meta(JArr([]), Timestamp(context))]
      && stored.memory.content == m.content[key := c]
  {
    var store := JObj([("action", JStr("store")), ("key", key), ("content", c)]);
    var f := store.fields;
    LookupAt(f, 0);
    LookupAt(f, 1);
    LookupAt(f, 2);
    assert Keys(f) == ["action", "key", "content"];
    assert Field(f, "action", JStr("")) == JStr("store");
    assert Field(f, "key", JStr("")) == key && Field(f, "content", JStr("")) == c;
    assert Field(f, "tags", JArr([])) == JArr([]);
    ProcessDispatch(m, f, context);
  }

  /** Through `process`: a stored key is retrieved with its content, no tags and the store's timestamp. */
  lemma ProcessStoreThenRetrieve(m: Memory, key: Json, c: Json, context: seq<(string, Json)>)
    requires Coherent(m) && Truthy(key) && Truthy(c) && Hashable(key)
    ensures var stored := ProcessResult(m, JObj([("action", JStr("store")), ("key", key), ("content", c)]), context);
      && stored.reply.Ok? && Coherent(stored.memory)
      && ProcessResult(stored.memory, JObj([("action", JStr("retrieve")), ("key", key)]), context).reply
         == Ok(Success([("key", key), ("content", c), ("metadata", MetaJson(Meta(JArr([]), Timestamp(context))))]))
  {
    var store := JObj([("action", JStr("store")), ("key", key), ("content", c)]);
    StoreMessage(m, key, c, context);
    ProcessCoherent(m, store, context);
    RetrieveByKeyMessage(ProcessResult(m, store, context).memory, key, context);
  }

  /** Through `process`: after a key is deleted, retrieving it reports it missing. */
  lemma ProcessDeleteThenRetrieve(m: Memory, key: Json, context: seq<(string, Json)>)
    requires Coherent(m) && Truthy(key) && Hashable(key)
    ensures var deleted := ProcessResult(m, JObj([("action", JStr("delete")), ("key", key)]), context);
      && Coherent(deleted.memory)
      && ProcessResult(deleted.memory, JObj([("action", JStr("retrieve")), ("key", key)]), context).reply
         == Ok(ErrorReply("Memory not found with key: " + Str(key)))
  {
    var delete := JObj([("action", JStr("delete")), ("key", key)]);
    var deleted := ProcessResult(m, delete, context);
    LookupAt(delete.fields, 0);
    LookupAt(delete.fields, 1);
    ProcessDispatch(m, delete.fields, context);
    ProcessCoherent(m, delete, context);
    RetrieveByKeyMessage(deleted.memory, key, context);
  }

  lemma StoreCoherent(m: Memory, f: seq<(string, Json)>, context: seq<(string, Json)>)
    requires Coherent(m)
    ensures Coherent(StoreResult(m, f, context).memory)
  {
  }

  lemma UpdateCoherent(m: Memory, f: seq<(string, Json)>, context: seq<(string, Json)>)
    requires Coherent(m)
    ensures Coherent(UpdateResult(m, f, context).memory)
  {
  }

  lemma DeleteCoherent(m: Memory, f: seq<(string, Json)>)
    requires Coherent(m)
    ensures Coherent(DeleteResult(m, f).memory)
  {
    var key := Field(f, "key", JStr(""));
    if Truthy(key) && Hashable(key) && key in m.content {
      WithoutDistinct(m.keys, key);
    }
  }

  class MemoryBankAgent {
    /** The keys of both dicts, in insertion order. */
    var keys: seq<Json>
    /** `memory_index` */
    var index: map<Json, Meta>
    /** `memory_content` */
    var content: map<Json, Json>

    /** The two dicts hold the same keys, each once, all hashable. */
    ghost predicate Valid()
      reads this
    {
      Coherent(Memory(keys, index, content))
    }

    function State(): Memory
      reads this
    {
      Memory(keys, index, content)
    }

    /** A fresh agent holds no memories; loading earlier ones from disk is not modelled. */
    constructor ()
      ensures Valid() && keys == [] && index == map[] && content == map[]
    {
      keys := [];
      index := map[];
      content := map[];
    }

    /** `process`: dispatch on the action; an unknown action changes nothing. */
    method Process(message: Json, context: seq<(string, Json)>) returns (r: Outcome<Json>)
      requires Valid()
      modifies this
      ensures Valid()
      ensures !message.JObj? ==> r.Raise? && unchanged(this)
      ensures message.JObj? && (forall a :: a in Actions ==> Field(message.fields, "action", JStr("")) != JStr(a)) ==>
        r == Ok(UnknownAction(Field(message.fields, "action", JStr("")), Actions)) && unchanged(this)
      ensures message.JObj? && Field(message.fields, "action", JStr("")) == JStr("store") ==>
        Handled(r, State()) == StoreResult(old(State()), message.fields, context)
      ensures message.JObj? && Field(message.fields, "action", JStr("")) == JStr("retrieve") ==>
        r == RetrieveResult(old(State()), message.fields) && unchanged(this)
      ensures message.JObj? && Field(message.fields, "action", JStr("")) == JStr("update") ==>
        Handled(r, State()) == UpdateResult(old(State()), message.fields, context)
      ensures message.JObj? && Field(message.fields, "action", JStr("")) == JStr("delete") ==>
        Handled(r, State()) == DeleteResult(old(State()), message.fields)
      ensures message.JObj? && Field(message.fields, "action", JStr("")) == JStr("list") ==>
        r == ListResult(old(State()), message.fields) && unchanged(this)
      ensures Handled(r, State()) == ProcessResult(old(State()), message, context)
    {
      var action := ActionOf(message);
      if action.Raise? {
        return Raise(action.error);
      }
      var f := message.fields;
      if action.value == JStr("store") {
        r := Store(f, context);
      } else if action.value == JStr("retrieve") {
        r := Retrieve(f);
      } else if action.value == JStr("update") {
        r := Update(f, context);
      } else if action.value == JStr("delete") {
        r := Delete(f);
      } else if action.value == JStr("list") {
        r := List(f);
      } else {
        r := Ok(UnknownAction(action.value, Actions));
      }
    }

    /**
     * `_store_memory`: key and content must be truthy; then both dicts are
     * set under the key, replacing any earlier entry, and a new key goes last.
     */
    method Store(f: seq<(string, Json)>, context: seq<(string, Json)>) returns (r: Outcome<Json>)
      requires Valid()
      modifies this
      ensures Valid() && Handled(r, State()) == StoreResult(old(State()), f, context)
      ensures var key := Field(f, "key", JStr("")); var c := Field(f, "content", JStr(""));
        && (!Truthy(key) ==> r == Ok(ErrorReply("Missing key for memory")) && unchanged(this))
        && (Truthy(key) && !Truthy(c) ==> r == Ok(ErrorReply("Missing content for memory")) && unchanged(this))
        && (Truthy(key) && Truthy(c) && !Hashable(key) ==> r == Raise(Unhashable(key)) && unchanged(this))
        && (Truthy(key) && Truthy(c) && Hashable(key) ==>
              && content == old(content)[key := c]
              && index == old(index)[key := Meta(Field(f, "tags", JArr([])), Timestamp(context))]
              && keys == (if key in old(keys) then old(keys) else old(keys) + [key])
              && r == Ok(Success([("message", JStr("Memory stored with key: " + Str(key))), ("key", key)])))
    {
      var key := Field(f, "key", JStr(""));
      var c := Field(f, "content", JStr(""));
      var tags := Field(f, "tags", JArr([]));
      if !Truthy(key) {
        return Ok(ErrorReply("Missing key for memory"));
      }
      if !Truthy(c) {
        return Ok(ErrorReply("Missing content for memory"));
      }
      if !Hashable(key) {
        return Raise(Unhashable(key));
      }
      if key !in keys {
        keys := keys + [key];
      }
      content := content[key := c];
      index := index[key := Meta(tags, Timestamp(context))];
      r := Ok(Success([("message", JStr("Memory stored with key: " + Str(key))), ("key", key)]));
    }

    /**
     * `_update_memory`: the key must be truthy and stored. Content and tags
     * change only when given (not None); the timestamp is always refreshed;
     * no other key and no key order changes.
     */
    method Update(f: seq<(string, Json)>, context: seq<(string, Json)>) returns (r: Outcome<Json>)
      requires Valid()
      modifies this
      ensures Valid() && keys == old(keys) && Handled(r, State()) == UpdateResult(old(State()), f, context)
      ensures var key := Field(f, "key", JStr("")); var c := Field(f, "content", JNull); var t := Field(f, "tags", JNull);
        && (!Truthy(key) ==> r == Ok(ErrorReply("Missing key for memory update")) && unchanged(this))
        && (Truthy(key) && !Hashable(key) ==> r == Raise(Unhashable(key)) && unchanged(this))
        && (Truthy(key) && Hashable(key) && key !in old(content) ==>
              r == Ok(ErrorReply("Memory not found with key: " + Str(key))) && unchanged(this))
        && (Truthy(key) && Hashable(key) && key in old(content) ==>
              && content == (if c != JNull then old(content)[key := c] else old(content))
              && index == old(index)[key := Meta(if t != JNull then t else old(index)[key].tags, Timestamp(context))]
              && r == Ok(Success([("message", JStr("Memory updated with key: " + Str(key))), ("key", key)])))
    {
      var key := Field(f, "key", JStr(""));
      var c := Field(f, "content", JNull);
      var t := Field(f, "tags", JNull);
      if !Truthy(key) {
        return Ok(ErrorReply("Missing key for memory update"));
      }
      if !Hashable(key) {
        return Raise(Unhashable(key));
      }
      if key !in content {
        return Ok(ErrorReply("Memory not found with key: " + Str(key)));
      }
      if c != JNull {
        content := content[key := c];
      }
      var entry := index[key];
      if t != JNull {
        entry := entry.(tags := t);
      }
      index := index[key := entry.(timestamp := Timestamp(context))];
      r := Ok(Success([("message", JStr("Memory updated with key: " + Str(key))), ("key", key)]));
    }

    /** `_delete_memory`: the key must be truthy and stored; it leaves both dicts and the order. */
    method Delete(f: seq<(string, Json)>) returns (r: Outcome<Json>)
      requires Valid()
      modifies this
      ensures Valid() && Handled(r, State()) == DeleteResult(old(State()), f)
      ensures var key := Field(f, "key", JStr(""));
        && (!Truthy(key) ==> r == Ok(ErrorReply("Missing key for memory deletion")) && unchanged(this))
        && (Truthy(key) && !Hashable(key) ==> r == Raise(Unhashable(key)) && unchanged(this))
        && (Truthy(key) && Hashable(key) && key !in old(content) ==>
              r == Ok(ErrorReply("Memory not found with key: " + Str(key))) && unchanged(this))
        && (Truthy(key) && Hashable(key) && key in old(content) ==>
              && content == old(content) - {key} && index == old(index) - {key}
              && keys == Without(old(keys), key)
              && r == Ok(Success([("message", JStr("Memory deleted with key: " + Str(key)))])))
    {
      var key := Field(f, "key", JStr(""));
      if !Truthy(key) {
        return Ok(ErrorReply("Missing key for memory deletion"));
      }
      if !Hashable(key) {
        return Raise(Unhashable(key));
      }
      if key !in content {
        return Ok(ErrorReply("Memory not found with key: " + Str(key)));
      }
      WithoutDistinct(keys, key);
      content := content - {key};
      index := index - {key};
      keys := Without(keys, key);
      r := Ok(Success([("message", JStr("Memory deleted with key: " + Str(key)))]));
    }

    /**
     * `_retrieve_memory`: by key when a key is given (query and tags are then
     * ignored); else by query and tags, scanning the index in order; else an error.
     */
    method Retrieve(f: seq<(string, Json)>) returns (r: Outcome<Json>)
      requires Valid()
      ensures r == RetrieveResult(State(), f)
      ensures var key := Field(f, "key", JStr("")); var q := Field(f, "query", JStr("")); var t := Field(f, "tags", JArr([]));
        && (Truthy(key) ==> r == ByKey(key, index, content))
        && (!Truthy(key) && !Truthy(q) && !Truthy(t) ==> r == Ok(ErrorReply("Must provide either key, query, or tags")))
        && (!Truthy(key) && (Truthy(q) || Truthy(t)) ==>
              match Hits(keys, index, content, q, t)
              case Raise(e) => r == Raise(e)
              case Ok(ks) => r == Ok(Counted("results", Entries(ks, index, content))))
    {
      var key := Field(f, "key", JStr(""));
      var q := Field(f, "query", JStr(""));
      var t := Field(f, "tags", JArr([]));
      if Truthy(key) {
        return ByKey(key, index, content);
      }
      if !Truthy(q) && !Truthy(t) {
        return Ok(ErrorReply("Must provide either key, query, or tags"));
      }
      var hits := Search(q, t);
      match hits
      case Raise(e) => r := Raise(e);
      case Ok(ks) => r := Ok(Counted("results", Entries(ks, index, content)));
    }

    /** The retrieve loop: the entries the filter selects, in order, or the first exception. */
    method Search(q: Json, t: Json) returns (hits: Outcome<seq<Json>>)
      requires Valid()
      ensures Stored(keys, index, content)
      ensures hits == Hits(keys, index, content, q, t)
    {
      hits := ScanHits(keys, index, content, q, t);
    }

    /** `_list_memory`: every key in order, or, when tags are given, those with one of the tags. */
    method List(f: seq<(string, Json)>) returns (r: Outcome<Json>)
      requires Valid()
      ensures r == ListResult(State(), f)
      ensures var t := Field(f, "tags", JArr([]));
        && (!Truthy(t) ==> r == Ok(Counted("keys", keys)))
        && (Truthy(t) ==>
              match Tagged(keys, index, t)
              case Raise(e) => r == Raise(e)
              case Ok(ks) => r == Ok(Counted("keys", ks)))
    {
      var t := Field(f, "tags", JArr([]));
      if !Truthy(t) {
        return Ok(Counted("keys", keys));
      }
      var found: seq<Json> := [];
      var i := 0;
      while i < |keys|
        invariant 0 <= i <= |keys|
        invariant Tagged(keys[..i], index, t) == Ok(found)
      {
        var k := keys[i];
        assert keys[..i + 1][..i] == keys[..i] && keys[..i + 1][i] == k;
        var b := Listed(t, index[k]);
        if b.Raise? {
          TaggedRaised(keys, i + 1, index, t);
          return Raise(b.error);
        }
        if b.value {
          found := found + [k];
        }
        i := i + 1;
      }
      assert keys[..i] == keys;
      r := Ok(Counted("keys", found));
    }
  }
}
