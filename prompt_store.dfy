/**
 * The extension's prompt templates as loaded at start-up: the built-in system prompts
 * always come first, followed by the user's saved templates (any that reuse a system id
 * are dropped); the list is written back to local storage whenever it is non-empty.
 * Templates are JavaScript values, since what storage holds is whatever JSON was saved.
 */
module PromptStore {
  import opened Wrappers
  import opened JsValue
  import opened Collections

  const SystemIds: seq<string> := ["init-protocol", "code-review"]

  /** A template record `{ id, title, content }`. */
  function Template(id: string, title: string, content: string): Value {
    Obj([("id", Str(id)), ("title", Str(title)), ("content", Str(content))])
  }

  /** A template's `id`, `title` and `content` read back what it was made with. */
  lemma TemplateFields(id: string, title: string, content: string)
    ensures var p := Template(id, title, content);
      Get(p, "id") == Str(id) && Get(p, "title") == Str(title) && Get(p, "content") == Str(content)
  {
    var fields := Template(id, title, content).fields;
    LookupLast(fields, 0);
    LookupLast(fields, 1);
    LookupLast(fields, 2);
  }

  /** The system prompts themselves are all dropped by the filter. */
  lemma SystemPromptsDropped(systemMd: string, reviewMd: string)
    ensures UserPrompts(SystemPrompts(systemMd, reviewMd)) == Ok([])
  {
    var system := SystemPrompts(systemMd, reviewMd);
    assert HasSystemId(system[0]) && HasSystemId(system[1]);
    assert system[..1][..0] == [];
    assert UserPrompts(system[..1]) == Ok([]);
  }

  /** SYSTEM_PROMPTS; their contents are the two bundled markdown files. */
  function SystemPrompts(systemMd: string, reviewMd: string): (r: seq<Value>)
    ensures |r| == |SystemIds|
    ensures forall i :: 0 <= i < |r| ==> Get(r[i], "id") == Str(SystemIds[i])
    ensures Get(r[0], "title") == Str("\U{26A1}\U{FE0F} Initialize Sidecar Protocol") && Get(r[0], "content") == Str(systemMd)
    ensures Get(r[1], "title") == Str("Code Review") && Get(r[1], "content") == Str(reviewMd)
  {
    TemplateFields("init-protocol", "\U{26A1}\U{FE0F} Initialize Sidecar Protocol", systemMd);
    TemplateFields("code-review", "Code Review", reviewMd);
    [Template("init-protocol", "\U{26A1}\U{FE0F} Initialize Sidecar Protocol", systemMd),
     Template("code-review", "Code Review", reviewMd)]
  }

  /** `systemIds.has(p.id)`. */
  predicate HasSystemId(p: Value) {
    Get(p, "id").Str? && Get(p, "id").s in SystemIds
  }

  /** `parsed.filter(p => !systemIds.has(p.id))`; reading `id` of a null element throws. */
  function UserPrompts(parsed: seq<Value>): (r: Result<seq<Value>, string>)
    ensures r.Err? <==> exists i :: 0 <= i < |parsed| && (parsed[i].Null? || parsed[i].Undefined?)
    ensures r.Ok? ==> forall p :: p in r.value <==> p in parsed && !HasSystemId(p)
  {
    if parsed == [] then Ok([])
    else
      var last := parsed[|parsed| - 1];
      assert parsed == parsed[..|parsed| - 1] + [last];
      match UserPrompts(parsed[..|parsed| - 1])
      case Err(e) => Err(e)
      case Ok(init) =>
        match ReadProp(last, "id")
        case Err(e) => Err(e)
        case Ok(_) => Ok(if HasSystemId(last) then init else init + [last])
  }

  /** The lazy initializer: the saved string, when present and non-empty, is parsed; an
   *  array contributes its non-system entries after the system prompts; anything that
   *  throws yields the system prompts alone. */
  function InitialPrompts(saved: Option<string>, parseJson: string -> Option<Value>,
                          systemMd: string, reviewMd: string): seq<Value> {
    var system := SystemPrompts(systemMd, reviewMd);
    if saved.None? || saved.value == "" then system
    else match parseJson(saved.value)
      case None => system
      case Some(parsed) =>
        if !parsed.Arr? then system
        else match UserPrompts(parsed.items)
          case Err(_) => system
          case Ok(user) => system + user
  }

  /** The persisting effect: what is written to local storage, if anything. */
  function Persisted(prompts: seq<Value>, stringify: Value -> string): Option<string> {
    if |prompts| > 0 then Some(stringify(Arr(prompts))) else None
  }

  /** Whatever storage holds, the list starts with the system prompts in their order. */
  lemma StartsWithSystem(saved: Option<string>, parseJson: string -> Option<Value>, systemMd: string, reviewMd: string)
    ensures var r := InitialPrompts(saved, parseJson, systemMd, reviewMd);
      |r| >= |SystemIds| && r[..|SystemIds|] == SystemPrompts(systemMd, reviewMd)
  {
  }

  /** Nothing saved, an empty string, text that does not parse, a value that is not an
   *  array, or an array with a null entry: the list is exactly the system prompts. */
  lemma FallsBackToSystem(saved: Option<string>, parseJson: string -> Option<Value>, systemMd: string, reviewMd: string)
    requires || saved.None? || saved.value == ""
             || parseJson(saved.value).None?
             || !parseJson(saved.value).value.Arr?
             || Null in parseJson(saved.value).value.items
    ensures InitialPrompts(saved, parseJson, systemMd, reviewMd) == SystemPrompts(systemMd, reviewMd)
  {
    if saved.Some? && saved.value != "" && parseJson(saved.value).Some? && parseJson(saved.value).value.Arr? {
      var items := parseJson(saved.value).value.items;
      if Null in items {
        var i :| 0 <= i < |items| && items[i] == Null;
      }
    }
  }

  /** A saved array keeps exactly its entries that do not reuse a system id. */
  lemma SavedEntriesKept(saved: string, parseJson: string -> Option<Value>, systemMd: string, reviewMd: string, items: seq<Value>)
    requires saved != "" && parseJson(saved) == Some(Arr(items))
    requires forall i :: 0 <= i < |items| ==> !items[i].Null? && !items[i].Undefined?
    ensures var r := InitialPrompts(Some(saved), parseJson, systemMd, reviewMd);
      forall p :: p in r[|SystemIds|..] <==> p in items && !HasSystemId(p)
  {
    StartsWithSystem(Some(saved), parseJson, systemMd, reviewMd);
    var user := UserPrompts(items).value;
    assert (SystemPrompts(systemMd, reviewMd) + user)[|SystemIds|..] == user;
  }

  /** The filter keeps the saved order: it splits over any cut of the saved array. */
  lemma {:induction false} UserPromptsSplit(a: seq<Value>, b: seq<Value>)
    requires UserPrompts(a + b).Ok?
    ensures UserPrompts(a).Ok? && UserPrompts(b).Ok?
    ensures UserPrompts(a + b).value == UserPrompts(a).value + UserPrompts(b).value
  {
    if b == [] {
      assert a + b == a;
    } else {
      var init := b[..|b| - 1];
      var last := b[|b| - 1];
      assert (a + b)[..|a + b| - 1] == a + init;
      assert (a + b)[|a + b| - 1] == last;
      UserPromptsSplit(a, init);
      var kept := if HasSystemId(last) then [] else [last];
      assert UserPrompts(b).value == UserPrompts(init).value + kept;
      assert UserPrompts(a + b).value == UserPrompts(a).value + UserPrompts(init).value + kept;
      AppendAssoc(UserPrompts(a).value, UserPrompts(init).value, kept);
    }
  }

  /** The filter of two runs that both succeed is the filter of their concatenation. */
  lemma UserPromptsJoin(a: seq<Value>, b: seq<Value>)
    requires UserPrompts(a).Ok? && UserPrompts(b).Ok?
    ensures UserPrompts(a + b) == Ok(UserPrompts(a).value + UserPrompts(b).value)
  {
    forall i | 0 <= i < |a + b| ensures !(a + b)[i].Null? && !(a + b)[i].Undefined? {
      if i >= |a| {
        assert (a + b)[i] == b[i - |a|];
      }
    }
    UserPromptsSplit(a, b);
  }

  /** Entries that are all dropped contribute nothing before the kept ones. */
  lemma DroppedPrefix(dropped: seq<Value>, kept: seq<Value>)
    requires UserPrompts(dropped) == Ok([]) && UserPrompts(kept) == Ok(kept)
    ensures UserPrompts(dropped + kept) == Ok(kept)
  {
    UserPromptsJoin(dropped, kept);
    assert [] + kept == kept;
  }

  /** A saved list without system ids and without nulls is kept whole and in order. */
  lemma {:induction false} UserPromptsKeepAll(items: seq<Value>)
    requires forall i :: 0 <= i < |items| ==> !items[i].Null? && !items[i].Undefined? && !HasSystemId(items[i])
    ensures UserPrompts(items) == Ok(items)
  {
    if items != [] {
      UserPromptsKeepAll(items[..|items| - 1]);
      assert items == items[..|items| - 1] + [items[|items| - 1]];
    }
  }

  /** No loaded entry is null or undefined, so reading an entry's `id` never throws. */
  lemma NoNullEntries(saved: Option<string>, parseJson: string -> Option<Value>, systemMd: string, reviewMd: string)
    ensures forall p :: p in InitialPrompts(saved, parseJson, systemMd, reviewMd) ==> !p.Null? && !p.Undefined?
  {
    var system := SystemPrompts(systemMd, reviewMd);
    assert forall p :: p in system ==> p.Obj?;
  }

  /** The loaded list is never empty, so the effect always persists it. */
  lemma AlwaysPersisted(saved: Option<string>, parseJson: string -> Option<Value>, systemMd: string, reviewMd: string, stringify: Value -> string)
    ensures Persisted(InitialPrompts(saved, parseJson, systemMd, reviewMd), stringify).Some?
  {
    StartsWithSystem(saved, parseJson, systemMd, reviewMd);
  }

  /** Reloading what was persisted gives the list back when the user's templates follow
   *  the system prompts unchanged (given that JSON.parse reads back what JSON.stringify
   *  wrote). */
  lemma ReloadRestores(user: seq<Value>, parseJson: string -> Option<Value>, stringify: Value -> string, systemMd: string, reviewMd: string)
    requires forall i :: 0 <= i < |user| ==> !user[i].Null? && !user[i].Undefined? && !HasSystemId(user[i])
    requires var prompts := SystemPrompts(systemMd, reviewMd) + user;
      stringify(Arr(prompts)) != "" && parseJson(stringify(Arr(prompts))) == Some(Arr(prompts))
    ensures var prompts := SystemPrompts(systemMd, reviewMd) + user;
      InitialPrompts(Persisted(prompts, stringify), parseJson, systemMd, reviewMd) == prompts
  {
    var system := SystemPrompts(systemMd, reviewMd);
    var prompts := system + user;
    UserPromptsKeepAll(user);
    SystemPromptsDropped(systemMd, reviewMd);
    DroppedPrefix(system, user);
    assert Persisted(prompts, stringify) == Some(stringify(Arr(prompts)));
  }

  /** An edited system prompt (same id, other content) is saved but not loaded: after a
   *  reload the bundled version is back. */
  lemma SystemEditLost(edited: Value, parseJson: string -> Option<Value>, stringify: Value -> string, systemMd: string, reviewMd: string)
    requires HasSystemId(edited)
    requires var prompts := [edited] + SystemPrompts(systemMd, reviewMd)[1..];
      stringify(Arr(prompts)) != "" && parseJson(stringify(Arr(prompts))) == Some(Arr(prompts))
    ensures var prompts := [edited] + SystemPrompts(systemMd, reviewMd)[1..];
      InitialPrompts(Persisted(prompts, stringify), parseJson, systemMd, reviewMd) == SystemPrompts(systemMd, reviewMd)
  {
    var system := SystemPrompts(systemMd, reviewMd);
    var prompts := [edited] + system[1..];
    assert prompts[..1] == [edited];
    assert prompts == [edited] + [system[1]];
    assert UserPrompts([edited]) == Ok([]);
  }
}
