/**
 * The extension's static configuration: the table that maps a file extension to the
 * tag of a fenced code block. (The built-in prompt templates it also holds are
 * modelled with the prompt store.)
 */
module LanguageConfig {
  import opened Wrappers
  import opened JsText

  /** The extension table's own entries: lower-case extension to fence tag; "" for a
   *  key the table does not list. */
  function Table(key: string): string {
    match key
    case "ts" => "typescript"
    case "tsx" => "typescript"
    case "js" => "javascript"
    case "jsx" => "javascript"
    case "json" => "json"
    case "html" => "html"
    case "css" => "css"
    case "md" => "markdown"
    case "py" => "python"
    case "go" => "go"
    case "rs" => "rust"
    case "java" => "java"
    case "c" => "c"
    case "cpp" => "cpp"
    case "sh" => "bash"
    case "yaml" => "yaml"
    case "yml" => "yaml"
    case _ => ""
  }

  /** The tags the table holds. */
  const Tags: set<string> := {
    "typescript", "javascript", "json", "html", "css", "markdown", "python", "go",
    "rust", "java", "c", "cpp", "bash", "yaml"
  }

  /** `path.split(".").pop()?.toLowerCase()`: the last dot-separated piece, lower-cased. */
  function ExtensionKey(path: string): string {
    var pieces := Split(path, '.');
    ToLower(pieces[|pieces| - 1])
  }

  /** The tag as written: the table is an object literal, so a key naming an inherited
   *  property of Object.prototype reads that property, and the formatter concatenates
   *  it into the fence. Only two of those names are entirely lower case. */
  function LanguageFromPathAsWritten(path: string): string {
    if path == "" then ""
    else
      var key := ExtensionKey(path);
      if Table(key) != "" then Table(key)
      else if key == "constructor" then "function Object() { [native code] }"
      else if key == "__proto__" then "[object Object]"
      else ""
  }

  /** getLanguageFromPath with the lookup restricted to the table's own entries. */
  function LanguageFromPath(path: string): string {
    if path == "" then ""
    else
      var key := ExtensionKey(path);
      Table(key)
  }

  /** The as-written lookup turns any file with extension `constructor` into a fence
   *  tagged with the source text of the Object constructor, where the table's own
   *  entries give "". */
  lemma InheritedKeyLeaks(stem: string)
    ensures LanguageFromPathAsWritten(stem + ".constructor") == "function Object() { [native code] }"
    ensures LanguageFromPath(stem + ".constructor") == ""
  {
    var p := stem + ".constructor";
    assert p == stem + "." + "constructor";
    KeyOfSuffix(stem, "constructor");
    LowerConstructor();
    assert ExtensionKey(p) == "constructor";
    InheritedNamesNotInTable();
  }

  /** The two lower-case names of Object.prototype are not entries of the table. */
  lemma InheritedNamesNotInTable()
    ensures Table("constructor") == "" && Table("__proto__") == ""
  {
  }

  lemma LowerConstructor()
    ensures ToLower("constructor") == "constructor"
  {
    ToLowerNoUpper("constructor");
  }

  /** The result is always one of the table's tags, or "" (and "" for an empty path). */
  lemma LanguageIsTableValue(path: string)
    ensures path == "" ==> LanguageFromPath(path) == ""
    ensures LanguageFromPath(path) == "" || LanguageFromPath(path) in Tags
    ensures path != "" ==> LanguageFromPath(path) == Table(ExtensionKey(path))
  {
  }

  /** LastIndexOf is determined by its characterisation. */
  lemma LastIndexOfIs(s: string, c: char, r: int)
    requires -1 <= r < |s|
    requires r >= 0 ==> s[r] == c
    requires forall i :: r < i < |s| ==> s[i] != c
    ensures LastIndexOf(s, c) == r
  {
  }

  /** After a separator at k, the last separator is k or lies in the rest. */
  lemma LastIndexAfter(s: string, c: char, k: nat)
    requires k < |s| && s[k] == c
    ensures LastIndexOf(s, c) == k + 1 + LastIndexOf(s[k + 1..], c)
  {
    var t := s[k + 1..];
    var m := LastIndexOf(t, c);
    forall i | k + 1 + m < i < |s| ensures s[i] != c {
      assert s[i] == t[i - k - 1];
    }
    LastIndexOfIs(s, c, k + 1 + m);
  }

  /** The inductive step of LastPiece: a separator at k leaves the last piece to the
   *  rest of the string. */
  lemma LastPieceStep(s: string, c: char, k: nat)
    requires IndexOf(s, c) == Some(k)
    requires var t := s[k + 1..]; var rest := Split(t, c);
      rest[|rest| - 1] == t[LastIndexOf(t, c) + 1..]
    ensures var pieces := Split(s, c); pieces[|pieces| - 1] == s[LastIndexOf(s, c) + 1..]
  {
    var t := s[k + 1..];
    var rest := Split(t, c);
    assert Split(s, c) == [s[..k]] + rest;
    LastIndexAfter(s, c, k);
    assert s[LastIndexOf(s, c) + 1..] == t[LastIndexOf(t, c) + 1..];
  }

  /** The last piece of a split is what follows the last separator (the whole string
   *  when there is none). */
  lemma {:induction false} LastPiece(s: string, c: char)
    ensures var pieces := Split(s, c); pieces[|pieces| - 1] == s[LastIndexOf(s, c) + 1..]
    decreases |s|
  {
    match IndexOf(s, c)
    case None =>
      LastIndexOfIs(s, c, -1);
    case Some(k) =>
      LastPiece(s[k + 1..], c);
      LastPieceStep(s, c, k);
  }

  /** The key is the text after the last `.`, lower-cased; the whole path when there is
   *  no `.`. */
  lemma ExtensionKeyAfterLastDot(path: string)
    ensures '.' !in path ==> ExtensionKey(path) == ToLower(path)
    ensures '.' in path ==> ExtensionKey(path) == ToLower(path[LastIndexOf(path, '.') + 1..])
  {
    LastPiece(path, '.');
  }

  /** A stem, a dot and a dot-free extension: the key is the lower-cased extension. */
  lemma KeyOfSuffix(stem: string, ext: string)
    requires '.' !in ext
    ensures ExtensionKey(stem + "." + ext) == ToLower(ext)
  {
    var p := stem + "." + ext;
    ExtensionKeyAfterLastDot(p);
    assert p[|stem| + 1..] == ext;
    LastIndexOfIs(p, '.', |stem|);
  }

  /** A dot-free, lower-case extension gets its table entry. */
  lemma KnownTag(stem: string, ext: string)
    requires '.' !in ext && ToLower(ext) == ext
    ensures LanguageFromPath(stem + "." + ext) == Table(ext)
  {
    KeyOfSuffix(stem, ext);
  }

  /** ts and tsx are TypeScript. */
  lemma TypeScriptAliases(stem: string)
    ensures LanguageFromPath(stem + ".ts") == LanguageFromPath(stem + ".tsx") == "typescript"
  {
    assert "s"[1..] == "" && "ts"[1..] == "s" && ToLower("ts") == "ts";
    assert "x"[1..] == "" && "sx"[1..] == "x" && "tsx"[1..] == "sx" && ToLower("tsx") == "tsx";
    assert stem + ".ts" == stem + "." + "ts";
    assert stem + ".tsx" == stem + "." + "tsx";
    KnownTag(stem, "ts");
    KnownTag(stem, "tsx");
  }

  /** js and jsx are JavaScript. */
  lemma JavaScriptAliases(stem: string)
    ensures LanguageFromPath(stem + ".js") == LanguageFromPath(stem + ".jsx") == "javascript"
  {
    assert "s"[1..] == "" && "js"[1..] == "s" && ToLower("js") == "js";
    assert "x"[1..] == "" && "sx"[1..] == "x" && "jsx"[1..] == "sx" && ToLower("jsx") == "jsx";
    assert stem + ".js" == stem + "." + "js";
    assert stem + ".jsx" == stem + "." + "jsx";
    KnownTag(stem, "js");
    KnownTag(stem, "jsx");
  }

  /** yml and yaml are YAML. */
  lemma YamlAliases(stem: string)
    ensures LanguageFromPath(stem + ".yml") == LanguageFromPath(stem + ".yaml") == "yaml"
  {
    assert "l"[1..] == "" && "ml"[1..] == "l" && "yml"[1..] == "ml" && ToLower("yml") == "yml";
    assert "aml"[1..] == "ml" && "yaml"[1..] == "aml" && ToLower("yaml") == "yaml";
    assert stem + ".yml" == stem + "." + "yml";
    assert stem + ".yaml" == stem + "." + "yaml";
    KnownTag(stem, "yml");
    KnownTag(stem, "yaml");
  }

  /** sh is tagged bash. */
  lemma ShellAlias(stem: string)
    ensures LanguageFromPath(stem + ".sh") == "bash"
  {
    assert "h"[1..] == "" && "sh"[1..] == "h" && ToLower("sh") == "sh";
    assert stem + ".sh" == stem + "." + "sh";
    KnownTag(stem, "sh");
  }

  /** Lower-casing changes no `.`, so it keeps the position of the last one. */
  lemma LowerKeepsDots(s: string)
    ensures LastIndexOf(ToLower(s), '.') == LastIndexOf(s, '.')
  {
    var t := ToLower(s);
    assert forall i :: 0 <= i < |s| ==> (t[i] == '.' <==> s[i] == '.');
  }

  lemma {:induction false} ToLowerIdempotent(s: string)
    ensures ToLower(ToLower(s)) == ToLower(s)
  {
    if s != [] { ToLowerIdempotent(s[1..]); }
  }

  /** The lookup ignores case: `A.TS` and `a.ts` get the same tag. */
  lemma CaseInsensitive(path: string)
    ensures LanguageFromPath(ToLower(path)) == LanguageFromPath(path)
  {
    var low := ToLower(path);
    ExtensionKeyAfterLastDot(path);
    ExtensionKeyAfterLastDot(low);
    LowerKeepsDots(path);
    var k := LastIndexOf(path, '.') + 1;
    assert low[k..] == ToLower(path[k..]);
    ToLowerIdempotent(path[k..]);
  }
}
