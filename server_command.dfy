/**
 * The server's command-string parser (parseMcpCommand): `mcp:server:tool` with optional
 * `(json)` arguments, matched by one anchored regular expression on the trimmed input.
 */
module ServerCommand {
  import opened Wrappers
  import opened JsText
  import opened JsValue

  /** A parsed command: trimmed server and tool names and the argument value. */
  datatype McpCommand = McpCommand(serverName: string, toolName: string, args: Value)

  /** The capture groups of the expression; args is absent when the parentheses are. */
  datatype CommandParts = CommandParts(server: string, tool: string, args: Option<string>)

  /** JSON.parse: the value, or None where it throws. */
  type JsonParser = string -> Option<Value>

  predicate NoLineTerminator(s: string) {
    forall i :: 0 <= i < |s| ==> !IsLineTerminator(s[i])
  }

  /** The text that reads as the given groups. */
  function Render(p: CommandParts): string {
    "mcp:" + p.server + ":" + p.tool + (match p.args case None => "" case Some(a) => "(" + a + ")")
  }

  /**
   * Groups the expression /^mcp:([^:]+):([^(]+?)(?:\((.*)\))?$/ can capture: a non-empty
   * server without `:`, a non-empty tool without `(`, and arguments on one line.
   */
  predicate WellFormed(p: CommandParts) {
    && |p.server| > 0 && ':' !in p.server
    && |p.tool| > 0 && '(' !in p.tool
    && (p.args.Some? ==> NoLineTerminator(p.args.value))
  }

  /**
   * The match of the expression on s. The server is everything up to the first `:`; the
   * lazy tool group stops at the first `(`, after which the rest must be `(...)` up to the
   * end of the text, with no line break inside; without a `(` the whole rest is the tool.
   */
  function SplitCommand(s: string): Option<CommandParts> {
    if |s| < 4 || s[..4] != "mcp:" then None
    else
      var rest := s[4..];
      var c := IndexOf(rest, ':');
      if c.None? || c.value == 0 then None
      else
        var t := rest[c.value + 1..];
        var q := IndexOf(t, '(');
        if q.None? then
          if t == [] then None else Some(CommandParts(rest[..c.value], t, None))
        else if q.value == 0 || |t| - 1 <= q.value || t[|t| - 1] != ')'
          || !NoLineTerminator(t[q.value + 1..|t| - 1]) then None
        else Some(CommandParts(rest[..c.value], t[..q.value], Some(t[q.value + 1..|t| - 1])))
  }

  /** Every match is well formed and reads back as the matched text. */
  lemma SplitCommandSound(s: string)
    requires SplitCommand(s).Some?
    ensures WellFormed(SplitCommand(s).value) && Render(SplitCommand(s).value) == s
  {
    SplitCommandWellFormed(s);
    SplitCommandRenders(s);
  }

  lemma SplitCommandWellFormed(s: string)
    requires SplitCommand(s).Some?
    ensures WellFormed(SplitCommand(s).value)
  {
    var p := SplitCommand(s).value;
    var rest := s[4..];
    var c := IndexOf(rest, ':').value;
    var t := rest[c + 1..];
    assert forall i :: 0 <= i < c ==> rest[..c][i] == rest[i];
    var q := IndexOf(t, '(');
    if q.Some? {
      assert forall i :: 0 <= i < q.value ==> t[..q.value][i] == t[i];
    }
  }

  lemma SplitCommandRenders(s: string)
    requires SplitCommand(s).Some?
    ensures Render(SplitCommand(s).value) == s
  {
    var p := SplitCommand(s).value;
    var rest := s[4..];
    var c := IndexOf(rest, ':').value;
    var t := rest[c + 1..];
    var q := IndexOf(t, '(');
    var tail := match p.args case None => "" case Some(a) => "(" + a + ")";
    if q.Some? {
      assert p.tool == t[..q.value] && p.args == Some(t[q.value + 1..|t| - 1]);
      Parenthesised(t, q.value);
    } else {
      assert p.tool == t && p.args == None;
    }
    assert p.tool + tail == t;
    CutAt(rest, c);
    assert s == s[..4] + rest;
    calc {
      Render(p);
      "mcp:" + p.server + ":" + p.tool + tail;
      { Associate4("mcp:", p.server, ":", p.tool, tail); }
      "mcp:" + (p.server + ":" + (p.tool + tail));
      "mcp:" + (rest[..c] + [rest[c]] + rest[c + 1..]);
      s;
    }
  }

  lemma Associate4(a: string, b: string, c: string, d: string, e: string)
    ensures a + b + c + d + e == a + (b + c + (d + e))
  {
  }

  lemma CutAt(s: string, k: nat)
    requires k < |s|
    ensures s == s[..k] + [s[k]] + s[k + 1..]
  {
  }

  lemma Parenthesised(t: string, q: nat)
    requires q < |t| - 1 && t[q] == '(' && t[|t| - 1] == ')'
    ensures t == t[..q] + ("(" + t[q + 1..|t| - 1] + ")")
  {
    assert t == t[..q] + t[q..];
    assert t[q..] == [t[q]] + t[q + 1..];
    assert t[q + 1..] == t[q + 1..|t| - 1] + [t[|t| - 1]];
  }

  lemma IndexOfAt(s: string, c: char, k: nat)
    requires k < |s| && s[k] == c && c !in s[..k]
    ensures IndexOf(s, c) == Some(k)
  {
    var r := IndexOf(s, c);
    assert s[k] in s;
    assert forall i :: 0 <= i < k ==> s[i] != c by {
      forall i | 0 <= i < k ensures s[i] != c {
        assert s[..k][i] == s[i];
      }
    }
    assert forall i :: 0 <= i < r.value ==> s[i] != c by {
      forall i | 0 <= i < r.value ensures s[i] != c {
        assert s[..r.value][i] == s[i];
      }
    }
  }

  /** Every well-formed group triple is matched back from its text: the split is unique. */
  lemma SplitCommandComplete(p: CommandParts)
    requires WellFormed(p)
    ensures SplitCommand(Render(p)) == Some(p)
  {
    var s := Render(p);
    var tail := match p.args case None => "" case Some(a) => "(" + a + ")";
    var t := p.tool + tail;
    assert s == "mcp:" + (p.server + ":" + t);
    var rest := s[4..];
    ServerPart(s, p.server, t);
    match p.args
    case None =>
      assert t == p.tool;
      assert IndexOf(t, '(').None?;
      assert SplitCommand(s) == Some(CommandParts(p.server, t, None));
    case Some(a) =>
      ToolPart(t, p.tool, a);
      MatchWithArgs(s, p.server, t, p.tool, a);
  }

  lemma MatchWithArgs(s: string, server: string, t: string, tool: string, a: string)
    requires |s| >= 4 && s[..4] == "mcp:" && |server| > 0
    requires IndexOf(s[4..], ':') == Some(|server|)
    requires s[4..][..|server|] == server && s[4..][|server| + 1..] == t
    requires |tool| > 0 && IndexOf(t, '(') == Some(|tool|)
    requires t[..|tool|] == tool && |tool| < |t| - 1 && t[|t| - 1] == ')'
    requires t[|tool| + 1..|t| - 1] == a && NoLineTerminator(a)
    ensures SplitCommand(s) == Some(CommandParts(server, tool, Some(a)))
  {
  }

  /** The server group ends at the first `:`, after which the rest of the text follows. */
  lemma ServerPart(s: string, server: string, t: string)
    requires |server| > 0 && ':' !in server
    requires s == "mcp:" + (server + ":" + t)
    ensures |s| >= 4 && s[..4] == "mcp:"
    ensures IndexOf(s[4..], ':') == Some(|server|)
    ensures s[4..][..|server|] == server && s[4..][|server| + 1..] == t
  {
    var rest := s[4..];
    assert rest == server + ":" + t;
    assert rest[..|server|] == server;
    IndexOfAt(rest, ':', |server|);
  }

  /** The tool group ends at the first `(`, and the parentheses close the text. */
  lemma ToolPart(t: string, tool: string, a: string)
    requires |tool| > 0 && '(' !in tool
    requires t == tool + ("(" + a + ")")
    ensures IndexOf(t, '(') == Some(|tool|)
    ensures t[..|tool|] == tool && |tool| < |t| - 1 && t[|t| - 1] == ')'
    ensures t[|tool| + 1..|t| - 1] == a
  {
    assert t[..|tool|] == tool;
    IndexOfAt(t, '(', |tool|);
  }

  /** `argsStr && argsStr.trim()`: parentheses holding only blanks mean no arguments. */
  function ParseArgs(argsStr: Option<string>, parseJson: JsonParser): (r: Result<Value, string>)
    ensures r.Err? <==> argsStr.Some? && !IsBlank(argsStr.value) && parseJson(argsStr.value).None?
    ensures r.Err? ==> r.error == "Invalid JSON args"
    ensures r.Ok? && (argsStr.None? || IsBlank(argsStr.value)) ==> r.value == EmptyObject
    ensures r.Ok? && argsStr.Some? && !IsBlank(argsStr.value) ==> parseJson(argsStr.value) == Some(r.value)
  {
    if argsStr.None? || Trim(argsStr.value) == "" then Ok(EmptyObject)
    else match parseJson(argsStr.value)
      case None => Err("Invalid JSON args")
      case Some(v) => Ok(v)
  }

  /** parseMcpCommand: match the trimmed command, parse the arguments, trim both names. */
  function ParseMcpCommand(command: string, parseJson: JsonParser): (r: Result<McpCommand, string>)
    ensures r.Err? <==> SplitCommand(Trim(command)).None? || ParseArgs(SplitCommand(Trim(command)).value.args, parseJson).Err?
    ensures SplitCommand(Trim(command)).None? ==> r == Err("Invalid command format")
    ensures r.Ok? ==>
      var p := SplitCommand(Trim(command)).value;
      r.value == McpCommand(Trim(p.server), Trim(p.tool), ParseArgs(p.args, parseJson).value)
  {
    match SplitCommand(Trim(command))
    case None => Err("Invalid command format")
    case Some(p) =>
      match ParseArgs(p.args, parseJson)
      case Err(e) => Err(e)
      case Ok(args) => Ok(McpCommand(Trim(p.server), Trim(p.tool), args))
  }

  /**
   * A command written from well-formed names without surrounding blanks reads back as those
   * names, with the empty object when there are no arguments.
   */
  lemma ParseRendered(server: string, tool: string, parseJson: JsonParser)
    requires WellFormed(CommandParts(server, tool, None))
    requires !IsSpace(server[0]) && !IsSpace(server[|server| - 1])
    requires !IsSpace(tool[0]) && !IsSpace(tool[|tool| - 1])
    ensures ParseMcpCommand(Render(CommandParts(server, tool, None)), parseJson)
      == Ok(McpCommand(server, tool, EmptyObject))
  {
    var p := CommandParts(server, tool, None);
    var s := Render(p);
    assert s[0] == 'm' && s[|s| - 1] == tool[|tool| - 1];
    TrimUnchanged(s);
    SplitCommandComplete(p);
    TrimUnchanged(server);
    TrimUnchanged(tool);
  }

  /** Likewise with arguments: the text between the parentheses goes to JSON.parse as is. */
  lemma ParseRenderedWithArgs(server: string, tool: string, a: string, parseJson: JsonParser)
    requires WellFormed(CommandParts(server, tool, Some(a)))
    requires !IsSpace(server[0]) && !IsSpace(server[|server| - 1])
    requires !IsSpace(tool[0]) && !IsSpace(tool[|tool| - 1])
    requires !IsBlank(a) && parseJson(a).Some?
    ensures ParseMcpCommand(Render(CommandParts(server, tool, Some(a))), parseJson)
      == Ok(McpCommand(server, tool, parseJson(a).value))
  {
    var p := CommandParts(server, tool, Some(a));
    var s := Render(p);
    assert s[0] == 'm' && s[|s| - 1] == ')';
    TrimUnchanged(s);
    SplitCommandComplete(p);
    TrimUnchanged(server);
    TrimUnchanged(tool);
  }
}
