/**
 * The body of the server's POST /api/invoke handler: take the target from the command
 * string when there is one, answer internal tools locally, forward everything else to
 * the named MCP client, and normalise what comes back into the response body.
 */
module Router {
  import opened Wrappers
  import opened JsText
  import opened JsValue
  import opened Protocol
  import opened ServerEnv
  import opened FsTree
  import opened ServerCommand
  import opened InternalTools

  const UnknownToolError: string := "Unknown MCP Tool Error"

  /** The texts of the `text` blocks, in order; other blocks are ignored. */
  function Texts(content: seq<Block>): (r: seq<string>)
    ensures |r| <= |content|
    ensures forall x :: x in r <==> TextBlock(x) in content
  {
    if content == [] then []
    else
      var init := Texts(content[..|content| - 1]);
      assert content == content[..|content| - 1] + [content[|content| - 1]];
      match content[|content| - 1]
      case TextBlock(t) => init + [t]
      case OtherBlock(_) => init
  }

  /** The message of a result flagged isError: its texts joined by newlines, or a fixed
   *  message when that is empty. */
  function ToolErrorMessage(content: seq<Block>): string {
    var joined := Join(Texts(content), "\n");
    if joined != "" then joined else UnknownToolError
  }

  /** The data of a successful result: its texts joined by blank lines, or the whole
   *  result as JSON when it has none. */
  function SuccessData(result: CallResult): string {
    var texts := Texts(result.content);
    if |texts| > 0 then Join(texts, "\n\n") else result.json
  }

  /** The path rewrite for the `fs` server: a relative string path is joined onto the
   *  project root; any other argument value is left as it is. */
  function RewritePath(host: Host, serverName: Value, args: Value): Value {
    var p := Get(args, "path");
    if serverName == Str("fs") && Truthy(args) && p.Str? && !host.isAbsolute(p.s) then
      Obj(Assign(args.fields, "path", Str(host.join(host.root, p.s))))
    else args
  }

  /** The arguments the provider receives: the rewritten arguments, or `{}` when falsy. */
  function CallArgs(host: Host, serverName: Value, args: Value): Value {
    var a := RewritePath(host, serverName, args);
    if Truthy(a) then a else EmptyObject
  }

  /** The response for a resolved target. */
  function Route(host: Host, collate: Collate, serverName: Value, toolName: Value, args: Value): Response {
    if serverName == Str("internal") then
      match InternalResult(host, collate, toolName, args)
      case Err(e) => Failure(e)
      case Ok(o) =>
        if o.isToolList || o.isStructured then Success(o.data, o.isToolList, o.isStructured)
        else Success(o.data, false, false)
    else match (if serverName.Str? then FindClient(host.clients, serverName.s) else None)
      case None => Failure("Server '" + ToJsString(serverName) + "' not active")
      case Some(client) =>
        ProviderResponse(client, toolName, CallArgs(host, serverName, args))
  }

  /** The response made from what the client's callTool answers. */
  function ProviderResponse(client: Client, toolName: Value, callArgs: Value): Response {
    match client.callTool(toolName, callArgs)
    case Err(e) => Failure(e)
    case Ok(result) =>
      if result.isError then Failure(ToolErrorMessage(result.content))
      else Success(Text(SuccessData(result)), false, false)
  }

  /** The handler's response to a request body. */
  function Respond(host: Host, collate: Collate, parseJson: JsonParser, req: Request): Response {
    if Truthy(req.command) then
      if !req.command.Str? then Failure("command.trim is not a function")
      else match ParseMcpCommand(req.command.s, parseJson)
        case Err(e) => Failure(e)
        case Ok(c) => Route(host, collate, Str(c.serverName), Str(c.toolName), c.args)
    else Route(host, collate, req.serverName, req.toolName, req.args)
  }

  /** The handler: the three request fields are reassigned from a command, and every
   *  thrown error becomes a failure response carrying its message. */
  method Invoke(host: Host, collate: Collate, parseJson: JsonParser, req: Request) returns (resp: Response)
    ensures resp == Respond(host, collate, parseJson, req)
  {
    var serverName, toolName, args := req.serverName, req.toolName, req.args;
    if Truthy(req.command) {
      if !req.command.Str? {
        return Failure("command.trim is not a function");
      }
      var parsed := ParseMcpCommand(req.command.s, parseJson);
      if parsed.Err? {
        return Failure(parsed.error);
      }
      serverName := Str(parsed.value.serverName);
      toolName := Str(parsed.value.toolName);
      args := parsed.value.args;
    }
    resp := Dispatch(host, collate, serverName, toolName, args);
  }

  /** The routing step of the handler: internal tools locally, the rest through the
   *  named client. */
  method Dispatch(host: Host, collate: Collate, serverName: Value, toolName: Value, args: Value)
    returns (resp: Response)
    ensures resp == Route(host, collate, serverName, toolName, args)
  {
    if serverName == Str("internal") {
      var result := HandleInternalTool(host, collate, toolName, args);
      if result.Err? {
        return Failure(result.error);
      }
      var o := result.value;
      if o.isToolList || o.isStructured {
        return Success(o.data, o.isToolList, o.isStructured);
      }
      return Success(o.data, false, false);
    }

    var client := if serverName.Str? then FindClient(host.clients, serverName.s) else None;
    if client.None? {
      return Failure("Server '" + ToJsString(serverName) + "' not active");
    }
    resp := CallProvider(host, client.value, serverName, toolName, args);
  }

  /** The `fs` path rewrite, done on the argument object before the call. */
  method FsArgs(host: Host, serverName: Value, args: Value) returns (a: Value)
    ensures a == RewritePath(host, serverName, args)
  {
    a := args;
    if serverName == Str("fs") && Truthy(a) && Get(a, "path").Str? {
      var p := Get(a, "path").s;
      if !host.isAbsolute(p) {
        a := Obj(Assign(a.fields, "path", Str(host.join(host.root, p))));
      }
    }
  }

  /** The external branch once the client is found: the `fs` path is rewritten in the
   *  argument object, the tool is called, and its result is normalised. */
  method CallProvider(host: Host, client: Client, serverName: Value, toolName: Value, args: Value)
    returns (resp: Response)
    ensures resp == ProviderResponse(client, toolName, CallArgs(host, serverName, args))
  {
    var a := FsArgs(host, serverName, args);
    var call := client.callTool(toolName, if Truthy(a) then a else EmptyObject);
    if call.Err? {
      return Failure(call.error);
    }
    var result := call.value;
    if result.isError {
      var errorMessage := Join(Texts(result.content), "\n");
      return Failure(if errorMessage != "" then errorMessage else UnknownToolError);
    }
    var textBlocks := Texts(result.content);
    var resultData := if |textBlocks| > 0 then Join(textBlocks, "\n\n") else result.json;
    resp := Success(Text(resultData), false, false);
  }

  /** A command string, once parsed, decides the target whatever the other fields say. */
  lemma CommandOverrides(host: Host, collate: Collate, parseJson: JsonParser, req: Request, c: McpCommand)
    requires req.command.Str? && req.command.s != ""
    requires ParseMcpCommand(req.command.s, parseJson) == Ok(c)
    ensures Respond(host, collate, parseJson, req) == Route(host, collate, Str(c.serverName), Str(c.toolName), c.args)
  {
    assert Truthy(req.command);
  }

  /** A command string that does not parse fails with the parser's message. */
  lemma BadCommand(host: Host, collate: Collate, parseJson: JsonParser, req: Request)
    requires req.command.Str? && req.command.s != ""
    requires SplitCommand(Trim(req.command.s)).None?
    ensures Respond(host, collate, parseJson, req) == Failure("Invalid command format")
  {
  }

  /** Server `internal` answers with the internal handler's data and flags, or fails with
   *  its message. */
  lemma InternalDispatch(host: Host, collate: Collate, toolName: Value, args: Value)
    ensures var r := InternalResult(host, collate, toolName, args);
      && (r.Ok? ==> Route(host, collate, Str("internal"), toolName, args)
                      == Success(r.value.data, r.value.isToolList, r.value.isStructured))
      && (r.Err? ==> Route(host, collate, Str("internal"), toolName, args) == Failure(r.error))
  {
  }

  /** Only server `internal` answers with a structured result: every other server's
   *  success is plain text, so nothing it answers is a structured listing. */
  lemma OnlyInternalStructured(host: Host, collate: Collate, serverName: Value, toolName: Value, args: Value)
    requires serverName != Str("internal")
    ensures var r := Route(host, collate, serverName, toolName, args);
      r.Success? ==> !r.isStructured && !r.isToolList && r.data.Text?
  {
    var client := if serverName.Str? then FindClient(host.clients, serverName.s) else None;
    if client.Some? {
      ProviderAnswersText(client.value, toolName, CallArgs(host, serverName, args));
    }
  }

  /** What a provider answers is plain text or a failure. */
  lemma ProviderAnswersText(client: Client, toolName: Value, callArgs: Value)
    ensures var r := ProviderResponse(client, toolName, callArgs);
      r.Success? ==> !r.isStructured && !r.isToolList && r.data.Text?
  {
  }

  /** A server that is neither `internal` nor connected fails, naming the server. */
  lemma ServerNotActive(host: Host, collate: Collate, name: string, toolName: Value, args: Value)
    requires name != "internal"
    requires forall i :: 0 <= i < |host.clients| ==> host.clients[i].0 != name
    ensures Route(host, collate, Str(name), toolName, args) == Failure("Server '" + name + "' not active")
  {
  }

  /** For `fs`, a relative string path reaches the provider joined onto the root, with
   *  every other argument unchanged; an absolute path is passed as it is. */
  lemma FsPathRewritten(host: Host, fields: seq<(string, Value)>, p: string, other: string)
    requires Lookup(fields, "path") == Str(p) && other != "path"
    ensures !host.isAbsolute(p) ==>
      && Get(CallArgs(host, Str("fs"), Obj(fields)), "path") == Str(host.join(host.root, p))
      && Get(CallArgs(host, Str("fs"), Obj(fields)), other) == Lookup(fields, other)
    ensures host.isAbsolute(p) ==> CallArgs(host, Str("fs"), Obj(fields)) == Obj(fields)
  {
    AssignReads(fields, "path", Str(host.join(host.root, p)), other);
  }

  /** Other servers receive their arguments untouched, and missing or falsy arguments
   *  are sent as `{}`. */
  lemma ArgsPassed(host: Host, serverName: Value, args: Value)
    ensures serverName != Str("fs") && Truthy(args) ==> CallArgs(host, serverName, args) == args
    ensures !Truthy(args) ==> CallArgs(host, serverName, args) == EmptyObject
  {
  }

  /** A result flagged isError fails with its texts joined by newlines, or with the fixed
   *  message when there is no text. */
  lemma ToolErrorsFail(host: Host, collate: Collate, name: string, toolName: Value, args: Value, client: Client, result: CallResult)
    requires name != "internal" && FindClient(host.clients, name) == Some(client)
    requires client.callTool(toolName, CallArgs(host, Str(name), args)) == Ok(result) && result.isError
    ensures Route(host, collate, Str(name), toolName, args) == Failure(ToolErrorMessage(result.content))
    ensures Texts(result.content) == [] ==> Route(host, collate, Str(name), toolName, args) == Failure(UnknownToolError)
  {
  }

  /** A successful result answers with its texts joined by blank lines, or with its JSON
   *  when it has no text block. */
  lemma SuccessNormalised(host: Host, collate: Collate, name: string, toolName: Value, args: Value, client: Client, result: CallResult)
    requires name != "internal" && FindClient(host.clients, name) == Some(client)
    requires client.callTool(toolName, CallArgs(host, Str(name), args)) == Ok(result) && !result.isError
    ensures Texts(result.content) != [] ==>
      Route(host, collate, Str(name), toolName, args) == Success(Text(Join(Texts(result.content), "\n\n")), false, false)
    ensures Texts(result.content) == [] ==>
      Route(host, collate, Str(name), toolName, args) == Success(Text(result.json), false, false)
  {
  }

  /** Blocks other than text never reach the data: only the texts, in order, are joined. */
  lemma {:induction false} OtherBlocksIgnored(content: seq<Block>, kind: string)
    ensures Texts(content + [OtherBlock(kind)]) == Texts(content)
    ensures forall t :: Texts(content + [TextBlock(t)]) == Texts(content) + [t]
  {
    assert (content + [OtherBlock(kind)])[..|content|] == content;
    forall t ensures Texts(content + [TextBlock(t)]) == Texts(content) + [t] {
      assert (content + [TextBlock(t)])[..|content|] == content;
    }
  }
}
