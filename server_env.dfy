/**
 * What the server's handlers see of the outside world, as oracles: the project root,
 * Node's path functions, the file system as an abstract tree, git through a shell, and
 * the connected MCP clients.
 */
module ServerEnv {
  import opened Wrappers
  import opened JsText
  import opened JsValue
  import opened Protocol

  /** A directory entry with, for a directory, what reading it yields. */
  datatype Node = Node(name: string, isDirectory: bool, contents: Listing)

  /** The result of readdir: the entries in the order returned, or the error's message. */
  datatype Listing = Entries(nodes: seq<Node>) | Unreadable(message: string)

  /** A tool as an MCP server's listTools reports it. */
  datatype RawTool = RawTool(name: string, description: string, inputSchema: Schema)

  /** One block of a callTool result's content. */
  datatype Block = TextBlock(text: string) | OtherBlock(kind: string)

  /** A callTool result: its error flag, its content blocks, and the result rendered by
   *  JSON.stringify(result, null, 2). */
  datatype CallResult = CallResult(isError: bool, content: seq<Block>, json: string)

  /** What a call rejects with: the error's `message`, and `${e}`, the error as String
   *  prints it (for an Error, its name, ": " and its message; for an MCP error, a text
   *  that also carries the error code). */
  datatype Rejection = Rejection(message: string, shown: string)

  /** A connected MCP client: what listTools answers, and callTool by tool name and
   *  arguments. An Err of callTool carries the message of the Error it rejects with. */
  datatype Client = Client(
    listTools: Result<seq<RawTool>, Rejection>,
    callTool: (Value, Value) -> Result<CallResult, string>)

  /**
   * The server's environment. `resolve`, `join` and `relative` are path.resolve,
   * path.join and path.relative on two strings; `tree` reads a resolved path; `exec`
   * runs a shell command in the project root and yields its standard output or the
   * error's message; `parseInt` yields None for NaN; `clients` is the client map in
   * insertion order.
   */
  datatype Host = Host(
    root: string,
    resolve: (string, string) -> string,
    join: (string, string) -> string,
    relative: (string, string) -> string,
    isAbsolute: string -> bool,
    tree: string -> Listing,
    readFile: string -> Result<string, string>,
    exec: string -> Result<string, string>,
    parseInt: string -> Option<int>,
    clients: seq<(string, Client)>)

  /** mcpClients.get(name): the first client registered under that name. */
  function FindClient(clients: seq<(string, Client)>, name: string): (r: Option<Client>)
    ensures r.None? <==> forall i :: 0 <= i < |clients| ==> clients[i].0 != name
    ensures r.Some? ==> exists i :: 0 <= i < |clients| && clients[i] == (name, r.value)
  {
    if clients == [] then None
    else if clients[0].0 == name then Some(clients[0].1)
    else
      var r := FindClient(clients[1..], name);
      assert forall i :: 0 <= i < |clients| - 1 ==> clients[1..][i] == clients[i + 1];
      r
  }

  /** Passing a non-string to a path function throws a TypeError. */
  function PathArg(v: Value): (r: Result<string, string>)
    ensures r.Ok? <==> v.Str?
    ensures v.Str? ==> r.value == v.s
  {
    match v
    case Str(s) => Ok(s)
    case _ => Err("The \"path\" argument must be of type string")
  }

  /** The boundary test of the file tools: a plain prefix test on the resolved path. */
  predicate InsideRoot(host: Host, resolved: string) {
    StartsWith(resolved, host.root)
  }

  /** The test admits any path that merely begins with the root's text, such as a
   *  sibling directory whose name extends the root's last component. */
  lemma SiblingPassesPrefixTest(host: Host, suffix: string)
    ensures InsideRoot(host, host.root + suffix)
  {
    assert (host.root + suffix)[..|host.root|] == host.root;
  }
}
