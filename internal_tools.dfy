/**
 * The tools the server answers itself (server name `internal`): the catalog, the
 * directory tree, the file tools and the git tools.
 */
module InternalTools {
  import opened Wrappers
  import opened JsText
  import opened JsValue
  import opened Protocol
  import opened Collections
  import opened ServerEnv
  import opened FsTree

  /** What handleInternalTool returns: the data and the two flags the router reads (an
   *  absent flag is false). */
  datatype Outcome = Outcome(data: Payload, isToolList: bool, isStructured: bool)

  /** The internal tools, in catalog order. A tool declared with `inputSchema: {}` has
   *  the empty schema. */
  const InternalCatalog: seq<RawTool> := [
    RawTool("list", "List available tools. Args: server (string, optional)",
      Schema([("server", PropInfo(Some("string"), Some("Filter tools by server name (e.g. 'git', 'fs')")))], [])),
    RawTool("get_tree", "Get project structure tree. Args: root (string, relative path), depth (number, default 3)",
      Schema([("root", PropInfo(Some("string"), Some("Relative path to start tree from (e.g. 'src/components')"))),
              ("depth", PropInfo(Some("number"), Some("Recursion depth (default 3)")))], [])),
    RawTool("list_directory", "List files in directory (Internal)",
      Schema([("path", PropInfo(Some("string"), Some("Relative path from project root")))], [])),
    RawTool("read_file", "Read file content (Internal)",
      Schema([("path", PropInfo(Some("string"), Some("Relative path from project root")))], [])),
    RawTool("git_diff", "Show uncommitted changes (git diff)", Schema([], [])),
    RawTool("git_status", "Show working tree status (git status)", Schema([], [])),
    RawTool("git_changed_files", "List files that have changed (modified/added) relative to HEAD", Schema([], [])),
    RawTool("get_file_diff", "Get git diff for a specific file (shows old vs new code)",
      Schema([("path", PropInfo(Some("string"), Some("Relative path to file")))], []))
  ]

  /** The tool names the handler answers. */
  const Handled: set<string> := {
    "list", "get_tree", "git_diff", "git_status", "git_changed_files", "get_file_diff",
    "list_directory", "read_file"
  }

  /** formatTool: server, name and description always; the schema only when detailed. */
  function FormatTool(t: RawTool, server: string, detailed: bool): (r: ToolInfo)
    ensures r.server == server && r.name == t.name && r.description == t.description
    ensures r.inputSchema.Some? <==> detailed
  {
    ToolInfo(server, t.name, t.description, if detailed then Some(t.inputSchema) else None)
  }

  /** tools.map(t => formatTool(t, server, detailed)). */
  function Described(tools: seq<RawTool>, server: string, detailed: bool): (r: seq<ToolInfo>)
    ensures |r| == |tools|
  {
    seq(|tools|, i requires 0 <= i < |tools| => FormatTool(tools[i], server, detailed))
  }

  /** What one client contributes to the summary: its tools without schemas, or a single
   *  entry naming the rejection. */
  function ClientSummary(name: string, client: Client): seq<ToolInfo> {
    match client.listTools
    case Ok(tools) => Described(tools, name, false)
    case Err(e) => [ToolInfo(name, "Error: " + e.shown, "", None)]
  }

  /** The summaries of a run of clients, in client order. */
  function Summaries(clients: seq<(string, Client)>): seq<ToolInfo> {
    if clients == [] then []
    else
      var last := clients[|clients| - 1];
      Summaries(clients[..|clients| - 1]) + ClientSummary(last.0, last.1)
  }

  /** The `list` tool. */
  function ListTools(host: Host, args: Value): Result<seq<ToolInfo>, string> {
    var target := Get(args, "server");
    if Truthy(target) then
      if target == Str("internal") then Ok(Described(InternalCatalog, "internal", true))
      else match (if target.Str? then FindClient(host.clients, target.s) else None)
        case None => Err("Server not found")
        case Some(client) =>
          match client.listTools
          case Err(e) => Err(e.message)
          case Ok(tools) => Ok(Described(tools, target.s, true))
    else Ok(Summaries(host.clients) + Described(InternalCatalog, "internal", false))
  }

  /** The summary loop over the connected clients: one client's failure is recorded and
   *  the loop goes on. */
  method SummarizeClients(clients: seq<(string, Client)>) returns (allTools: seq<ToolInfo>)
    ensures allTools == Summaries(clients)
  {
    allTools := [];
    for k := 0 to |clients|
      invariant allTools == Summaries(clients[..k])
    {
      TakeSnoc(clients, k);
      var (name, client) := clients[k];
      match client.listTools {
        case Ok(tools) =>
          allTools := allTools + Described(tools, name, false);
        case Err(e) =>
          allTools := allTools + [ToolInfo(name, "Error: " + e.shown, "", None)];
      }
    }
    assert clients[..|clients|] == clients;
  }

  /** The `list` branch: a detailed listing of one server, or the summaries followed by the
   *  internal tools. */
  method List(host: Host, args: Value) returns (r: Result<seq<ToolInfo>, string>)
    ensures r == ListTools(host, args)
  {
    var target := Get(args, "server");
    if Truthy(target) {
      if target == Str("internal") {
        r := Ok(Described(InternalCatalog, "internal", true));
      } else {
        var client := if target.Str? then FindClient(host.clients, target.s) else None;
        if client.None? {
          return Err("Server not found");
        }
        match client.value.listTools {
          case Err(e) => r := Err(e.message);
          case Ok(tools) => r := Ok(Described(tools, target.s, true));
        }
      }
    } else {
      var allTools := SummarizeClients(host.clients);
      allTools := allTools + Described(InternalCatalog, "internal", false);
      r := Ok(allTools);
    }
  }

  /** get_tree's depth: parseInt of a truthy depth argument, else 3. */
  function TreeDepth(host: Host, args: Value): Option<int> {
    var d := Get(args, "depth");
    if Truthy(d) then host.parseInt(ToJsString(d)) else Some(3)
  }

  /** get_tree's root argument: a truthy root, else ".". */
  function TreeRoot(args: Value): Value {
    var r := Get(args, "root");
    if Truthy(r) then r else Str(".")
  }

  /** get_tree: the header line, then the tree of the resolved root. */
  function GetTree(host: Host, collate: Collate, args: Value): Result<string, string> {
    match PathArg(TreeRoot(args))
    case Err(e) => Err(e)
    case Ok(relativeRoot) =>
      var target := host.resolve(host.root, relativeRoot);
      if !InsideRoot(host, target) then Err("Access denied")
      else
        var header := if relativeRoot == "." then "Project Root" else relativeRoot + "/";
        Ok(header + "\n" + TreeText(host.tree(target), 0, TreeDepth(host, args), collate))
  }

  /** The images of the pieces under f, with the empty ones dropped. */
  function NonEmptyImages(pieces: seq<string>, f: string -> string): seq<string> {
    if pieces == [] then []
    else
      var t := f(pieces[|pieces| - 1]);
      NonEmptyImages(pieces[..|pieces| - 1], f) + (if t == "" then [] else [t])
  }

  lemma {:induction false} NonEmptyImagesMembers(pieces: seq<string>, f: string -> string, x: string)
    ensures x in NonEmptyImages(pieces, f) <==> x != "" && exists p :: p in pieces && f(p) == x
  {
    if pieces != [] {
      var init := pieces[..|pieces| - 1];
      var last := pieces[|pieces| - 1];
      NonEmptyImagesMembers(init, f, x);
      assert pieces == init + [last];
      if x != "" && exists p :: p in pieces && f(p) == x {
        var p :| p in pieces && f(p) == x;
        if p != last {
          assert p in init;
        }
      }
    }
  }

  /** The pieces of a split, trimmed, with the empty ones dropped. */
  function TrimmedNonEmpty(pieces: seq<string>): seq<string> {
    NonEmptyImages(pieces, Trim)
  }

  /** What is kept is exactly the non-empty trimmed pieces. */
  lemma TrimmedNonEmptyMembers(pieces: seq<string>, x: string)
    ensures x in TrimmedNonEmpty(pieces) <==> x != "" && exists p :: p in pieces && Trim(p) == x
  {
    NonEmptyImagesMembers(pieces, Trim, x);
  }

  /** The trimmed, non-empty lines of a command's output. */
  function OutputLines(out: string): seq<string> {
    TrimmedNonEmpty(Split(out, '\n'))
  }

  /** git_changed_files: the lines of both outputs, each file once, first occurrence
   *  first. */
  function ChangedFiles(diffOut: string, untrackedOut: string): seq<string> {
    Dedup(OutputLines(diffOut) + OutputLines(untrackedOut))
  }

  const NoChanges: string := "No changes detected."
  const NoDiff: string := "(No diff - File might be unchanged or new/untracked)"
  const NewUntracked: string := "\U{1F7E2} (New Untracked File) - Entire content is new."

  /** get_file_diff on a path already known to be present: the diff against HEAD, else the
   *  staged diff, else a note; any git failure marks the file as new. */
  function FileDiff(host: Host, path: string): string {
    match host.exec("git diff HEAD -- \"" + path + "\"")
    case Err(_) => NewUntracked
    case Ok(out) =>
      if Trim(out) != "" then out
      else match host.exec("git diff --cached -- \"" + path + "\"")
        case Err(_) => NewUntracked
        case Ok(cached) => if cached != "" then cached else NoDiff
  }

  /** The `list` tool's outcome: a catalog, flagged as a tool list. */
  function ListResult(host: Host, args: Value): (r: Result<Outcome, string>)
    ensures r.Ok? ==> r.value.isToolList && !r.value.isStructured && r.value.data.Catalog?
  {
    match ListTools(host, args)
    case Err(e) => Err(e)
    case Ok(tools) => Ok(Outcome(Catalog(tools), true, false))
  }

  /** The git tools: the whole diff, the status, the changed files, one file's diff. */
  function GitResult(host: Host, tool: string, args: Value): (r: Result<Outcome, string>)
    requires tool in {"git_diff", "git_status", "git_changed_files", "get_file_diff"}
    ensures r.Ok? ==> !r.value.isToolList && !r.value.isStructured
  {
    if tool == "git_diff" then
      match host.exec("git diff")
      case Err(e) => Err(e)
      case Ok(out) => Ok(Outcome(Text(if out != "" then out else NoChanges), false, false))
    else if tool == "git_status" then
      match host.exec("git status")
      case Err(e) => Err(e)
      case Ok(out) => Ok(Outcome(Text(out), false, false))
    else if tool == "git_changed_files" then
      match host.exec("git diff --name-only HEAD")
      case Err(e) => Err(e)
      case Ok(diffOut) =>
        match host.exec("git ls-files --others --exclude-standard")
        case Err(e) => Err(e)
        case Ok(untrackedOut) => Ok(Outcome(StringList(ChangedFiles(diffOut, untrackedOut)), false, false))
    else
      match ReadProp(args, "path")
      case Err(e) => Err(e)
      case Ok(p) =>
        if !Truthy(p) then Err("Path is required")
        else Ok(Outcome(Text(FileDiff(host, ToJsString(p))), false, false))
  }

  /** The file tools: a structured directory listing, or a file's text inside the root. */
  function FileResult(host: Host, tool: string, args: Value): (r: Result<Outcome, string>)
    requires tool in {"list_directory", "read_file"}
    ensures r.Ok? ==> !r.value.isToolList && (r.value.isStructured <==> tool == "list_directory")
  {
    if tool == "list_directory" then
      match ReadProp(args, "path")
      case Err(e) => Err(e)
      case Ok(p) =>
        match PathArg(if Truthy(p) then p else Str("."))
        case Err(e) => Err(e)
        case Ok(dir) =>
          match ListFilesWithTypes(host, dir)
          case Err(e) => Err(e)
          case Ok(files) => Ok(Outcome(DirEntries(files), false, true))
    else
      match ReadProp(args, "path")
      case Err(e) => Err(e)
      case Ok(p) =>
        if !Truthy(p) then Err("Path is required")
        else match PathArg(p)
          case Err(e) => Err(e)
          case Ok(path) =>
            var full := host.resolve(host.root, path);
            if !InsideRoot(host, full) then Err("Access denied")
            else match host.readFile(full)
              case Err(e) => Err(e)
              case Ok(content) => Ok(Outcome(Text(content), false, false))
  }

  /** handleInternalTool. */
  function InternalResult(host: Host, collate: Collate, toolName: Value, args: Value): Result<Outcome, string> {
    if toolName == Str("list") then ListResult(host, args)
    else if toolName == Str("get_tree") then
      match GetTree(host, collate, args)
      case Err(e) => Err(e)
      case Ok(t) => Ok(Outcome(Text(t), false, false))
    else if toolName.Str? && toolName.s in {"git_diff", "git_status", "git_changed_files", "get_file_diff"} then
      GitResult(host, toolName.s, args)
    else if toolName.Str? && toolName.s in {"list_directory", "read_file"} then
      FileResult(host, toolName.s, args)
    else Err("Unknown internal tool: " + ToJsString(toolName))
  }

  /** handleInternalTool as the server runs it: the catalog through its loop, the tree
   *  through generateTree, the other tools as single expressions. */
  method HandleInternalTool(host: Host, collate: Collate, toolName: Value, args: Value)
    returns (r: Result<Outcome, string>)
    ensures r == InternalResult(host, collate, toolName, args)
  {
    if toolName == Str("list") {
      var tools := List(host, args);
      r := if tools.Ok? then Ok(Outcome(Catalog(tools.value), true, false)) else Err(tools.error);
    } else if toolName == Str("get_tree") {
      var rootArg := PathArg(TreeRoot(args));
      if rootArg.Err? {
        return Err(rootArg.error);
      }
      var relativeRoot := rootArg.value;
      var target := host.resolve(host.root, relativeRoot);
      if !StartsWith(target, host.root) {
        return Err("Access denied");
      }
      var header := if relativeRoot == "." then "Project Root" else relativeRoot + "/";
      var tree := GenerateTree(host.tree(target), 0, TreeDepth(host, args), collate);
      r := Ok(Outcome(Text(header + "\n" + tree), false, false));
    } else {
      r := InternalResult(host, collate, toolName, args);
    }
  }

  /** A tool name outside the handled set fails with its name. */
  lemma UnknownTool(host: Host, collate: Collate, toolName: Value, args: Value)
    requires !(toolName.Str? && toolName.s in Handled)
    ensures InternalResult(host, collate, toolName, args) == Err("Unknown internal tool: " + ToJsString(toolName))
  {
  }

  /** read_file and get_file_diff refuse a missing or falsy path. */
  lemma PathRequired(host: Host, collate: Collate, tool: string, fields: seq<(string, Value)>)
    requires tool == "read_file" || tool == "get_file_diff"
    requires !Truthy(Lookup(fields, "path"))
    ensures InternalResult(host, collate, Str(tool), Obj(fields)) == Err("Path is required")
  {
  }

  /** read_file and get_tree refuse a path whose resolution does not start with the root. */
  lemma OutsideRootDenied(host: Host, collate: Collate, fields: seq<(string, Value)>, p: string)
    requires p != "" && !InsideRoot(host, host.resolve(host.root, p))
    ensures Lookup(fields, "path") == Str(p) ==>
      InternalResult(host, collate, Str("read_file"), Obj(fields)) == Err("Access denied")
    ensures Lookup(fields, "root") == Str(p) ==>
      InternalResult(host, collate, Str("get_tree"), Obj(fields)) == Err("Access denied")
  {
  }

  /** Without arguments, get_tree shows the project root three levels deep under the
   *  header "Project Root". */
  lemma TreeDefaults(host: Host, collate: Collate, args: Value)
    requires args == Undefined || args == EmptyObject
    requires InsideRoot(host, host.resolve(host.root, "."))
    ensures InternalResult(host, collate, Str("get_tree"), args)
      == Ok(Outcome(Text("Project Root\n" + TreeText(host.tree(host.resolve(host.root, ".")), 0, Some(3), collate)), false, false))
  {
    assert Get(args, "root") == Undefined && Get(args, "depth") == Undefined;
    assert TreeRoot(args) == Str(".") && TreeDepth(host, args) == Some(3);
    var t := TreeText(host.tree(host.resolve(host.root, ".")), 0, Some(3), collate);
    assert "Project Root" + "\n" + t == "Project Root\n" + t;
  }

  /** A root other than "." heads the tree with the root and a slash. */
  lemma TreeHeader(host: Host, collate: Collate, args: Value, root: string)
    requires Get(args, "root") == Str(root) && root != "" && root != "."
    requires InsideRoot(host, host.resolve(host.root, root))
    ensures GetTree(host, collate, args).Ok?
    ensures StartsWith(GetTree(host, collate, args).value, root + "/\n")
  {
    var t := TreeText(host.tree(host.resolve(host.root, root)), 0, TreeDepth(host, args), collate);
    assert PathArg(TreeRoot(args)) == Ok(root);
    var text := root + "/" + "\n" + t;
    assert GetTree(host, collate, args) == Ok(text);
    assert text[..|root + "/\n"|] == root + "/\n";
  }

  /** An empty diff is reported as "No changes detected.". */
  lemma EmptyDiff(host: Host, collate: Collate, args: Value)
    requires host.exec("git diff") == Ok("")
    ensures InternalResult(host, collate, Str("git_diff"), args) == Ok(Outcome(Text(NoChanges), false, false))
  {
  }

  /** The changed files are exactly the non-blank lines of either output, trimmed, each
   *  once. */
  lemma ChangedFilesContents(diffOut: string, untrackedOut: string)
    ensures var r := ChangedFiles(diffOut, untrackedOut);
      && Distinct(r)
      && (forall x :: x in r <==> x in OutputLines(diffOut) || x in OutputLines(untrackedOut))
      && (forall x :: x in r ==> x != "" && x == Trim(x))
  {
    var a := OutputLines(diffOut);
    var b := OutputLines(untrackedOut);
    OutputLinesTrimmed(diffOut);
    OutputLinesTrimmed(untrackedOut);
    forall x ensures x in ChangedFiles(diffOut, untrackedOut) <==> x in a || x in b {
      DedupMembers(a + b, x);
    }
  }

  /** The diff's files come first, in their own order, before any untracked file. */
  lemma ChangedFilesOrder(diffOut: string, untrackedOut: string)
    ensures var d := Dedup(OutputLines(diffOut));
      |d| <= |ChangedFiles(diffOut, untrackedOut)| && ChangedFiles(diffOut, untrackedOut)[..|d|] == d
  {
    DedupPrefix(OutputLines(diffOut), OutputLines(untrackedOut));
  }

  /** Every line kept is non-empty and already trimmed. */
  lemma OutputLinesTrimmed(out: string)
    ensures forall x :: x in OutputLines(out) ==> x != "" && x == Trim(x)
  {
    forall x | x in OutputLines(out) ensures x != "" && x == Trim(x) {
      TrimmedNonEmptyMembers(Split(out, '\n'), x);
      var p :| p in Split(out, '\n') && Trim(p) == x;
      TrimIdempotent(p);
    }
  }

  lemma TrimIdempotent(s: string)
    ensures Trim(Trim(s)) == Trim(s)
  {
    TrimUnchanged(Trim(s));
  }

  /** Without a server, the catalog is every client's summary in client order, then the
   *  internal tools, none of them with a schema. */
  lemma SummaryListing(host: Host, collate: Collate, args: Value)
    requires !Truthy(Get(args, "server"))
    ensures InternalResult(host, collate, Str("list"), args).Ok?
    ensures var r := InternalResult(host, collate, Str("list"), args).value;
      && r.isToolList && !r.isStructured && r.data.Catalog?
      && var tools := r.data.tools;
      && |tools| >= |InternalCatalog|
      && tools[..|tools| - |InternalCatalog|] == Summaries(host.clients)
      && tools[|tools| - |InternalCatalog|..] == Described(InternalCatalog, "internal", false)
      && forall t :: t in tools ==> t.inputSchema.None?
  {
    var s := Summaries(host.clients);
    NoSchemas(host.clients);
    var tools := s + Described(InternalCatalog, "internal", false);
    assert InternalResult(host, collate, Str("list"), args).value.data.tools == tools;
    assert tools[..|s|] == s;
    assert tools[|tools| - |InternalCatalog|..] == Described(InternalCatalog, "internal", false);
    forall t | t in tools ensures t.inputSchema.None? {
      if t !in s {
        var i :| 0 <= i < |InternalCatalog| && Described(InternalCatalog, "internal", false)[i] == t;
      }
    }
  }

  lemma {:induction false} NoSchemas(clients: seq<(string, Client)>)
    ensures forall t :: t in Summaries(clients) ==> t.inputSchema.None?
  {
    if clients != [] {
      NoSchemas(clients[..|clients| - 1]);
    }
  }

  /** A client whose listTools rejects appears in the summary as one entry naming the
   *  error as String prints it, between the entries of the clients before and after it. */
  lemma FailingClientReported(clients: seq<(string, Client)>, i: nat)
    requires i < |clients| && clients[i].1.listTools.Err?
    ensures Summaries(clients)
         == Summaries(clients[..i]) + [ToolInfo(clients[i].0, "Error: " + clients[i].1.listTools.error.shown, "", None)]
            + Summaries(clients[i + 1..])
  {
    SummariesAt(clients, i);
  }

  /** A client whose listTools answers contributes its tools, without schemas, between the
   *  entries of the clients before and after it. */
  lemma ListedClientReported(clients: seq<(string, Client)>, i: nat)
    requires i < |clients| && clients[i].1.listTools.Ok?
    ensures Summaries(clients)
         == Summaries(clients[..i]) + Described(clients[i].1.listTools.value, clients[i].0, false)
            + Summaries(clients[i + 1..])
  {
    SummariesAt(clients, i);
  }

  /** The summary of a run of clients is each client's contribution in turn. */
  lemma {:induction false} SummariesAt(clients: seq<(string, Client)>, i: nat)
    requires i < |clients|
    ensures Summaries(clients)
         == Summaries(clients[..i]) + ClientSummary(clients[i].0, clients[i].1) + Summaries(clients[i + 1..])
  {
    var n := |clients| - 1;
    var init := clients[..n];
    var last := ClientSummary(clients[n].0, clients[n].1);
    if i == n {
      assert clients[i + 1..] == [];
    } else {
      SummariesAt(init, i);
      assert init[..i] == clients[..i] && init[i] == clients[i];
      var rest := clients[i + 1..];
      assert rest[..|rest| - 1] == init[i + 1..] && rest[|rest| - 1] == clients[n];
      var before := Summaries(clients[..i]) + ClientSummary(clients[i].0, clients[i].1);
      assert Summaries(clients) == before + Summaries(init[i + 1..]) + last;
      AppendAssoc(before, Summaries(init[i + 1..]), last);
    }
  }

  /** With server `internal`, the catalog is the eight internal tools with their schemas. */
  lemma InternalListing(host: Host, collate: Collate, fields: seq<(string, Value)>)
    requires Lookup(fields, "server") == Str("internal")
    ensures var r := InternalResult(host, collate, Str("list"), Obj(fields));
      && r.Ok? && r.value.isToolList && r.value.data.Catalog?
      && |r.value.data.tools| == 8
      && forall t :: t in r.value.data.tools ==> t.server == "internal" && t.inputSchema.Some?
  {
  }

  /** A server that is neither `internal` nor connected is refused. */
  lemma UnknownServer(host: Host, collate: Collate, fields: seq<(string, Value)>, name: string)
    requires Lookup(fields, "server") == Str(name) && name != "" && name != "internal"
    requires forall i :: 0 <= i < |host.clients| ==> host.clients[i].0 != name
    ensures InternalResult(host, collate, Str("list"), Obj(fields)) == Err("Server not found")
  {
  }

  /** Only `list` sets the tool-list flag and only list_directory the structured flag. */
  lemma Flags(host: Host, collate: Collate, toolName: Value, args: Value)
    ensures var r := InternalResult(host, collate, toolName, args);
      r.Ok? ==>
        && (r.value.isToolList <==> toolName == Str("list"))
        && (r.value.isStructured <==> toolName == Str("list_directory"))
  {
  }
}
