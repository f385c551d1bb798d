/**
 * The extension's result formatter: formatCommandResult turns the data of a successful
 * invocation into the text that is previewed and copied, dispatching on the payload's
 * shape and then on the tool name; formatToolList renders a tool catalog grouped by
 * server.
 */
module Formatter {
  import opened Wrappers
  import opened JsText
  import opened JsValue
  import opened Protocol
  import opened LanguageConfig
  import opened Collections

  /** JSON.stringify(v, null, 2), an oracle. */
  type Stringify = Value -> string

  // ---------------------------------------------------------------------------
  // Server lists

  const ServersHeader: string := "\U{1F4E6} AVAILABLE SERVERS\n"

  function ServerLines(items: seq<string>): (r: seq<string>)
    ensures |r| == |items|
    ensures forall i :: 0 <= i < |items| ==> r[i] == "- mcp:" + items[i]
  {
    seq(|items|, i requires 0 <= i < |items| => "- mcp:" + items[i])
  }

  /** The text of a non-empty list of server names. */
  function FormatServers(items: seq<string>): string {
    ServersHeader + Join(ServerLines(items), "\n")
  }

  /** After the header, the text splits back into one `- mcp:<s>` line per server, in
   *  order, as long as no name contains a line break. */
  lemma ServerListLines(items: seq<string>)
    requires |items| > 0
    requires forall i :: 0 <= i < |items| ==> '\n' !in items[i]
    ensures StartsWith(FormatServers(items), ServersHeader)
    ensures Split(FormatServers(items)[|ServersHeader|..], '\n') == ServerLines(items)
  {
    var lines := ServerLines(items);
    var text := FormatServers(items);
    assert text[..|ServersHeader|] == ServersHeader;
    assert text[|ServersHeader|..] == Join(lines, "\n");
    forall i | 0 <= i < |lines| ensures '\n' !in lines[i] {
      assert lines[i] == "- mcp:" + items[i];
      assert forall k :: 0 <= k < 6 ==> lines[i][k] == "- mcp:"[k];
    }
    assert "\n" == ['\n'];
    SplitJoin(lines, '\n');
  }

  // ---------------------------------------------------------------------------
  // Directory listings

  /** The directories of a listing, in input order. */
  function Dirs(es: seq<FileEntry>): (r: seq<FileEntry>)
    ensures forall i :: 0 <= i < |r| ==> r[i].isDirectory
  {
    if es == [] then []
    else Dirs(es[..|es| - 1]) + (if es[|es| - 1].isDirectory then [es[|es| - 1]] else [])
  }

  /** The other entries of a listing, in input order. */
  function Files(es: seq<FileEntry>): (r: seq<FileEntry>)
    ensures forall i :: 0 <= i < |r| ==> !r[i].isDirectory
  {
    if es == [] then []
    else Files(es[..|es| - 1]) + (if es[|es| - 1].isDirectory then [] else [es[|es| - 1]])
  }

  /** One line per entry: the directories with a trailing `/`, then the files. */
  function ListingLines(es: seq<FileEntry>): (r: seq<string>)
    ensures |r| == |Dirs(es)| + |Files(es)|
    ensures forall i :: 0 <= i < |Dirs(es)| ==> r[i] == Dirs(es)[i].name + "/"
    ensures forall j :: 0 <= j < |Files(es)| ==> r[|Dirs(es)| + j] == Files(es)[j].name
  {
    var ds := Dirs(es);
    var fs := Files(es);
    seq(|ds|, i requires 0 <= i < |ds| => ds[i].name + "/")
      + seq(|fs|, j requires 0 <= j < |fs| => fs[j].name)
  }

  /** The two groups split the listing: together they hold exactly its entries. */
  lemma {:induction false} ListingPartition(es: seq<FileEntry>)
    ensures multiset(Dirs(es)) + multiset(Files(es)) == multiset(es)
    ensures |ListingLines(es)| == |es|
  {
    if es != [] {
      var init := es[..|es| - 1];
      ListingPartition(init);
      assert es == init + [es[|es| - 1]];
    }
  }

  lemma {:induction false} DirsKeepOrder(xs: seq<FileEntry>, ys: seq<FileEntry>)
    ensures Dirs(xs + ys) == Dirs(xs) + Dirs(ys)
    decreases |ys|
  {
    if ys == [] {
      assert xs + ys == xs;
    } else {
      var init := ys[..|ys| - 1];
      DirsKeepOrder(xs, init);
      assert (xs + ys)[..|xs + ys| - 1] == xs + init;
      assert (xs + ys)[|xs + ys| - 1] == ys[|ys| - 1];
    }
  }

  lemma {:induction false} FilesKeepOrder(xs: seq<FileEntry>, ys: seq<FileEntry>)
    ensures Files(xs + ys) == Files(xs) + Files(ys)
    decreases |ys|
  {
    if ys == [] {
      assert xs + ys == xs;
    } else {
      var init := ys[..|ys| - 1];
      FilesKeepOrder(xs, init);
      assert (xs + ys)[..|xs + ys| - 1] == xs + init;
      assert (xs + ys)[|xs + ys| - 1] == ys[|ys| - 1];
    }
  }

  /** Each group keeps input order: the groups of a concatenation are concatenated. */
  lemma ListingKeepsOrder(xs: seq<FileEntry>, ys: seq<FileEntry>)
    ensures Dirs(xs + ys) == Dirs(xs) + Dirs(ys)
    ensures Files(xs + ys) == Files(xs) + Files(ys)
  {
    DirsKeepOrder(xs, ys);
    FilesKeepOrder(xs, ys);
  }

  // ---------------------------------------------------------------------------
  // Tool catalogs (formatToolList)

  const DetailsTitle: string := "\U{1F4E6} MCP TOOLS DETAILS (Full Schema)\n"
  const SummaryTitle: string := "\U{1F4E6} MCP TOOLS SUMMARY (Names Only)\n"
  const Tip: string := "Tip: Click suggested commands above to see details.\n"
  const ArgPrefix: string := "  \U{2502}      \U{2514}\U{2500} "
  const ToolPrefix: string := "  \U{251C}\U{2500} \U{1F6E0}\U{FE0F}  "
  const DescPrefix: string := "  \U{2502}    Desc: "
  const ArgsHeader: string := "  \U{2502}    Args:"
  const ToolSpacer: string := "  \U{2502}"
  const PushError: string := "grouped[t.server].push is not a function"

  /** A catalog is detailed when its first entry carries an input schema. */
  predicate IsDetailed(tools: seq<ToolInfo>) {
    |tools| > 0 && tools[0].inputSchema.Some?
  }

  /** The title, followed by the tip in a summary. */
  function HeaderLines(detailed: bool): seq<string> {
    if detailed then [DetailsTitle] else [SummaryTitle, Tip]
  }

  /** The server of each tool, in order. */
  function ServersOf(tools: seq<ToolInfo>): (r: seq<string>)
    ensures |r| == |tools|
    ensures forall i :: 0 <= i < |tools| ==> r[i] == tools[i].server
  {
    seq(|tools|, i requires 0 <= i < |tools| => tools[i].server)
  }

  /** The tools of one server, in input order. */
  function Group(tools: seq<ToolInfo>, server: string): (r: seq<ToolInfo>)
    ensures forall i :: 0 <= i < |r| ==> r[i].server == server
  {
    if tools == [] then []
    else
      var last := tools[|tools| - 1];
      Group(tools[..|tools| - 1], server) + (if last.server == server then [last] else [])
  }

  /** Whether a tool's server names a property every object inherits. For such a name,
   *  `grouped[t.server]` reads the inherited property, which is truthy, so no list is
   *  created, and the push that follows is not a function call. */
  predicate InheritedServer(tools: seq<ToolInfo>) {
    exists i :: 0 <= i < |tools| && tools[i].server in InheritedNames
  }

  /** The servers in the order Object.entries lists the dictionary's keys. */
  function ServerOrder(tools: seq<ToolInfo>): seq<string> {
    OwnKeyOrder(Dedup(ServersOf(tools)))
  }

  /** `description.replace(/\n/g, " ")`. */
  function NewlinesToSpaces(s: string): (r: string)
    ensures |r| == |s|
    ensures forall i :: 0 <= i < |s| ==> r[i] == (if s[i] == '\n' then ' ' else s[i])
  {
    seq(|s|, i requires 0 <= i < |s| => if s[i] == '\n' then ' ' else s[i])
  }

  /** The key of each property, in creation order. */
  function PropKeys(props: seq<(string, PropInfo)>): (r: seq<string>)
    ensures |r| == |props|
    ensures forall i :: 0 <= i < |props| ==> r[i] == props[i].0
  {
    seq(|props|, i requires 0 <= i < |props| => props[i].0)
  }

  /** `props[key]`: the last binding of the key. */
  function PropOf(props: seq<(string, PropInfo)>, key: string): PropInfo {
    if props == [] then PropInfo(None, None)
    else if props[|props| - 1].0 == key then props[|props| - 1].1
    else PropOf(props[..|props| - 1], key)
  }

  /** The properties as `Object.keys(props).forEach` visits them: each key once, in
   *  own-key order, with `props[key]`. */
  function SchemaEntries(props: seq<(string, PropInfo)>): (r: seq<(string, PropInfo)>)
  {
    var keys := OwnKeyOrder(Dedup(PropKeys(props)));
    seq(|keys|, i requires 0 <= i < |keys| => (keys[i], PropOf(props, keys[i])))
  }

  /** One argument line: the name, `*` when required, the type and the description. */
  function ArgLine(key: string, prop: PropInfo, required: seq<string>): string {
    ArgPrefix + key + (if key in required then "*" else "")
      + (match prop.typ case Some(t) => " (" + t + ")" case None => "")
      + (match prop.description case Some(d) => ": " + d case None => "")
  }

  function ArgLines(props: seq<(string, PropInfo)>, required: seq<string>): (r: seq<string>)
    ensures |r| == |props|
  {
    if props == [] then []
    else
      var last := props[|props| - 1];
      ArgLines(props[..|props| - 1], required) + [ArgLine(last.0, last.1, required)]
  }

  /** The description line, when the description is not empty. */
  function DescriptionLines(description: string): seq<string> {
    if description != "" then [DescPrefix + NewlinesToSpaces(description)] else []
  }

  /** The arguments of a schema, headed by `Args:`, when it has properties. */
  function ArgsLines(schema: Option<Schema>): seq<string> {
    match schema
    case None => []
    case Some(s) =>
      var entries := SchemaEntries(s.properties);
      if entries == [] then [] else [ArgsHeader] + ArgLines(entries, s.required)
  }

  /** The lines of one tool: its name, its description, its arguments, and a spacer. */
  function ToolLines(t: ToolInfo): seq<string> {
    [ToolPrefix + t.name] + DescriptionLines(t.description) + ArgsLines(t.inputSchema) + [ToolSpacer]
  }

  function ToolsLines(tools: seq<ToolInfo>): seq<string> {
    if tools == [] then []
    else ToolsLines(tools[..|tools| - 1]) + ToolLines(tools[|tools| - 1])
  }

  /** A server's block: its heading, its tools' lines, and a blank line. */
  function Block(server: string, tools: seq<ToolInfo>): seq<string> {
    ["SERVER: " + server] + ToolsLines(tools) + [""]
  }

  function GroupLines(server: string, tools: seq<ToolInfo>): seq<string> {
    Block(server, Group(tools, server))
  }

  function GroupsLines(order: seq<string>, tools: seq<ToolInfo>): seq<string> {
    if order == [] then []
    else GroupsLines(order[..|order| - 1], tools) + GroupLines(order[|order| - 1], tools)
  }

  /** The lines formatToolList joins: the title (and tip), then one block per server in
   *  the dictionary's key order. `detailed` is whether the first entry binds
   *  `inputSchema`. */
  function CatalogLines(detailed: bool, tools: seq<ToolInfo>): seq<string> {
    HeaderLines(detailed) + GroupsLines(ServerOrder(tools), tools)
  }

  /** formatToolList: the joined lines, or the TypeError of the grouping loop. */
  function CatalogText(detailed: bool, tools: seq<ToolInfo>): Result<string, string> {
    if InheritedServer(tools) then Err(PushError) else Ok(Join(CatalogLines(detailed, tools), "\n"))
  }

  /** formatToolList on a catalog that arrives as records. */
  function ToolListText(tools: seq<ToolInfo>): Result<string, string> {
    CatalogText(IsDetailed(tools), tools)
  }

  /** The dictionary and key order formatToolList has built after the tools xs, none of
   *  which names an inherited property. */
  ghost predicate GroupedAs(grouped: map<string, seq<ToolInfo>>, order: seq<string>, xs: seq<ToolInfo>) {
    && order == Dedup(ServersOf(xs))
    && (forall s :: s in grouped <==> s in order)
    && (forall s :: s in grouped ==> grouped[s] == Group(xs, s))
    && (forall s :: s in grouped ==> s !in InheritedNames)
  }

  /** One pass of the forEach: read the server's entry, create its list if the entry is
   *  falsy, then push. An inherited property is truthy and has no push. */
  method AddTool(grouped: map<string, seq<ToolInfo>>, order: seq<string>, ghost xs: seq<ToolInfo>, t: ToolInfo)
    returns (r: Result<(map<string, seq<ToolInfo>>, seq<string>), string>)
    requires GroupedAs(grouped, order, xs)
    ensures r.Err? <==> t.server in InheritedNames
    ensures r.Err? ==> r.error == PushError
    ensures r.Ok? ==> GroupedAs(r.value.0, r.value.1, xs + [t])
  {
    if t.server !in grouped && t.server in InheritedNames {
      return Err(PushError);
    }
    var grouped', order' := grouped, order;
    if t.server !in grouped' {
      grouped' := grouped'[t.server := []];
      order' := order' + [t.server];
    }
    grouped' := grouped'[t.server := grouped'[t.server] + [t]];
    GroupedStep(grouped, order, xs, t, grouped', order');
    r := Ok((grouped', order'));
  }

  /** Every server of a grouped list is a key, so none is inherited. */
  lemma GroupedNotInherited(grouped: map<string, seq<ToolInfo>>, order: seq<string>, xs: seq<ToolInfo>)
    requires GroupedAs(grouped, order, xs)
    ensures !InheritedServer(xs)
  {
    forall i | 0 <= i < |xs| ensures xs[i].server !in InheritedNames {
      assert ServersOf(xs)[i] in order;
    }
  }

  /** The dictionary and key order after one more tool. */
  lemma GroupedStep(grouped: map<string, seq<ToolInfo>>, order: seq<string>, xs: seq<ToolInfo>, t: ToolInfo,
                     grouped': map<string, seq<ToolInfo>>, order': seq<string>)
    requires GroupedAs(grouped, order, xs) && t.server !in InheritedNames
    requires t.server in grouped ==> grouped' == grouped[t.server := grouped[t.server] + [t]] && order' == order
    requires t.server !in grouped ==> grouped' == grouped[t.server := []][t.server := [] + [t]] && order' == order + [t.server]
    ensures GroupedAs(grouped', order', xs + [t])
  {
    KeysStep(grouped, order, xs, t, grouped', order');
    GroupsStep(grouped, order, xs, t, grouped', order');
  }

  lemma KeysStep(grouped: map<string, seq<ToolInfo>>, order: seq<string>, xs: seq<ToolInfo>, t: ToolInfo,
                 grouped': map<string, seq<ToolInfo>>, order': seq<string>)
    requires GroupedAs(grouped, order, xs) && t.server !in InheritedNames
    requires t.server in grouped ==> grouped' == grouped[t.server := grouped[t.server] + [t]] && order' == order
    requires t.server !in grouped ==> grouped' == grouped[t.server := []][t.server := [] + [t]] && order' == order + [t.server]
    ensures order' == Dedup(ServersOf(xs + [t]))
    ensures forall s :: s in grouped' <==> s in order'
    ensures forall s :: s in grouped' ==> s !in InheritedNames
  {
    assert ServersOf(xs + [t]) == ServersOf(xs) + [t.server];
  }

  lemma GroupsStep(grouped: map<string, seq<ToolInfo>>, order: seq<string>, xs: seq<ToolInfo>, t: ToolInfo,
                   grouped': map<string, seq<ToolInfo>>, order': seq<string>)
    requires GroupedAs(grouped, order, xs)
    requires t.server in grouped ==> grouped' == grouped[t.server := grouped[t.server] + [t]]
    requires t.server !in grouped ==> grouped' == grouped[t.server := []][t.server := [] + [t]]
    ensures forall s :: s in grouped' ==> grouped'[s] == Group(xs + [t], s)
  {
    var ys := xs + [t];
    assert ys[..|xs|] == xs;
    if t.server !in grouped {
      GroupAbsent(xs, t.server);
    }
  }

  /** The first loop of formatToolList: a dictionary from server to its tools and the
   *  order in which its keys were created, or the TypeError of a server that names an
   *  inherited property. */
  method GroupByServer(data: seq<ToolInfo>) returns (r: Result<(map<string, seq<ToolInfo>>, seq<string>), string>)
    ensures r.Err? <==> InheritedServer(data)
    ensures r.Err? ==> r.error == PushError
    ensures r.Ok? ==> GroupedAs(r.value.0, r.value.1, data)
  {
    var grouped: map<string, seq<ToolInfo>> := map[];
    var order: seq<string> := [];
    for k := 0 to |data|
      invariant GroupedAs(grouped, order, data[..k])
    {
      TakeSnoc(data, k);
      var step := AddTool(grouped, order, data[..k], data[k]);
      if step.Err? {
        return step;
      }
      grouped, order := step.value.0, step.value.1;
    }
    assert data[..|data|] == data;
    GroupedNotInherited(grouped, order, data);
    r := Ok((grouped, order));
  }

  /** formatToolList: groups the tools by server, then pushes the lines and joins them.
   *  `firstHasSchema` is `"inputSchema" in data[0]`, which the caller reads off the
   *  payload. */
  method FormatToolList(data: seq<ToolInfo>, firstHasSchema: bool) returns (r: Result<string, string>)
    ensures r == CatalogText(firstHasSchema, data)
  {
    var grouping := GroupByServer(data);
    if grouping.Err? {
      return Err(grouping.error);
    }
    var (grouped, order) := grouping.value;
    var lines: seq<string> := [];
    var isDetailed := firstHasSchema;
    lines := lines + [if isDetailed then DetailsTitle else SummaryTitle];
    if !isDetailed {
      lines := lines + [Tip];
    }
    assert lines == HeaderLines(firstHasSchema);
    var keys := OwnKeyOrder(order);
    KeysOwned(grouped, order, data);
    lines := EmitGroups(lines, grouped, keys, data);
    assert lines == CatalogLines(firstHasSchema, data);
    r := Ok(Join(lines, "\n"));
  }

  /** Object.entries visits the dictionary's own keys, each with its tools. */
  lemma KeysOwned(grouped: map<string, seq<ToolInfo>>, order: seq<string>, data: seq<ToolInfo>)
    requires GroupedAs(grouped, order, data)
    ensures forall s :: s in OwnKeyOrder(order) ==> s in grouped && grouped[s] == Group(data, s)
  {
    OwnKeyOrderPermutes(order);
  }

  /** The loop over the dictionary's entries, in the given key order. */
  method EmitGroups(lines: seq<string>, grouped: map<string, seq<ToolInfo>>, order: seq<string>, ghost data: seq<ToolInfo>)
    returns (out: seq<string>)
    requires forall s :: s in order ==> s in grouped && grouped[s] == Group(data, s)
    ensures out == lines + GroupsLines(order, data)
  {
    out := lines;
    for g := 0 to |order|
      invariant out == lines + GroupsLines(order[..g], data)
    {
      var server := order[g];
      GroupsLinesStep(order, g, data);
      out := EmitGroup(out, server, grouped[server]);
      AppendAssoc(lines, GroupsLines(order[..g], data), GroupLines(server, data));
    }
    assert order[..|order|] == order;
  }

  lemma GroupsLinesStep(order: seq<string>, g: nat, data: seq<ToolInfo>)
    requires g < |order|
    ensures order[g] in order
    ensures GroupsLines(order[..g + 1], data) == GroupsLines(order[..g], data) + GroupLines(order[g], data)
  {
    TakeSnoc(order, g);
  }

  /** One server's block: its heading, each tool's lines, and a blank line. */
  method EmitGroup(lines: seq<string>, server: string, tools: seq<ToolInfo>) returns (out: seq<string>)
    ensures out == lines + Block(server, tools)
  {
    var heading := ["SERVER: " + server];
    out := lines + heading;
    for j := 0 to |tools|
      invariant out == lines + heading + ToolsLines(tools[..j])
    {
      TakeSnoc(tools, j);
      AppendAssoc(lines + heading, ToolsLines(tools[..j]), ToolLines(tools[j]));
      out := AppendToolLines(out, tools[j]);
    }
    assert tools[..|tools|] == tools;
    out := out + [""];
    AppendAssoc(lines, heading, ToolsLines(tools));
    AppendAssoc(lines, heading + ToolsLines(tools), [""]);
  }

  /** The pushes for one tool. */
  method AppendToolLines(lines: seq<string>, t: ToolInfo) returns (out: seq<string>)
    ensures out == lines + ToolLines(t)
  {
    out := lines + [ToolPrefix + t.name];
    if t.description != "" {
      out := out + [DescPrefix + NewlinesToSpaces(t.description)];
    }
    ghost var described := out;
    if t.inputSchema.Some? {
      var entries := SchemaEntries(t.inputSchema.value.properties);
      if |entries| > 0 {
        out := AppendArgLines(out + [ArgsHeader], entries, t.inputSchema.value.required);
        AppendAssoc(described, [ArgsHeader], ArgLines(entries, t.inputSchema.value.required));
      }
    }
    assert out == described + ArgsLines(t.inputSchema);
    out := out + [ToolSpacer];
    ToolLinesAfter(lines, t, described);
  }

  lemma ToolLinesAfter(lines: seq<string>, t: ToolInfo, described: seq<string>)
    requires described == lines + [ToolPrefix + t.name] + DescriptionLines(t.description)
    ensures described + ArgsLines(t.inputSchema) + [ToolSpacer] == lines + ToolLines(t)
  {
    var a, b, c, d := [ToolPrefix + t.name], DescriptionLines(t.description), ArgsLines(t.inputSchema), [ToolSpacer];
    assert lines + a + b + c + d == lines + (a + b + c + d);
  }

  /** The loop over the schema's property keys. */
  method AppendArgLines(lines: seq<string>, entries: seq<(string, PropInfo)>, required: seq<string>)
    returns (out: seq<string>)
    ensures out == lines + ArgLines(entries, required)
  {
    out := lines;
    for k := 0 to |entries|
      invariant out == lines + ArgLines(entries[..k], required)
    {
      out := out + [ArgLine(entries[k].0, entries[k].1, required)];
      TakeSnoc(entries, k);
    }
    assert entries[..|entries|] == entries;
  }

  lemma {:induction false} GroupAbsent(tools: seq<ToolInfo>, server: string)
    requires server !in ServersOf(tools)
    ensures Group(tools, server) == []
  {
    if tools != [] {
      var init := tools[..|tools| - 1];
      assert ServersOf(tools)[..|init|] == ServersOf(init);
      assert tools[|tools| - 1].server == ServersOf(tools)[|tools| - 1];
      GroupAbsent(init, server);
    }
  }

  /** The title names the detailed form exactly when the first entry binds a schema, and
   *  the tip follows only the summary title. */
  lemma ToolListTitle(detailed: bool, tools: seq<ToolInfo>)
    ensures CatalogLines(detailed, tools)[0] == (if detailed then DetailsTitle else SummaryTitle)
    ensures !detailed ==> CatalogLines(detailed, tools)[1] == Tip
  {
  }

  /** Every tool is in its server's group; each server's block comes once; a group holds
   *  only that server's tools. */
  lemma GroupsCoverTools(tools: seq<ToolInfo>)
    ensures Distinct(ServerOrder(tools))
    ensures forall i :: 0 <= i < |tools| ==> tools[i].server in ServerOrder(tools)
    ensures forall i :: 0 <= i < |tools| ==> tools[i] in Group(tools, tools[i].server)
  {
    var d := Dedup(ServersOf(tools));
    OwnKeyOrderPermutes(d);
    DistinctPermutation(d, ServerOrder(tools));
    forall i | 0 <= i < |tools| ensures tools[i].server in ServerOrder(tools) {
      assert ServersOf(tools)[i] == tools[i].server;
    }
    forall i | 0 <= i < |tools| ensures tools[i] in Group(tools, tools[i].server) {
      InOwnGroup(tools, i);
    }
  }

  /** The blocks follow the dictionary's key order: servers whose names are array
   *  indices come first, in ascending numeric order, and the other servers follow in
   *  order of first appearance. */
  lemma ServerBlocksOrder(tools: seq<ToolInfo>)
    ensures var r := ServerOrder(tools);
      && (forall i, j :: 0 <= i < j < |r| && IsArrayIndex(r[j]) ==> IsArrayIndex(r[i]))
      && (forall i, j :: 0 <= i < j < |r| && IsArrayIndex(r[j]) ==> DigitsValue(r[i]) <= DigitsValue(r[j]))
      && ((forall i :: 0 <= i < |tools| ==> !IsArrayIndex(tools[i].server)) ==> r == Dedup(ServersOf(tools)))
  {
    var d := Dedup(ServersOf(tools));
    OwnKeyOrderIndicesFirst(d);
    if forall i :: 0 <= i < |tools| ==> !IsArrayIndex(tools[i].server) {
      forall i | 0 <= i < |d| ensures !IsArrayIndex(d[i]) {
        assert d[i] in ServersOf(tools);
      }
      OwnKeyOrderNoIndices(d);
    }
  }

  /** A server named `7` is printed before a server named `git` that comes first in the
   *  catalog. */
  lemma IndexServerFirst(a: ToolInfo, b: ToolInfo)
    requires a.server == "git" && b.server == "7"
    ensures ServerOrder([a, b]) == ["7", "git"]
    ensures CatalogLines(false, [a, b])[2] == "SERVER: 7"
  {
    TwoServersOrder(a, b);
    CatalogBlocksStart(false, [a, b]);
  }

  lemma TwoServersOrder(a: ToolInfo, b: ToolInfo)
    requires a.server == "git" && b.server == "7"
    ensures ServerOrder([a, b]) == ["7", "git"]
  {
    assert ServersOf([a, b]) == ["git", "7"];
    assert Dedup(["git", "7"]) == ["git", "7"] by {
      assert ["git", "7"][..1] == ["git"];
      assert Dedup(["git"]) == ["git"];
    }
    IndexKeyFirst();
  }

  /** The first block after the title is the first server's in key order. */
  lemma CatalogBlocksStart(detailed: bool, tools: seq<ToolInfo>)
    requires tools != []
    ensures var order := ServerOrder(tools);
      order != [] && CatalogLines(detailed, tools)[|HeaderLines(detailed)|] == "SERVER: " + order[0]
  {
    GroupsCoverTools(tools);
    var order := ServerOrder(tools);
    assert tools[0].server in order;
    GroupsLinesHead(order, tools);
  }

  lemma IndexKeyFirst()
    ensures OwnKeyOrder(["git", "7"]) == ["7", "git"]
  {
    GitSevenKeys();
    SortSingle("7", IndexLess());
  }

  lemma GitSevenKeys()
    ensures IndexKeys(["git", "7"]) == ["7"] && NamedKeys(["git", "7"]) == ["git"]
  {
    GitNotIndex();
    SevenIsIndex();
    assert ["git", "7"][..1] == ["git"];
    assert ["git"][..0] == [];
  }

  lemma GitNotIndex()
    ensures !IsArrayIndex("git")
  {
    assert !IsDigit("git"[2]);
  }

  lemma SevenIsIndex()
    ensures IsArrayIndex("7")
  {
    assert "7"[..0] == "";
    assert DigitsValue("7") == 7;
  }

  lemma SortSingle<T>(x: T, lt: (T, T) -> bool)
    ensures Sort([x], lt) == [x]
  {
    assert [x][..0] == [];
  }

  /** The first block is headed by the first server. */
  lemma {:induction false} GroupsLinesHead(order: seq<string>, tools: seq<ToolInfo>)
    requires order != []
    ensures |GroupsLines(order, tools)| > 0 && GroupsLines(order, tools)[0] == "SERVER: " + order[0]
  {
    var init := order[..|order| - 1];
    if init != [] {
      GroupsLinesHead(init, tools);
    }
  }

  lemma {:induction false} InOwnGroup(tools: seq<ToolInfo>, i: nat)
    requires i < |tools|
    ensures tools[i] in Group(tools, tools[i].server)
  {
    if i < |tools| - 1 {
      InOwnGroup(tools[..|tools| - 1], i);
    }
  }

  /** Grouping keeps input order: the group of a concatenation is the concatenation of
   *  the groups. */
  lemma {:induction false} GroupKeepsOrder(xs: seq<ToolInfo>, ys: seq<ToolInfo>, server: string)
    ensures Group(xs + ys, server) == Group(xs, server) + Group(ys, server)
    decreases |ys|
  {
    if ys == [] {
      assert xs + ys == xs;
    } else {
      var init := ys[..|ys| - 1];
      GroupKeepsOrder(xs, init, server);
      assert (xs + ys)[..|xs + ys| - 1] == xs + init;
    }
  }

  /** A description line carries no line break. */
  lemma DescriptionOnOneLine(s: string)
    ensures '\n' !in NewlinesToSpaces(s)
  {
    var r := NewlinesToSpaces(s);
    forall i | 0 <= i < |r| ensures r[i] != '\n' {
    }
  }

  /** An argument is marked `*` exactly when the schema lists it as required. */
  lemma RequiredMarked(key: string, prop: PropInfo, required: seq<string>)
    ensures key in required <==> StartsWith(ArgLine(key, prop, required), ArgPrefix + key + "*")
  {
    var line := ArgLine(key, prop, required);
    var n := |ArgPrefix + key|;
    assert line[..n] == ArgPrefix + key;
    if key !in required {
      var rest := (match prop.typ case Some(t) => " (" + t + ")" case None => "")
        + (match prop.description case Some(d) => ": " + d case None => "");
      assert line == ArgPrefix + key + rest;
      if |line| > n {
        assert line[n] == rest[0];
        assert rest[0] == ' ' || rest[0] == ':';
        assert (ArgPrefix + key + "*")[n] == '*';
      }
    }
  }

  /** The arguments are listed once per key, in own-key order, each with its last
   *  binding; a schema whose keys are distinct and not array indices keeps its order. */
  lemma SchemaEntriesOrder(props: seq<(string, PropInfo)>)
    ensures var r := SchemaEntries(props);
      && Distinct(PropKeys(r))
      && (forall k :: k in PropKeys(r) <==> k in PropKeys(props))
      && (Distinct(PropKeys(props)) && (forall i :: 0 <= i < |props| ==> !IsArrayIndex(props[i].0)) ==> r == props)
  {
    SchemaEntriesKeys(props);
    if Distinct(PropKeys(props)) && (forall i :: 0 <= i < |props| ==> !IsArrayIndex(props[i].0)) {
      SchemaEntriesKeep(props);
    }
  }

  lemma SchemaEntriesKeys(props: seq<(string, PropInfo)>)
    ensures var r := SchemaEntries(props);
      && Distinct(PropKeys(r))
      && (forall k :: k in PropKeys(r) <==> k in PropKeys(props))
  {
    var d := Dedup(PropKeys(props));
    var r := SchemaEntries(props);
    OwnKeyOrderPermutes(d);
    assert PropKeys(r) == OwnKeyOrder(d);
    DistinctPermutation(d, OwnKeyOrder(d));
    forall k ensures k in PropKeys(r) <==> k in PropKeys(props) {
      DedupMembers(PropKeys(props), k);
    }
  }

  lemma SchemaEntriesKeep(props: seq<(string, PropInfo)>)
    requires Distinct(PropKeys(props)) && forall i :: 0 <= i < |props| ==> !IsArrayIndex(props[i].0)
    ensures SchemaEntries(props) == props
  {
    var d := Dedup(PropKeys(props));
    var r := SchemaEntries(props);
    DedupDistinct(PropKeys(props));
    OwnKeyOrderNoIndices(d);
    assert |r| == |props|;
    forall i | 0 <= i < |props| ensures r[i] == props[i] {
      LastBindingDistinct(props, i);
    }
  }

  /** With distinct keys, a key's last binding is its only one. */
  lemma {:induction false} LastBindingDistinct(props: seq<(string, PropInfo)>, i: nat)
    requires i < |props| && Distinct(PropKeys(props))
    ensures PropOf(props, props[i].0) == props[i].1
  {
    var n := |props| - 1;
    if i < n {
      var init := props[..n];
      assert PropKeys(init) == PropKeys(props)[..n];
      assert PropKeys(props)[i] != PropKeys(props)[n];
      LastBindingDistinct(init, i);
    }
  }

  // ---------------------------------------------------------------------------
  // Lists that arrive as plain JSON

  /** Reading a property of null or undefined throws. */
  predicate IsNullish(v: Value) {
    v.Undefined? || v.Null?
  }

  /** `typeof data[0] === 'object' && data[0] !== null && key in data[0]` on a non-empty
   *  array: only an object's own bindings answer `in` for these keys. */
  predicate FirstBinds(v: Value, key: string) {
    v.Arr? && |v.items| > 0 && v.items[0].Obj? && Binds(v.items[0].fields, key)
  }

  /** `t.description`: printed only when truthy, and only a string has `replace`. */
  function DescriptionOf(v: Value): (r: Result<string, string>)
    ensures r.Err? <==> Truthy(v) && !v.Str?
    ensures r.Ok? && r.value != "" ==> v == Str(r.value)
  {
    if !Truthy(v) then Ok("")
    else if v.Str? then Ok(v.s)
    else Err("t.description.replace is not a function")
  }

  /** `prop.type` or `prop.description` in an argument line: printed when truthy. */
  function Printed(v: Value): Option<string> {
    if Truthy(v) then Some(ToJsString(v)) else None
  }

  /** `props[key]` for one argument: reading its type throws on null or undefined. */
  function PropFrom(v: Value): (r: Result<PropInfo, string>)
    ensures r.Err? <==> IsNullish(v)
  {
    if IsNullish(v) then Err("Cannot read properties of " + ToJsString(v) + " (reading 'type')")
    else Ok(PropInfo(Printed(Get(v, "type")), Printed(Get(v, "description"))))
  }

  /** The own keys of `t.inputSchema?.properties || {}` in creation order, each with
   *  `props[key]`: an object's keys, or the indices of an array or a string. Numbers
   *  and booleans have none. */
  function RawProperties(props: Value): seq<(string, Value)> {
    match props
    case Obj(fields) =>
      var keys := Dedup(FieldKeys(fields));
      seq(|keys|, i requires 0 <= i < |keys| => (keys[i], Lookup(fields, keys[i])))
    case Arr(items) => seq(|items|, i requires 0 <= i < |items| => (NatToString(i), items[i]))
    case Str(s) => seq(|s|, i requires 0 <= i < |s| => (NatToString(i), Str([s[i]])))
    case _ => []
  }

  function PropsFrom(raw: seq<(string, Value)>): (r: Result<seq<(string, PropInfo)>, string>)
    ensures r.Err? <==> exists i :: 0 <= i < |raw| && IsNullish(raw[i].1)
    ensures r.Ok? ==>
      && |r.value| == |raw|
      && forall i :: 0 <= i < |raw| ==> r.value[i] == (raw[i].0, PropFrom(raw[i].1).value)
  {
    if raw == [] then Ok([])
    else
      var last := raw[|raw| - 1];
      match PropsFrom(raw[..|raw| - 1])
      case Err(e) =>
        assert exists i :: 0 <= i < |raw| && IsNullish(raw[i].1) by {
          var i :| 0 <= i < |raw| - 1 && IsNullish(raw[..|raw| - 1][i].1);
          assert raw[i] == raw[..|raw| - 1][i];
        }
        Err(e)
      case Ok(init) =>
        match PropFrom(last.1)
        case Err(e) => Err(e)
        case Ok(p) =>
          assert forall i :: 0 <= i < |raw| - 1 ==> raw[i] == raw[..|raw| - 1][i];
          Ok(init + [(last.0, p)])
  }

  /** `new Set(t.inputSchema?.required || [])` as `has` sees it: the strings of an array,
   *  the characters of a string, nothing for a falsy value; anything else truthy is not
   *  iterable. */
  function RequiredFrom(v: Value): (r: Result<seq<string>, string>)
    ensures r.Err? <==> Truthy(v) && !v.Arr? && !v.Str?
  {
    match v
    case Arr(items) => Ok(StringItems(items))
    case Str(s) => Ok(CharStrings(s))
    case _ => if Truthy(v) then Err("object is not iterable") else Ok([])
  }

  /** Each character of a string as a string of its own. */
  function CharStrings(s: string): (r: seq<string>)
    ensures |r| == |s| && forall i :: 0 <= i < |s| ==> r[i] == [s[i]]
  {
    seq(|s|, i requires 0 <= i < |s| => [s[i]])
  }

  /** The strings among an array's items, in order. */
  function StringItems(items: seq<Value>): seq<string> {
    if items == [] then []
    else
      var last := items[|items| - 1];
      assert items == items[..|items| - 1] + [last];
      StringItems(items[..|items| - 1]) + (if last.Str? then [last.s] else [])
  }

  /** A name counts as required exactly when the array holds it as a string. */
  lemma {:induction false} RequiredHas(items: seq<Value>, k: string)
    ensures k in StringItems(items) <==> Str(k) in items
  {
    if items != [] {
      var init := items[..|items| - 1];
      RequiredHas(init, k);
      assert items == init + [items[|items| - 1]];
    }
  }

  /** A truthy `t.inputSchema` as the argument loop reads it; the Set of required names
   *  is built before the properties are read. */
  function SchemaFrom(v: Value): Result<Schema, string> {
    var props := Get(v, "properties");
    match RequiredFrom(Get(v, "required"))
    case Err(e) => Err(e)
    case Ok(required) =>
      match PropsFrom(RawProperties(if Truthy(props) then props else EmptyObject))
      case Err(e) => Err(e)
      case Ok(properties) => Ok(Schema(properties, required))
  }

  /** One entry of a tool list as formatToolList reads it: `${t.server}` as the
   *  dictionary key, `${t.name}`, the description, and the schema when truthy. */
  function ToolFrom(item: Value): Result<ToolInfo, string> {
    if IsNullish(item) then Err("Cannot read properties of " + ToJsString(item) + " (reading 'server')")
    else
      var schema := Get(item, "inputSchema");
      match DescriptionOf(Get(item, "description"))
      case Err(e) => Err(e)
      case Ok(description) =>
        if !Truthy(schema) then Ok(ToolInfo(ToJsString(Get(item, "server")), ToJsString(Get(item, "name")), description, None))
        else match SchemaFrom(schema)
          case Err(e) => Err(e)
          case Ok(s) => Ok(ToolInfo(ToJsString(Get(item, "server")), ToJsString(Get(item, "name")), description, Some(s)))
  }

  /** The schema is unreadable exactly when `required` is not iterable or a property
   *  is null or undefined. */
  lemma SchemaFromErrors(v: Value)
    ensures SchemaFrom(v).Err? <==>
      || RequiredFrom(Get(v, "required")).Err?
      || (var props := Get(v, "properties");
          exists i :: 0 <= i < |RawProperties(props)| && IsNullish(RawProperties(props)[i].1))
  {
  }

  /** An entry is unreadable exactly when it is null or undefined, its description is a
   *  truthy non-string, or its schema is truthy and unreadable; otherwise the server and
   *  name are the entry's, printed, and the schema is there exactly when truthy. */
  lemma ToolFromErrors(item: Value)
    ensures var r := ToolFrom(item);
      && (r.Err? <==>
          || IsNullish(item)
          || DescriptionOf(Get(item, "description")).Err?
          || (Truthy(Get(item, "inputSchema")) && SchemaFrom(Get(item, "inputSchema")).Err?))
      && (r.Ok? ==>
          && r.value.server == ToJsString(Get(item, "server"))
          && r.value.name == ToJsString(Get(item, "name"))
          && (r.value.inputSchema.Some? <==> Truthy(Get(item, "inputSchema"))))
  {
  }

  function ToolsFrom(items: seq<Value>): (r: Result<seq<ToolInfo>, string>)
    ensures r.Err? <==> exists i :: 0 <= i < |items| && ToolFrom(items[i]).Err?
    ensures r.Ok? ==> |r.value| == |items| && forall i :: 0 <= i < |items| ==> r.value[i] == ToolFrom(items[i]).value
  {
    if items == [] then Ok([])
    else
      match ToolsFrom(items[..|items| - 1])
      case Err(e) =>
        assert exists i :: 0 <= i < |items| && ToolFrom(items[i]).Err? by {
          var i :| 0 <= i < |items| - 1 && ToolFrom(items[..|items| - 1][i]).Err?;
          assert items[i] == items[..|items| - 1][i];
        }
        Err(e)
      case Ok(init) =>
        match ToolFrom(items[|items| - 1])
        case Err(e) => Err(e)
        case Ok(t) =>
          assert forall i :: 0 <= i < |items| - 1 ==> items[i] == items[..|items| - 1][i];
          Ok(init + [t])
  }

  /** One entry of a directory listing as the filters and maps read it: whether
   *  `isDirectory` is truthy, and the name as `${d.name}/` prints a directory's and
   *  `join` prints a file's (null and undefined as ""). The path is not read. */
  function EntryFrom(item: Value): (r: Result<FileEntry, string>)
    ensures r.Err? <==> IsNullish(item)
  {
    if IsNullish(item) then Err("Cannot read properties of " + ToJsString(item) + " (reading 'isDirectory')")
    else
      var isDir := Truthy(Get(item, "isDirectory"));
      var name := Get(item, "name");
      var path := Get(item, "path");
      Ok(FileEntry(
        if isDir || !IsNullish(name) then ToJsString(name) else "",
        isDir,
        if path.Str? then path.s else ""))
  }

  function EntriesFrom(items: seq<Value>): (r: Result<seq<FileEntry>, string>)
    ensures r.Err? <==> exists i :: 0 <= i < |items| && IsNullish(items[i])
    ensures r.Ok? ==> |r.value| == |items| && forall i :: 0 <= i < |items| ==> r.value[i] == EntryFrom(items[i]).value
  {
    if items == [] then Ok([])
    else
      match EntriesFrom(items[..|items| - 1])
      case Err(e) =>
        assert exists i :: 0 <= i < |items| && IsNullish(items[i]) by {
          var i :| 0 <= i < |items| - 1 && IsNullish(items[..|items| - 1][i]);
          assert items[i] == items[..|items| - 1][i];
        }
        Err(e)
      case Ok(init) =>
        var last := items[|items| - 1];
        match EntryFrom(last)
        case Err(e) =>
          assert IsNullish(last);
          Err(e)
        case Ok(t) =>
          assert forall i :: 0 <= i < |items| - 1 ==> items[i] == items[..|items| - 1][i];
          assert forall i :: 0 <= i < |items| - 1 ==> !IsNullish(items[i]);
          Ok(init + [t])
  }

  // ---------------------------------------------------------------------------
  // formatCommandResult

  /** `args?.<key> || "."` as text. */
  function PathOrDot(args: Value, key: string): string {
    var v := Get(args, key);
    if Truthy(v) then ToJsString(v) else "."
  }

  /** The directory case: the listing fenced under `fold: <path or .>`. */
  function ListingText(args: Value, es: seq<FileEntry>): string {
    "fold: " + PathOrDot(args, "path") + "\n```text\n" + Join(ListingLines(es), "\n") + "\n```"
  }

  /** The cases for a result that is not an object: String(data) tagged by tool name.
   *  read_file with a non-string path throws when the path is split for its extension. */
  function FormatText(toolName: string, args: Value, content: string): (r: Result<string, string>)
    ensures r.Err? <==> toolName == "read_file" && Truthy(Get(args, "path")) && !Get(args, "path").Str?
  {
    var path := Get(args, "path");
    if toolName == "read_file" && Truthy(path) then
      match path
      case Str(p) => Ok("file: " + p + "\n```" + LanguageFromPath(p) + "\n" + content + "\n```")
      case _ => Err("path.split is not a function")
    else if toolName == "get_tree" then
      Ok("fold: " + PathOrDot(args, "root") + "\n```text\n" + content + "\n```")
    else if toolName == "git_status" then
      Ok("```text\n" + content + "\n```")
    else if toolName == "git_diff" || toolName == "get_file_diff" then
      var header := if Truthy(path) then "file: " + ToJsString(path) + " (diff)\n" else "";
      Ok(header + "```diff\n" + content + "\n```")
    else Ok(content)
  }

  /** Whether a payload reaches the string cases (it is not an object or array). */
  predicate IsTextLike(data: Payload) {
    data.Text? || (data.Object? && !data.value.Obj? && !data.value.Arr?)
  }

  /** A JSON array whose first item is an object binding `isDirectory` but not `server`. */
  predicate IsListingArray(v: Value) {
    FirstBinds(v, "isDirectory") && !FirstBinds(v, "server")
  }

  /** The tool-list case on plain JSON: formatToolList on the entries as it reads them. */
  function ToolArrayText(items: seq<Value>): Result<string, string>
    requires |items| > 0 && items[0].Obj?
  {
    match ToolsFrom(items)
    case Err(e) => Err(e)
    case Ok(tools) => CatalogText(Binds(items[0].fields, "inputSchema"), tools)
  }

  /** The directory case on plain JSON. */
  function ListingArrayText(args: Value, items: seq<Value>): Result<string, string> {
    match EntriesFrom(items)
    case Err(e) => Err(e)
    case Ok(es) => Ok(ListingText(args, es))
  }

  /** formatCommandResult: the first matching shape decides. It fails for read_file with
   *  a truthy non-string path, for a tool list with an unreadable entry or a server
   *  named after an inherited property, and for a listing with a null entry. */
  function FormatResult(toolName: string, args: Value, data: Payload, stringify: Stringify): (r: Result<string, string>)
    ensures IsTextLike(data) ==>
      (r.Err? <==> toolName == "read_file" && Truthy(Get(args, "path")) && !Get(args, "path").Str?)
    ensures data.StringList? || data.DirEntries? || (data.Object? && data.value.Obj?) ==> r.Ok?
    ensures data.Catalog? ==> (r.Err? <==> InheritedServer(data.tools))
  {
    match data
    case StringList(items) =>
      if items != [] then Ok(FormatServers(items)) else Ok(stringify(Arr([])))
    case Catalog(tools) =>
      if tools != [] then ToolListText(tools) else Ok(stringify(Arr([])))
    case DirEntries(es) =>
      if es != [] then Ok(ListingText(args, es)) else Ok(stringify(Arr([])))
    case Object(v) =>
      if v.Arr? && |v.items| > 0 && v.items[0].Str? then
        Ok(FormatServers(seq(|v.items|, i requires 0 <= i < |v.items| => ToJsString(v.items[i]))))
      else if FirstBinds(v, "server") then ToolArrayText(v.items)
      else if IsListingArray(v) then ListingArrayText(args, v.items)
      else if v.Obj? || v.Arr? then Ok(stringify(v))
      else FormatText(toolName, args, ToJsString(v))
    case Text(t) => FormatText(toolName, args, t)
  }

  /** On plain JSON, a tool list fails exactly when an entry cannot be read or names a
   *  server after an inherited property, and a listing exactly when an entry is null or
   *  undefined. */
  lemma JsonListErrors(toolName: string, args: Value, v: Value, stringify: Stringify)
    ensures FirstBinds(v, "server") ==>
      var r := FormatResult(toolName, args, Object(v), stringify);
      (r.Err? <==>
        || (exists i :: 0 <= i < |v.items| && ToolFrom(v.items[i]).Err?)
        || (exists i :: 0 <= i < |v.items| && ToolFrom(v.items[i]).Ok? && ToolFrom(v.items[i]).value.server in InheritedNames))
    ensures IsListingArray(v) ==>
      (FormatResult(toolName, args, Object(v), stringify).Err? <==> exists i :: 0 <= i < |v.items| && IsNullish(v.items[i]))
  {
    if FirstBinds(v, "server") {
      ToolArrayDispatch(toolName, args, v, stringify);
      var tools := ToolsFrom(v.items);
      if tools.Ok? {
        assert InheritedServer(tools.value) <==>
          exists i :: 0 <= i < |v.items| && ToolFrom(v.items[i]).Ok? && ToolFrom(v.items[i]).value.server in InheritedNames;
      }
    }
    if IsListingArray(v) {
      ListingArrayDispatch(toolName, args, v, stringify);
    }
  }

  /** A string from any tool without a case of its own is returned unchanged. */
  lemma OtherToolsPassThrough(toolName: string, args: Value, t: string, stringify: Stringify)
    requires toolName !in {"read_file", "get_tree", "git_status", "git_diff", "get_file_diff"}
    ensures FormatResult(toolName, args, Text(t), stringify) == Ok(t)
  {
  }

  /** Any other non-null object, an array of other shapes, and an empty list of any shape
   *  are pretty JSON. */
  lemma ObjectsAsJson(toolName: string, args: Value, data: Payload, stringify: Stringify)
    ensures data.Object? && data.value.Obj? ==> FormatResult(toolName, args, data, stringify) == Ok(stringify(data.value))
    ensures data.Object? && data.value.Arr? && (data.value.items == [] || !(data.value.items[0].Str? || data.value.items[0].Obj?))
            ==> FormatResult(toolName, args, data, stringify) == Ok(stringify(data.value))
    ensures (data == StringList([]) || data == Catalog([]) || data == DirEntries([]))
            ==> FormatResult(toolName, args, data, stringify) == Ok(stringify(Arr([])))
  {
  }

  /** A read_file result with a string path is headed by the path and fenced with the
   *  path's language tag, which is one of the table's tags or "". */
  lemma ReadFileFence(args: Value, t: string, p: string, stringify: Stringify)
    requires Get(args, "path") == Str(p) && p != ""
    ensures var tag := LanguageFromPath(p);
            && FormatResult("read_file", args, Text(t), stringify) == Ok("file: " + p + "\n```" + tag + "\n" + t + "\n```")
            && (tag == "" || tag in Tags)
  {
    LanguageIsTableValue(p);
  }

  /** A diff is fenced as `diff`, with a `file: <path> (diff)` header only when a path is
   *  given. */
  lemma DiffFence(toolName: string, args: Value, t: string, stringify: Stringify)
    requires toolName == "git_diff" || toolName == "get_file_diff"
    ensures var r := FormatResult(toolName, args, Text(t), stringify);
            && r.Ok?
            && (!Truthy(Get(args, "path")) ==> r.value == "```diff\n" + t + "\n```")
            && (Truthy(Get(args, "path")) ==>
                  r.value == "file: " + ToJsString(Get(args, "path")) + " (diff)\n```diff\n" + t + "\n```")
  {
  }

  /** A non-empty directory listing is fenced under `fold: <path or .>`, its lines listing
   *  every directory before every file. */
  lemma DirListingFence(args: Value, es: seq<FileEntry>, stringify: Stringify)
    requires es != []
    ensures FormatResult("list_directory", args, DirEntries(es), stringify)
            == Ok("fold: " + PathOrDot(args, "path") + "\n```text\n" + Join(ListingLines(es), "\n") + "\n```")
    ensures |ListingLines(es)| == |es|
  {
    ListingPartition(es);
  }

  /** A non-empty server list and a non-empty catalog go to their own renderers,
   *  whatever the tool. */
  lemma ListsRendered(toolName: string, args: Value, items: seq<string>, tools: seq<ToolInfo>, stringify: Stringify)
    requires items != [] && tools != []
    ensures FormatResult(toolName, args, StringList(items), stringify) == Ok(FormatServers(items))
    ensures FormatResult(toolName, args, Catalog(tools), stringify) == ToolListText(tools)
  {
  }

  /** A catalog with a server named `constructor` throws the TypeError of `push`. */
  lemma InheritedServerThrows(toolName: string, args: Value, t: ToolInfo, stringify: Stringify)
    requires t.server == "constructor"
    ensures FormatResult(toolName, args, Catalog([t]), stringify) == Err(PushError)
  {
    assert "constructor" in InheritedNames;
    assert [t][0].server in InheritedNames;
  }

  // ---------------------------------------------------------------------------
  // The JSON form of catalogs and listings

  /** A catalog entry as the server serialises it; an absent schema has no key. */
  function ToolJson(t: ToolInfo): Value {
    Obj([("server", Str(t.server)), ("name", Str(t.name)), ("description", Str(t.description))]
      + (match t.inputSchema case Some(s) => [("inputSchema", SchemaJson(s))] case None => []))
  }

  function SchemaJson(s: Schema): Value {
    Obj([("properties", Obj(PropsJson(s.properties))), ("required", Arr(StringsJson(s.required)))])
  }

  function PropsJson(props: seq<(string, PropInfo)>): (r: seq<(string, Value)>)
    ensures |r| == |props| && forall i :: 0 <= i < |props| ==> r[i] == (props[i].0, PropJson(props[i].1))
  {
    seq(|props|, i requires 0 <= i < |props| => (props[i].0, PropJson(props[i].1)))
  }

  function StringsJson(xs: seq<string>): (r: seq<Value>)
    ensures |r| == |xs| && forall i :: 0 <= i < |xs| ==> r[i] == Str(xs[i])
  {
    seq(|xs|, i requires 0 <= i < |xs| => Str(xs[i]))
  }

  /** A catalog as the server serialises it. */
  function CatalogJson(tools: seq<ToolInfo>): (r: seq<Value>)
    ensures |r| == |tools| && forall i :: 0 <= i < |tools| ==> r[i] == ToolJson(tools[i])
  {
    seq(|tools|, i requires 0 <= i < |tools| => ToolJson(tools[i]))
  }

  /** A listing as the server serialises it. */
  function ListingJson(es: seq<FileEntry>): (r: seq<Value>)
    ensures |r| == |es| && forall i :: 0 <= i < |es| ==> r[i] == EntryJson(es[i])
  {
    seq(|es|, i requires 0 <= i < |es| => EntryJson(es[i]))
  }

  function PropJson(p: PropInfo): Value {
    Obj((match p.typ case Some(t) => [("type", Str(t))] case None => [])
      + (match p.description case Some(d) => [("description", Str(d))] case None => []))
  }

  function EntryJson(e: FileEntry): Value {
    Obj([("name", Str(e.name)), ("isDirectory", Bool(e.isDirectory)), ("path", Str(e.path))])
  }

  /** Entries whose JSON form reads back as the same entries: no printed text is empty and
   *  no schema binds a key twice. */
  predicate JsonReady(tools: seq<ToolInfo>) {
    forall i :: 0 <= i < |tools| ==> tools[i].inputSchema.Some? ==> SchemaReady(tools[i].inputSchema.value)
  }

  predicate SchemaReady(s: Schema) {
    && Distinct(PropKeys(s.properties))
    && forall i :: 0 <= i < |s.properties| ==>
         s.properties[i].1.typ != Some("") && s.properties[i].1.description != Some("")
  }

  /** A catalog sent as JSON renders as the catalog itself. */
  lemma CatalogJsonAlike(toolName: string, args: Value, tools: seq<ToolInfo>, stringify: Stringify)
    requires tools != [] && JsonReady(tools)
    ensures FormatResult(toolName, args, Object(Arr(CatalogJson(tools))), stringify)
         == FormatResult(toolName, args, Catalog(tools), stringify)
  {
    CatalogArrayText(tools);
    ToolArrayDispatch(toolName, args, Arr(CatalogJson(tools)), stringify);
  }

  /** An array whose first item is an object binding "server" is taken for a tool list. */
  lemma ToolArrayDispatch(toolName: string, args: Value, v: Value, stringify: Stringify)
    requires FirstBinds(v, "server")
    ensures FormatResult(toolName, args, Object(v), stringify) == ToolArrayText(v.items)
  {
  }

  /** An array whose first item binds "isDirectory" and not "server" is taken for a listing. */
  lemma ListingArrayDispatch(toolName: string, args: Value, v: Value, stringify: Stringify)
    requires IsListingArray(v)
    ensures FormatResult(toolName, args, Object(v), stringify) == ListingArrayText(args, v.items)
  {
  }

  lemma CatalogArrayText(tools: seq<ToolInfo>)
    requires tools != [] && JsonReady(tools)
    ensures var items := CatalogJson(tools);
      && items[0].Obj? && Binds(items[0].fields, "server")
      && ToolArrayText(items) == ToolListText(tools)
  {
    CatalogJsonReads(tools);
    ToolJsonKeys(tools[0]);
  }

  /** The JSON form of a catalog reads back as the catalog. */
  lemma CatalogJsonReads(tools: seq<ToolInfo>)
    requires JsonReady(tools)
    ensures ToolsFrom(CatalogJson(tools)) == Ok(tools)
  {
    var items := CatalogJson(tools);
    forall i | 0 <= i < |tools| ensures ToolFrom(items[i]) == Ok(tools[i]) {
      ToolRoundTrip(tools[i]);
    }
    ToolsFromAll(items, tools);
  }

  /** A tool's JSON form binds "server", and "inputSchema" exactly when it has a schema. */
  lemma ToolJsonKeys(t: ToolInfo)
    ensures var fields := ToolJson(t).fields;
      Binds(fields, "server") && (Binds(fields, "inputSchema") <==> t.inputSchema.Some?)
  {
    var fields := ToolJson(t).fields;
    assert fields[0].0 == "server";
    if t.inputSchema.Some? {
      assert fields[3].0 == "inputSchema";
    }
  }

  lemma ToolsFromAll(items: seq<Value>, tools: seq<ToolInfo>)
    requires |items| == |tools| && forall i :: 0 <= i < |items| ==> ToolFrom(items[i]) == Ok(tools[i])
    ensures ToolsFrom(items) == Ok(tools)
  {
    var r := ToolsFrom(items);
    assert forall i :: 0 <= i < |items| ==> ToolFrom(items[i]).Ok?;
    assert r.value == tools;
  }

  lemma ToolRoundTrip(t: ToolInfo)
    requires t.inputSchema.Some? ==> SchemaReady(t.inputSchema.value)
    ensures ToolFrom(ToolJson(t)) == Ok(t)
  {
    ToolJsonReads(t);
    if t.inputSchema.Some? {
      SchemaRoundTrip(t.inputSchema.value);
    }
    ToolFromReads(ToolJson(t), t);
  }

  /** An object whose fields read as a tool's is read as that tool. */
  lemma ToolFromReads(item: Value, t: ToolInfo)
    requires item.Obj?
    requires Get(item, "server") == Str(t.server) && Get(item, "name") == Str(t.name)
    requires Get(item, "description") == Str(t.description)
    requires t.inputSchema.None? ==> Get(item, "inputSchema") == Undefined
    requires t.inputSchema.Some? ==> Get(item, "inputSchema").Obj? && SchemaFrom(Get(item, "inputSchema")) == Ok(t.inputSchema.value)
    ensures ToolFrom(item) == Ok(t)
  {
    assert DescriptionOf(Get(item, "description")) == Ok(t.description);
    assert !IsNullish(item);
    var schema := Get(item, "inputSchema");
    match t.inputSchema {
      case None =>
        assert !Truthy(schema);
      case Some(s) =>
        assert Truthy(schema);
    }
  }

  lemma ToolJsonReads(t: ToolInfo)
    ensures var json := ToolJson(t);
      && Get(json, "server") == Str(t.server)
      && Get(json, "name") == Str(t.name)
      && Get(json, "description") == Str(t.description)
      && Get(json, "inputSchema") == (match t.inputSchema case Some(s) => SchemaJson(s) case None => Undefined)
  {
    var fields := ToolJson(t).fields;
    assert fields[0].0 == "server" && fields[1].0 == "name" && fields[2].0 == "description";
    assert forall j :: 3 <= j < |fields| ==> fields[j].0 == "inputSchema";
    LookupLast(fields, 0);
    LookupLast(fields, 1);
    LookupLast(fields, 2);
    match t.inputSchema {
      case None =>
        assert !Binds(fields, "inputSchema");
        UnboundLookup(fields, "inputSchema");
      case Some(s) =>
        LookupLast(fields, 3);
    }
  }

  lemma SchemaRoundTrip(s: Schema)
    requires SchemaReady(s)
    ensures SchemaFrom(SchemaJson(s)) == Ok(s)
  {
    SchemaJsonReads(s);
    StringItemsAll(StringsJson(s.required), s.required);
    PropertiesRoundTrip(s.properties);
    SchemaFromReads(SchemaJson(s), s);
  }

  lemma SchemaJsonReads(s: Schema)
    ensures var json := SchemaJson(s);
      Get(json, "properties") == Obj(PropsJson(s.properties)) && Get(json, "required") == Arr(StringsJson(s.required))
  {
    var fields := SchemaJson(s).fields;
    LookupLast(fields, 0);
    LookupLast(fields, 1);
  }

  /** A value whose fields read as a schema's is read as that schema. */
  lemma SchemaFromReads(v: Value, s: Schema)
    requires RequiredFrom(Get(v, "required")) == Ok(s.required)
    requires Get(v, "properties").Obj? && PropsFrom(RawProperties(Get(v, "properties"))) == Ok(s.properties)
    ensures SchemaFrom(v) == Ok(s)
  {
  }

  lemma PropertiesRoundTrip(props: seq<(string, PropInfo)>)
    requires SchemaReady(Schema(props, []))
    ensures PropsFrom(RawProperties(Obj(PropsJson(props)))) == Ok(props)
  {
    var fields := PropsJson(props);
    assert FieldKeys(fields) == PropKeys(props);
    DedupDistinct(PropKeys(props));
    var raw := RawProperties(Obj(fields));
    assert |raw| == |props|;
    forall i | 0 <= i < |props| ensures raw[i] == (props[i].0, PropJson(props[i].1)) {
      LookupDistinct(fields, i);
    }
    forall i | 0 <= i < |raw| ensures PropFrom(raw[i].1) == Ok(props[i].1) {
      PropRoundTrip(props[i].1);
    }
    PropsFromAll(raw, props);
  }

  lemma PropsFromAll(raw: seq<(string, Value)>, props: seq<(string, PropInfo)>)
    requires |raw| == |props|
    requires forall i :: 0 <= i < |raw| ==> raw[i].0 == props[i].0 && PropFrom(raw[i].1) == Ok(props[i].1)
    ensures PropsFrom(raw) == Ok(props)
  {
    var r := PropsFrom(raw);
    assert forall i :: 0 <= i < |raw| ==> !IsNullish(raw[i].1);
    assert r.value == props;
  }

  lemma PropRoundTrip(p: PropInfo)
    requires p.typ != Some("") && p.description != Some("")
    ensures PropFrom(PropJson(p)) == Ok(p)
  {
    var json := PropJson(p);
    PropJsonReads(p);
    PrintedOption(p.typ);
    PrintedOption(p.description);
    assert !IsNullish(json);
  }

  /** An optional non-empty text, written as a string or left out, prints back as itself. */
  lemma PrintedOption(o: Option<string>)
    requires o != Some("")
    ensures Printed(match o case Some(t) => Str(t) case None => Undefined) == o
  {
  }

  lemma PropJsonReads(p: PropInfo)
    ensures var json := PropJson(p);
      && Get(json, "type") == (match p.typ case Some(t) => Str(t) case None => Undefined)
      && Get(json, "description") == (match p.description case Some(d) => Str(d) case None => Undefined)
  {
    var fields := PropJson(p).fields;
    if p.typ.Some? {
      assert fields[0] == ("type", Str(p.typ.value));
      assert forall j :: 1 <= j < |fields| ==> fields[j].0 == "description";
      LookupLast(fields, 0);
    } else {
      assert !Binds(fields, "type");
      UnboundLookup(fields, "type");
    }
    if p.description.Some? {
      assert fields[|fields| - 1] == ("description", Str(p.description.value));
      LookupLast(fields, |fields| - 1);
    } else {
      assert !Binds(fields, "description");
      UnboundLookup(fields, "description");
    }
  }

  /** With distinct keys, each binding is the one Lookup finds. */
  lemma LookupDistinct(fields: seq<(string, Value)>, i: nat)
    requires i < |fields| && Distinct(FieldKeys(fields))
    ensures Lookup(fields, fields[i].0) == fields[i].1
  {
    assert forall j :: i < j < |fields| ==> FieldKeys(fields)[j] != FieldKeys(fields)[i];
    LookupLast(fields, i);
  }

  lemma {:induction false} StringItemsAll(items: seq<Value>, strings: seq<string>)
    requires |items| == |strings| && forall i :: 0 <= i < |items| ==> items[i] == Str(strings[i])
    ensures StringItems(items) == strings
  {
    if items != [] {
      var n := |items| - 1;
      StringItemsAll(items[..n], strings[..n]);
      assert strings == strings[..n] + [strings[n]];
    }
  }

  lemma EntryRoundTrip(e: FileEntry)
    ensures EntryFrom(EntryJson(e)) == Ok(e)
  {
    var fields := EntryJson(e).fields;
    LookupLast(fields, 0);
    LookupLast(fields, 1);
    LookupLast(fields, 2);
  }

  /** A listing sent as JSON renders as the listing itself. */
  lemma ListingJsonAlike(toolName: string, args: Value, es: seq<FileEntry>, stringify: Stringify)
    requires es != []
    ensures FormatResult(toolName, args, Object(Arr(ListingJson(es))), stringify)
         == FormatResult(toolName, args, DirEntries(es), stringify)
  {
    ListingJsonReads(es);
    ListingArrayDispatch(toolName, args, Arr(ListingJson(es)), stringify);
  }

  /** The JSON form of a listing reads back as the listing, and is not taken for a catalog. */
  lemma ListingJsonReads(es: seq<FileEntry>)
    requires es != []
    ensures var items := ListingJson(es);
      IsListingArray(Arr(items)) && EntriesFrom(items) == Ok(es)
  {
    var items := ListingJson(es);
    assert !Binds(items[0].fields, "server");
    assert Binds(items[0].fields, "isDirectory") by { assert items[0].fields[1].0 == "isDirectory"; }
    var r := EntriesFrom(items);
    forall i | 0 <= i < |es| ensures EntryFrom(items[i]) == Ok(es[i]) {
      EntryRoundTrip(es[i]);
    }
    assert r.Ok?;
    assert r.value == es;
  }

}
